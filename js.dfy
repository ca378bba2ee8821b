/**
 * The few JavaScript semantics the front end's state code relies on: plain
 * objects with the spread update `{ ...state, key: value }`, property reads
 * that give `undefined` for a missing key, the order in which React's
 * `useReducer` applies dispatched actions, and `String.prototype.trim`.
 */
module Js {

  /** The JavaScript values a reducer stores or compares. */
  datatype Value = Undefined | Null | Bool(b: bool) | Num(n: int) | Str(s: string)

  /** A plain object: its own enumerable properties. */
  type Object = map<string, Value>

  /** `obj.key`: `undefined` when the object has no such property. */
  function Get(obj: Object, key: string): (r: Value)
    ensures key !in obj ==> r == Undefined
    ensures key in obj ==> r == obj[key]
  {
    if key in obj then obj[key] else Undefined
  }

  /** `{ ...state, key: value }`: a new object, `state` itself untouched. */
  function Spread(state: Object, key: string, value: Value): (r: Object)
    ensures r.Keys == state.Keys + {key}
    ensures Get(r, key) == value
    ensures forall k :: k in state && k != key ==> r[k] == state[k]
  {
    state[key := value]
  }

  /**
   * The state React's `useReducer` holds after the actions were dispatched
   * one after another, the last action applied last.
   */
  function ReduceAll<S, A>(reducer: (S, A) -> S, state: S, actions: seq<A>): S
    decreases |actions|
  {
    if actions == [] then state
    else reducer(ReduceAll(reducer, state, actions[..|actions| - 1]), actions[|actions| - 1])
  }

  /**
   * The characters `trim` removes: the WhiteSpace and LineTerminator code
   * points of ECMAScript (section 12.2 and 12.3 of ECMA-262), which are
   * tab, vertical tab, form feed, space, no-break space, the byte order
   * mark, the other space separators of Unicode, and the four line
   * terminators.
   */
  predicate IsJsSpace(c: char)
  {
    || c == '\U{9}' || c == '\U{B}' || c == '\U{C}' || c == ' ' || c == '\U{A0}' || c == '\U{FEFF}'
    || c == '\U{1680}' || ('\U{2000}' <= c <= '\U{200A}') || c == '\U{202F}' || c == '\U{205F}' || c == '\U{3000}'
    || c == '\U{A}' || c == '\U{D}' || c == '\U{2028}' || c == '\U{2029}'
  }

  /** Every character of `s` is a JavaScript space. */
  predicate AllSpace(s: string)
  {
    forall i :: 0 <= i < |s| ==> IsJsSpace(s[i])
  }

  /** A space followed by spaces is all spaces. */
  lemma AllSpaceFront(s: string)
    requires s != [] && IsJsSpace(s[0]) && AllSpace(s[1..])
    ensures AllSpace(s)
  {
    assert forall i :: 1 <= i < |s| ==> s[i] == s[1..][i - 1];
  }

  /** Spaces followed by a space are all spaces. */
  lemma AllSpaceBack(s: string)
    requires s != [] && IsJsSpace(s[|s| - 1]) && AllSpace(s[..|s| - 1])
    ensures AllSpace(s)
  {
    assert forall i :: 0 <= i < |s| - 1 ==> s[i] == s[..|s| - 1][i];
  }

  /** `s.trimStart()`. */
  function TrimStart(s: string): (r: string)
    ensures |r| <= |s| && r == s[|s| - |r|..]
    ensures r == [] || !IsJsSpace(r[0])
    // what was removed is all spaces
    ensures AllSpace(s[..|s| - |r|])
  {
    if s != [] && IsJsSpace(s[0]) then
      var r := TrimStart(s[1..]);
      var n := |s| - |r|;
      assert s[..n][1..] == s[1..][..n - 1];
      AllSpaceFront(s[..n]);
      r
    else s
  }

  /** `s.trimEnd()`. */
  function TrimEnd(s: string): (r: string)
    ensures |r| <= |s| && r == s[..|r|]
    ensures r == [] || !IsJsSpace(r[|r| - 1])
    // what was removed is all spaces
    ensures AllSpace(s[|r|..])
  {
    if s != [] && IsJsSpace(s[|s| - 1]) then
      var r := TrimEnd(s[..|s| - 1]);
      assert s[|r|..][..|s| - |r| - 1] == s[..|s| - 1][|r|..];
      AllSpaceBack(s[|r|..]);
      r
    else s
  }

  /** `s.trim()`: neither starts nor ends with a space. */
  function Trim(s: string): (r: string)
    ensures r == [] || (!IsJsSpace(r[0]) && !IsJsSpace(r[|r| - 1]))
  {
    var t := TrimStart(s);
    var r := TrimEnd(t);
    assert r != [] ==> r[0] == t[0];
    r
  }

  /** `r` sits at `k` in `s`, with only spaces before and after it. */
  predicate SpacedAt(s: string, r: string, k: int)
  {
    0 <= k <= |s| - |r| && r == s[k..k + |r|] && AllSpace(s[..k]) && AllSpace(s[k + |r|..])
  }

  /**
   * `s.trim()` is the text between a leading and a trailing run of
   * spaces.
   */
  lemma TrimSplits(s: string)
    ensures exists k :: SpacedAt(s, Trim(s), k)
  {
    var t := TrimStart(s);
    var k := |s| - |t|;
    var r := TrimEnd(t);
    assert AllSpace(s[..k]);
    assert AllSpace(t[|r|..]);
    assert s[k + |r|..] == t[|r|..];
    assert r == s[k..k + |r|];
    assert SpacedAt(s, r, k);
    assert Trim(s) == r;
  }

  /** trimStart leaves nothing exactly when every character is a space. */
  lemma {:induction false} TrimStartEmpty(s: string)
    ensures TrimStart(s) == [] <==> AllSpace(s)
  {
    if s != [] {
      if IsJsSpace(s[0]) {
        TrimStartEmpty(s[1..]);
        if TrimStart(s) == [] {
          forall i | 0 <= i < |s| ensures IsJsSpace(s[i]) {
            if i > 0 {
              assert s[i] == s[1..][i - 1];
            }
          }
        } else {
          var j :| 0 <= j < |s[1..]| && !IsJsSpace(s[1..][j]);
          assert s[j + 1] == s[1..][j];
        }
      }
    }
  }

  /**
   * The Enter-key guard of the chat input: the trimmed text is empty
   * exactly when every character of the text is a JavaScript space.
   */
  lemma {:induction false} TrimEmptyIff(s: string)
    ensures Trim(s) == [] <==> AllSpace(s)
  {
    TrimStartEmpty(s);
    var t := TrimStart(s);
    if t != [] {
      // the first character of t is not a space, so trimEnd keeps it
      assert !IsJsSpace(t[0]);
      TrimEndKeeps(t);
    }
  }

  /** trimEnd keeps a text whose first character is not a space non-empty. */
  lemma {:induction false} TrimEndKeeps(t: string)
    requires t != [] && !IsJsSpace(t[0])
    ensures TrimEnd(t) != []
  {
    if IsJsSpace(t[|t| - 1]) {
      assert |t| > 1;
      TrimEndKeeps(t[..|t| - 1]);
    }
  }
}
