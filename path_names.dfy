/**
 * The string conventions that tie an uploaded file to its id.
 *
 * Upload stores a file as `<data_path>/<id>_<filename>`; several readers later
 * recover the id from such a path with Python's str.split, str.removeprefix
 * and os.path.basename.  The functions here are those Python operations on
 * `seq<char>`, the two id extractors, the FAISS store name, and the
 * round-trip lemmas that say the extractors undo the upload naming.
 */
module PathNames {

  /** The directory the three servers store uploads in. */
  const DataPath: string := "data/files"

  // ---------------------------------------------------------------------------
  // Python string operations
  // ---------------------------------------------------------------------------

  /** `s.split(sep)[-1]`: the text after the last `sep`, or all of `s`. */
  function LastAfter(s: string, sep: char): (r: string)
    ensures |r| <= |s| && r == s[|s| - |r|..]
    ensures sep !in r
    ensures |r| < |s| ==> s[|s| - |r| - 1] == sep
  {
    if |s| == 0 then s
    else if s[|s| - 1] == sep then []
    else LastAfter(s[..|s| - 1], sep) + [s[|s| - 1]]
  }

  /** `s.split(sep)[0]`: the text before the first `sep`, or all of `s`. */
  function FirstBefore(s: string, sep: char): (r: string)
    ensures |r| <= |s| && r == s[..|r|]
    ensures sep !in r
    ensures |r| < |s| ==> s[|r|] == sep
  {
    if |s| == 0 then s
    else if s[0] == sep then []
    else [s[0]] + FirstBefore(s[1..], sep)
  }

  /** `s.removeprefix(p)`. */
  function RemovePrefix(s: string, p: string): (r: string)
    ensures p <= s ==> p + r == s
    ensures !(p <= s) ==> r == s
  {
    if p <= s then s[|p|..] else s
  }

  /** posixpath.basename: the text after the last '/'. */
  function Basename(path: string): (r: string)
    ensures '/' !in r
    ensures '/' !in path ==> r == path
  {
    LastAfter(path, '/')
  }

  /**
   * posixpath.join for two components: an absolute `b` replaces `a`; a
   * relative `b` follows `a` with exactly one '/' between them, unless `a` is
   * empty or already ends in '/'.
   */
  function Join(a: string, b: string): (r: string)
    ensures |b| > 0 && b[0] == '/' ==> r == b
    ensures !(|b| > 0 && b[0] == '/') && (a == "" || a[|a| - 1] == '/') ==> r == a + b
    ensures !(|b| > 0 && b[0] == '/') && a != "" && a[|a| - 1] != '/' ==> r == a + "/" + b
  {
    if |b| > 0 && b[0] == '/' then b
    else if a == "" || a[|a| - 1] == '/' then a + b
    else a + "/" + b
  }

  lemma {:induction false} LastAfterNoSep(s: string, sep: char)
    requires sep !in s
    ensures LastAfter(s, sep) == s
  {
    if |s| > 0 {
      LastAfterNoSep(s[..|s| - 1], sep);
      assert s[..|s| - 1] + [s[|s| - 1]] == s;
    }
  }

  /** Splitting at a separator that occurs last in front of `b` gives back `b`. */
  lemma {:induction false} LastAfterSplit(a: string, sep: char, b: string)
    requires sep !in b
    ensures LastAfter(a + [sep] + b, sep) == b
  {
    var s := a + [sep] + b;
    if |b| > 0 {
      var b' := b[..|b| - 1];
      assert s[..|s| - 1] == a + [sep] + b';
      LastAfterSplit(a, sep, b');
      assert b' + [b[|b| - 1]] == b;
    }
  }

  /** Splitting at the first separator gives back the text in front of it. */
  lemma {:induction false} FirstBeforeSplit(a: string, sep: char, b: string)
    requires sep !in a
    ensures FirstBefore(a + [sep] + b, sep) == a
  {
    var s := a + [sep] + b;
    if |a| > 0 {
      assert s[1..] == a[1..] + [sep] + b;
      FirstBeforeSplit(a[1..], sep, b);
      assert [a[0]] + a[1..] == a;
    }
  }

  // ---------------------------------------------------------------------------
  // Upload naming and the two id extractors
  // ---------------------------------------------------------------------------

  /** The stored name of an upload: `file_id + "_" + filename` (app/app.py:113). */
  function UploadName(fileId: string, fileName: string): (r: string)
    // the id, one '_', then the client's name, unchanged
    ensures |r| == |fileId| + 1 + |fileName|
    ensures r[..|fileId|] == fileId && r[|fileId|] == '_' && r[|fileId| + 1..] == fileName
    // an id without '_' is what precedes the first '_'
    ensures '_' !in fileId ==> FirstBefore(r, '_') == fileId
  {
    var r := fileId + "_" + fileName;
    assert r == fileId + ['_'] + fileName;
    if '_' in fileId then r
    else FirstBeforeSplit(fileId, '_', fileName); r
  }

  /**
   * `os.path.join(data_path, file_id + "_" + filename)` on POSIX: for an id
   * and a name without '/', the stored name is the path's basename.
   */
  function UploadPath(dataPath: string, fileId: string, fileName: string): (r: string)
    // stored directly inside a directory written without a trailing '/',
    // unless the id itself is an absolute path
    ensures (fileId == "" || fileId[0] != '/') && dataPath != "" && dataPath[|dataPath| - 1] != '/' ==>
              r == dataPath + "/" + UploadName(fileId, fileName)
    ensures '/' !in fileId && '/' !in fileName ==> Basename(r) == UploadName(fileId, fileName)
  {
    var u := UploadName(fileId, fileName);
    if '/' in fileId || '/' in fileName then Join(dataPath, u)
    else
      assert '/' !in u;
      BasenameJoin(dataPath, u);
      Join(dataPath, u)
  }

  /** The basename of a join is its last component, when that has no '/'. */
  lemma BasenameJoin(a: string, b: string)
    requires '/' !in b
    ensures Basename(Join(a, b)) == b
  {
    if a == "" {
      LastAfterNoSep(b, '/');
    } else if a[|a| - 1] == '/' {
      assert a + b == a[..|a| - 1] + ['/'] + b;
      LastAfterSplit(a[..|a| - 1], '/', b);
    } else {
      LastAfterSplit(a, '/', b);
    }
  }

  /**
   * back_end/model_chain.py load_document: last '/'-segment, strip a leading
   * "files", last '\'-segment, text before the first '_'.
   */
  function ModelChainFileId(filePath: string): (r: string)
    ensures '_' !in r && '/' !in r && '\\' !in r
  {
    var firstCut := LastAfter(filePath, '/');
    var secondCut := RemovePrefix(firstCut, "files");
    var thirdCut := LastAfter(secondCut, '\\');
    FirstBefore(thirdCut, '_')
  }

  /** DocumentProcessor: `basename(file_path).split("_")[0]`. */
  function ProcessorFileId(filePath: string): (r: string)
    ensures '_' !in r && '/' !in r
  {
    FirstBefore(Basename(filePath), '_')
  }

  /** A file id that the upload naming can carry through the extractors. */
  predicate SafeId(fileId: string)
  {
    '_' !in fileId && '/' !in fileId && '\\' !in fileId && !("files" <= fileId)
  }

  /** A client file name with no path separator of either platform. */
  predicate SafeName(fileName: string)
  {
    '/' !in fileName && '\\' !in fileName
  }

  predicate IsLowerHex(c: char)
  {
    '0' <= c <= '9' || 'a' <= c <= 'f'
  }

  /**
   * `str(uuid.uuid4())`: the RFC 4122 text form, 32 lower-case hex digits in
   * groups 8-4-4-4-12, version digit 4, variant digit one of 8, 9, a, b.
   */
  predicate IsUuid4Text(s: string)
  {
    && |s| == 36
    && (forall i :: 0 <= i < 36 ==>
          if i == 8 || i == 13 || i == 18 || i == 23 then s[i] == '-' else IsLowerHex(s[i]))
    && s[14] == '4'
    && s[19] in "89ab"
  }

  /** Every id upload mints is a safe id. */
  lemma Uuid4TextIsSafeId(s: string)
    requires IsUuid4Text(s)
    ensures SafeId(s)
  {
    assert s[1] != 'i';
  }

  lemma UploadNameNotFiles(fileId: string, fileName: string)
    requires SafeId(fileId)
    ensures !("files" <= UploadName(fileId, fileName))
  {
    var u := UploadName(fileId, fileName);
    assert |fileId| >= 5 ==> u[..5] == fileId[..5];
    assert |fileId| < 5 ==> u[|fileId|] == '_';
  }

  /** An upload stored on POSIX yields its id back through model_chain's extractor. */
  lemma ModelChainIdRoundTrip(fileId: string, fileName: string)
    requires SafeId(fileId) && SafeName(fileName)
    ensures ModelChainFileId(UploadPath(DataPath, fileId, fileName)) == fileId
  {
    var u := UploadName(fileId, fileName);
    assert LastAfter(UploadPath(DataPath, fileId, fileName), '/') == u;
    UploadNameNotFiles(fileId, fileName);
    assert RemovePrefix(u, "files") == u;
    assert '\\' !in u by {
      assert u == fileId + ['_'] + fileName;
    }
    LastAfterNoSep(u, '\\');
  }

  /** The same for a path joined with '\' as on Windows, which is why "files" is stripped. */
  lemma ModelChainIdRoundTripWindows(fileId: string, fileName: string)
    requires SafeId(fileId) && SafeName(fileName)
    ensures ModelChainFileId(DataPath + "\\" + UploadName(fileId, fileName)) == fileId
  {
    var u := UploadName(fileId, fileName);
    assert '/' !in u && '\\' !in u by {
      assert u == fileId + ['_'] + fileName;
    }
    ModelChainWindowsName(u);
  }

  /** model_chain's extractor on `data/files\\<u>` reads `u` up to its first '_'. */
  lemma ModelChainWindowsName(u: string)
    requires '/' !in u && '\\' !in u
    ensures ModelChainFileId(DataPath + "\\" + u) == FirstBefore(u, '_')
  {
    WindowsFirstCut(u);
    WindowsThirdCut(u);
  }

  /** The last '/'-segment of `data/files\\<u>` is `files\\<u>`. */
  lemma WindowsFirstCut(u: string)
    requires '/' !in u
    ensures LastAfter(DataPath + "\\" + u, '/') == "files\\" + u
  {
    assert DataPath + "\\" + u == "data" + ['/'] + ("files\\" + u);
    LastAfterSplit("data", '/', "files\\" + u);
  }

  /** Stripping "files" from `files\\<u>` and keeping the last '\\'-segment leaves `u`. */
  lemma WindowsThirdCut(u: string)
    requires '\\' !in u
    ensures LastAfter(RemovePrefix("files\\" + u, "files"), '\\') == u
  {
    var tail := "files\\" + u;
    assert tail[..5] == "files" && tail[5..] == [] + ['\\'] + u;
    LastAfterSplit([], '\\', u);
  }

  /** An upload yields its id back through DocumentProcessor's extractor. */
  lemma ProcessorIdRoundTrip(fileId: string, fileName: string)
    requires SafeId(fileId) && SafeName(fileName)
    ensures ProcessorFileId(UploadPath(DataPath, fileId, fileName)) == fileId
  {
    assert Basename(UploadPath(DataPath, fileId, fileName)) == UploadName(fileId, fileName);
  }

  /** Taking the text before the first '_' twice changes nothing. */
  lemma FirstBeforeIdempotent(s: string, sep: char)
    ensures FirstBefore(FirstBefore(s, sep), sep) == FirstBefore(s, sep)
  {
    var r := FirstBefore(s, sep);
    FirstBeforeNoSep(r, sep);
  }

  lemma {:induction false} FirstBeforeNoSep(s: string, sep: char)
    requires sep !in s
    ensures FirstBefore(s, sep) == s
  {
    if |s| > 0 {
      FirstBeforeNoSep(s[1..], sep);
      assert [s[0]] + s[1..] == s;
    }
  }

  // ---------------------------------------------------------------------------
  // FAISS store naming (model-chain.py, model.py)
  // ---------------------------------------------------------------------------

  /** `f"{file_path.split("/")[-1]}_vectorstore"`. */
  function VectorStoreName(filePath: string): (r: string)
    ensures r == Basename(filePath) + "_vectorstore"
  {
    LastAfter(filePath, '/') + "_vectorstore"
  }

  /** `vector_path + vectorstore_file`. */
  function VectorStorePath(vectorPath: string, filePath: string): string
  {
    vectorPath + VectorStoreName(filePath)
  }

  /** Two documents share a store exactly when their last path segments agree. */
  lemma VectorStorePathShared(vectorPath: string, p: string, q: string)
    ensures VectorStorePath(vectorPath, p) == VectorStorePath(vectorPath, q)
        <==> LastAfter(p, '/') == LastAfter(q, '/')
  {
    var a, b := LastAfter(p, '/'), LastAfter(q, '/');
    var x, y := VectorStorePath(vectorPath, p), VectorStorePath(vectorPath, q);
    assert x == vectorPath + (a + "_vectorstore");
    assert y == vectorPath + (b + "_vectorstore");
    if x == y {
      assert |a| == |b|;
      forall i | 0 <= i < |a| ensures a[i] == b[i] {
        assert x[|vectorPath| + i] == a[i];
        assert y[|vectorPath| + i] == b[i];
      }
    }
  }
}
