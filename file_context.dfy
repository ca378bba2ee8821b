/**
 * The upload flag of the front end's FileContext: `fileUploaded` starts
 * false and every `notifyFileUploaded()` negates it, so that components
 * watching it refresh.
 */
module FileContext {

  /** `useState(false)`. */
  const InitialFileUploaded: bool := false

  /** `setFileUploaded(prev => !prev)`. */
  function NotifyFileUploaded(prev: bool): (r: bool)
    ensures r != prev
  {
    !prev
  }

  /** Two notifications bring the flag back. */
  lemma NotifyTwice(prev: bool)
    ensures NotifyFileUploaded(NotifyFileUploaded(prev)) == prev
  {
  }

  /** The flag after `n` notifications. */
  function NotifyTimes(prev: bool, n: nat): bool
  {
    if n == 0 then prev else NotifyFileUploaded(NotifyTimes(prev, n - 1))
  }

  /** From the initial state the flag is set exactly after an odd number of uploads. */
  lemma {:induction false} NotifyParity(n: nat)
    ensures NotifyTimes(InitialFileUploaded, n) <==> n % 2 == 1
  {
    if n > 0 {
      NotifyParity(n - 1);
    }
  }
}
