/** Values shared by the plugin's hooks: optional values, errors, settled
    promises, log lines, and a first-match search over sequences. */
module Common {

  datatype Option<T> = None | Some(value: T)

  /** An error a hook throws, rejects with or returns. The plugin itself only
      raises `SilentError` with a fixed message; a library or remote call
      rejects with a reason of its own. */
  datatype Error = SilentError(message: string) | Rejection(reason: string)

  /** How a promise that carries no value settles. */
  datatype Outcome = Success | Failure(error: Error)

  /** How a promise that carries a value settles. */
  datatype Result<T> = Ok(value: T) | Err(error: Error)

  /** One line written through the plugin's logger; `verbose` is the
      `{ verbose: true }` option. */
  datatype LogLine = LogLine(text: string, verbose: bool)

  /** The index of the first element satisfying `p`, as `Array.prototype.find`
      scans: front to back, stopping at the first hit. */
  function FirstIndex<T>(s: seq<T>, p: T -> bool): (r: Option<nat>)
    ensures r.None? <==> forall j :: 0 <= j < |s| ==> !p(s[j])
    ensures r.Some? ==> r.value < |s| && p(s[r.value])
    ensures r.Some? ==> forall j :: 0 <= j < r.value ==> !p(s[j])
  {
    if |s| == 0 then None
    else if p(s[0]) then Some(0)
    else
      match FirstIndex(s[1..], p)
      case None => None
      case Some(k) => Some(k + 1)
  }

  /** `prefix` is the beginning of `s` (`String.prototype.startsWith`). */
  predicate StartsWith(s: string, prefix: string) {
    |prefix| <= |s| && s[..|prefix|] == prefix
  }

  /** `suffix` is the end of `s` (`String.prototype.endsWith`). */
  predicate EndsWith(s: string, suffix: string) {
    |suffix| <= |s| && s[|s| - |suffix|..] == suffix
  }
}
