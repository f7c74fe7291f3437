/**
  The bounded history of recent runs, against the history nobody trims
  (internal/metrics/metricshandler.go, append-and-trim; internal/lifecyclepolicy/engine.go, windows).
*/
module RollingHistory {

  /** MaxLifecycleWindow: how many runs are kept, and the longest window a rule may ask for. */
  const MAX_WINDOW: nat := 100

  /** The last n elements, or all of them. */
  function Last<T>(n: nat, s: seq<T>): seq<T> {
    if |s| > n then s[|s| - n..] else s
  }

  function Trimmed<T>(s: seq<T>): seq<T> {
    Last(MAX_WINDOW, s)
  }

  /** A hundred runs are kept, the newest, or all while there are fewer. */
  lemma TrimmedKeepsAHundred<T>(s: seq<T>)
    ensures |Trimmed(s)| == (if |s| < 100 then |s| else 100) && Trimmed(s) == s[|s| - |Trimmed(s)|..]
  {
  }

  /** Appending and trimming keeps exactly the last runs of the untrimmed history. */
  lemma TrimmingKeepsTheTail<T>(full: seq<T>, x: T)
    ensures Trimmed(Trimmed(full) + [x]) == Trimmed(full + [x])
  {
    assert |full| > MAX_WINDOW ==> Trimmed(full) + [x] == (full + [x])[|full| - MAX_WINDOW..];
  }
}
