/** The bounded logs kept by the tool registry (execution history) and by the server
    (message history): append the newest entry, then drop the oldest one once the log is
    longer than its capacity. */
module History {

  /** `s.slice(-n)`: the newest `n` entries of `s`, all of `s` when it is shorter than
      `n`, and all of `s` for `n == 0` too, since `-0` is the start of the array. */
  function LastN<T>(s: seq<T>, n: nat): (r: seq<T>)
    ensures |r| == if n == 0 || |s| < n then |s| else n
    ensures r == s[|s| - |r|..]
  {
    if n == 0 || |s| <= n then s else s[|s| - n..]
  }

  /** `log.push(x); if (log.length > cap) log.shift();` */
  function PushCapped<T>(log: seq<T>, x: T, cap: nat): (r: seq<T>)
    ensures |log| <= cap ==> |r| <= cap
    ensures cap > 0 ==> r != [] && r[|r| - 1] == x
    ensures r == log + [x] || r == (log + [x])[1..]
  {
    var grown := log + [x];
    if |grown| > cap then grown[1..] else grown
  }

  /** A log that holds the newest `cap` of all entries ever appended still does so
      after one more append: the oldest entry is dropped first and nothing else is. */
  lemma PushCappedKeepsNewest<T>(all: seq<T>, log: seq<T>, x: T, cap: nat)
    requires cap > 0
    requires log == LastN(all, cap)
    ensures PushCapped(log, x, cap) == LastN(all + [x], cap)
  {
    var grown := all + [x];
    if |all| >= cap {
      assert log + [x] == grown[|grown| - cap - 1..];
    }
  }

  /** Appending to a log within its capacity: either nothing is dropped, or the log was
      full and exactly its oldest entry is dropped. */
  lemma PushCappedDropsOldest<T>(log: seq<T>, x: T, cap: nat)
    requires 0 < cap && |log| <= cap
    ensures |log| < cap ==> PushCapped(log, x, cap) == log + [x]
    ensures |log| == cap ==> PushCapped(log, x, cap) == log[1..] + [x]
  {
  }
}
