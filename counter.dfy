/**
 * collections.Counter keyed by HttpStatus, as downloader_coro uses it: it
 * starts empty and `counter[status] += 1` is applied once per finished task.
 */
module Tally {
  import opened FlagsCommon

  type Counter = map<HttpStatus, nat>

  /** counter[s]: a missing key reads as 0. */
  function Get(c: Counter, s: HttpStatus): nat {
    if s in c then c[s] else 0
  }

  /** counter[s] += 1 */
  function Record(c: Counter, s: HttpStatus): (r: Counter)
    ensures Get(r, s) == Get(c, s) + 1
    ensures forall t :: t != s ==> Get(r, t) == Get(c, t)
    ensures r.Keys == c.Keys + {s}
  {
    c[s := Get(c, s) + 1]
  }

  /** The counter after folding the statuses in the order they are drained. */
  function Fold(drained: seq<HttpStatus>): Counter {
    if drained == [] then map[]
    else Record(Fold(drained[..|drained| - 1]), drained[|drained| - 1])
  }

  /** The counter that holds, for each status, how often it occurs in m;
      a status that never occurs is not a key. */
  function CounterOf(m: multiset<HttpStatus>): (c: Counter)
    ensures forall s :: Get(c, s) == m[s]
    ensures forall s :: s in c <==> s in m
  {
    map s | s in m :: m[s]
  }

  /** Sum of the counts. */
  function Total(c: Counter): nat {
    Get(c, Ok) + Get(c, NotFound) + Get(c, Error)
  }

  /** Counting one more status in the counter of m gives the counter of m
      with that status added. */
  lemma RecordCounterOf(m: multiset<HttpStatus>, s: HttpStatus)
    ensures Record(CounterOf(m), s) == CounterOf(m + multiset{s})
  {
    var r, c := Record(CounterOf(m), s), CounterOf(m + multiset{s});
    assert r.Keys == c.Keys;
    forall t | t in r
      ensures r[t] == c[t]
    {
      assert Get(r, t) == Get(c, t);
    }
  }

  /** Folding a drained sequence gives its multiset of statuses. */
  lemma {:induction false} FoldIsCounterOf(drained: seq<HttpStatus>)
    ensures Fold(drained) == CounterOf(multiset(drained))
  {
    if drained == [] {
      assert CounterOf(multiset{}) == map[];
    } else {
      var init, last := drained[..|drained| - 1], drained[|drained| - 1];
      FoldIsCounterOf(init);
      assert drained == init + [last];
      assert multiset(drained) == multiset(init) + multiset{last};
      RecordCounterOf(multiset(init), last);
    }
  }

  /** The counter does not depend on the order the tasks complete in. */
  lemma FoldOrderIndependent(a: seq<HttpStatus>, b: seq<HttpStatus>)
    requires multiset(a) == multiset(b)
    ensures Fold(a) == Fold(b)
  {
    FoldIsCounterOf(a);
    FoldIsCounterOf(b);
  }

  /** Each drained task adds exactly one to the sum of the counts. */
  lemma {:induction false} TotalFold(drained: seq<HttpStatus>)
    ensures Total(Fold(drained)) == |drained|
  {
    if drained != [] {
      TotalFold(drained[..|drained| - 1]);
    }
  }
}
