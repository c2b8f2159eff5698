/**
  The fan-in both analysts share: every ticker is handed to a bounded worker
  pool, and the results of the tickers whose pipeline returned something are
  collected into a map keyed by ticker.

  The pipeline of one ticker is a function here (its network and language-model
  calls are parameters of the analyst), so the order in which workers finish
  cannot change the collected map, and a ticker listed twice yields the same
  entry twice.
*/
module FanIn {
  import opened Wrappers

  /** `min(workerCap, len(tickers))`, the number of workers requested. */
  function PoolSize(workerCap: nat, count: nat): (w: nat)
    ensures w <= workerCap && w <= count
    ensures w == workerCap || w == count
  {
    if workerCap <= count then workerCap else count
  }

  /** The executor refuses a pool of zero workers; the analyst catches that
      error and returns an empty map. Otherwise a ticker is in the result
      exactly when its pipeline returned something, and maps to that. */
  method Collect<R>(tickers: seq<string>, workerCap: nat, process: string -> Option<R>)
    returns (results: map<string, R>)
    ensures PoolSize(workerCap, |tickers|) == 0 ==> results == map[]
    ensures PoolSize(workerCap, |tickers|) > 0 ==>
      forall t :: t in results <==> t in tickers && process(t).Some?
    ensures forall t :: t in results ==> process(t).Some? && results[t] == process(t).value
  {
    results := map[];
    if PoolSize(workerCap, |tickers|) == 0 {
      return;
    }
    for i := 0 to |tickers|
      invariant forall t :: t in results <==> t in tickers[..i] && process(t).Some?
      invariant forall t :: t in results ==> process(t).Some? && results[t] == process(t).value
    {
      var outcome := process(tickers[i]);
      if outcome.Some? {
        results := results[tickers[i] := outcome.value];
      }
    }
    assert tickers[..|tickers|] == tickers;
  }

  /** With a positive cap, the tickers missing from the result are exactly
      those whose pipeline failed. */
  lemma FailedTickersOmitted<R>(tickers: seq<string>, process: string -> Option<R>,
                                results: map<string, R>)
    requires forall t :: t in results <==> t in tickers && process(t).Some?
    ensures forall t :: t in tickers && t !in results ==> process(t).None?
    ensures |results.Keys| <= |tickers|
  {
    var keys := set t | t in tickers;
    assert results.Keys <= keys;
    SetOfSeqBound(tickers);
    SubsetCardinality(results.Keys, keys);
  }

  /** A list has at least as many entries as it has distinct entries. */
  lemma {:induction false} SetOfSeqBound(s: seq<string>)
    ensures |set t | t in s| <= |s|
  {
    if s != [] {
      SetOfSeqBound(s[1..]);
      assert (set t | t in s) == (set t | t in s[1..]) + {s[0]};
    }
  }

  lemma SubsetCardinality<T>(a: set<T>, b: set<T>)
    requires a <= b
    ensures |a| <= |b|
  {
    assert b == a + (b - a);
  }
}
