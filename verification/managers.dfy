/**
  The metric accumulator: a dictionary from metric name to the list of values
  appended since the last report. A report gives the mean of every list and
  empties the lists, keeping the names.
*/
module Managers {

  /** Sum of a list of values. */
  function Sum(s: seq<real>): real
    decreases |s|
  {
    if |s| == 0 then 0.0 else Sum(s[..|s| - 1]) + s[|s| - 1]
  }

  /** Mean of a list, 0 for the empty list (the rounding to four decimals is not modelled). */
  function Mean(s: seq<real>): real
  {
    if |s| == 0 then 0.0 else Sum(s) / |s| as real
  }

  /** A sum of n values that all lie in [lo, hi] lies in [n * lo, n * hi]. */
  lemma {:induction false} SumBounds(s: seq<real>, lo: real, hi: real)
    requires forall i :: 0 <= i < |s| ==> lo <= s[i] <= hi
    ensures |s| as real * lo <= Sum(s) <= |s| as real * hi
    decreases |s|
  {
    if |s| > 0 {
      SumBounds(s[..|s| - 1], lo, hi);
      var n := (|s| - 1) as real;
      assert |s| as real * lo == n * lo + lo;
      assert |s| as real * hi == n * hi + hi;
    }
  }

  /** The mean of a non-empty list lies between any bounds of its values. */
  lemma MeanBounds(s: seq<real>, lo: real, hi: real)
    requires |s| > 0
    requires forall i :: 0 <= i < |s| ==> lo <= s[i] <= hi
    ensures lo <= Mean(s) <= hi
  {
    SumBounds(s, lo, hi);
    var n := |s| as real;
    var m := Sum(s) / n;
    assert Sum(s) == m * n;
    if hi < m {
      assert hi * n < m * n;
      assert n * hi < Sum(s);
      assert false;
    }
  }

  /** The list held for a key, the empty list for an unseen key. */
  function ListOf(m: map<string, seq<real>>, k: string): seq<real>
  {
    if k in m then m[k] else []
  }

  /**
    The dictionary after append(result): every key of result gets its value
    at the end of its list (a fresh list for an unseen key); the other keys
    keep their lists.
  */
  function Appended(m: map<string, seq<real>>, result: map<string, real>): (r: map<string, seq<real>>)
    ensures r.Keys == m.Keys + result.Keys
    ensures forall k :: k in result ==> r[k] == ListOf(m, k) + [result[k]]
    ensures forall k :: k in m && k !in result ==> r[k] == m[k]
  {
    map k | k in m.Keys + result.Keys :: if k in result then ListOf(m, k) + [result[k]] else m[k]
  }

  /** The dictionary with every list emptied and every key kept. */
  function Cleared(m: map<string, seq<real>>): map<string, seq<real>>
  {
    map k | k in m :: []
  }

  /** The dictionary after append is called with each result in turn. */
  function AppendAll(m: map<string, seq<real>>, results: seq<map<string, real>>): map<string, seq<real>>
    decreases |results|
  {
    if |results| == 0 then m
    else Appended(AppendAll(m, results[..|results| - 1]), results[|results| - 1])
  }

  /** The values reported for key k by a sequence of results, in order. */
  function Collected(results: seq<map<string, real>>, k: string): seq<real>
    decreases |results|
  {
    if |results| == 0 then []
    else
      var last := results[|results| - 1];
      Collected(results[..|results| - 1], k) + (if k in last then [last[k]] else [])
  }

  /**
    After a sequence of appends, a key is present iff it was present before or
    some result reported it, and its list is the old list followed by every
    value reported for it, in order.
  */
  lemma {:induction false} AppendAllCollects(m: map<string, seq<real>>, results: seq<map<string, real>>, k: string)
    ensures k in AppendAll(m, results) <==> k in m || exists j :: 0 <= j < |results| && k in results[j]
    ensures ListOf(AppendAll(m, results), k) == ListOf(m, k) + Collected(results, k)
    decreases |results|
  {
    if |results| > 0 {
      var init := results[..|results| - 1];
      var last := results[|results| - 1];
      AppendAllCollects(m, init, k);
      if k in last {
        assert k in results[|results| - 1];
      }
      if exists j :: 0 <= j < |results| && k in results[j] {
        var j :| 0 <= j < |results| && k in results[j];
        if j < |results| - 1 {
          assert k in init[j];
        }
      }
      if exists j :: 0 <= j < |init| && k in init[j] {
        var j :| 0 <= j < |init| && k in init[j];
        assert k in results[j];
      }
    }
  }

  /**
    Round trip: once a report has emptied the lists, the next report gives,
    for every key, the mean of exactly the values appended in between.
  */
  lemma ReportAveragesAppendedValues(m: map<string, seq<real>>, results: seq<map<string, real>>, k: string)
    requires k in AppendAll(Cleared(m), results)
    ensures AppendAll(Cleared(m), results)[k] == Collected(results, k)
    ensures Mean(AppendAll(Cleared(m), results)[k]) == Mean(Collected(results, k))
  {
    AppendAllCollects(Cleared(m), results, k);
    assert ListOf(Cleared(m), k) == [];
  }

  class MetricManager {
    var metrics: map<string, seq<real>>

    constructor ()
      ensures metrics == map[]
    {
      metrics := map[];
    }

    /** append(result): push each value of result onto its key's list. */
    method Append(result: map<string, real>)
      modifies this
      ensures metrics == Appended(old(metrics), result)
    {
      var keys := result.Keys;
      while keys != {}
        invariant keys <= result.Keys
        invariant metrics.Keys == old(metrics).Keys + (result.Keys - keys)
        invariant forall k :: k in result && k !in keys ==> metrics[k] == ListOf(old(metrics), k) + [result[k]]
        invariant forall k :: k in metrics && (k !in result || k in keys) ==> metrics[k] == old(metrics)[k]
        decreases keys
      {
        var key :| key in keys;
        if key !in metrics {
          metrics := metrics[key := []];
        }
        metrics := metrics[key := metrics[key] + [result[key]]];
        keys := keys - {key};
      }
      assert metrics == Appended(old(metrics), result);
    }

    /**
      get_statistics(mode = 'mean'): for 'mean', the mean of every list, after which
      every list is empty; for any other mode an empty report and no change.
    */
    method GetStatistics(mode: string := "mean") returns (ret: map<string, real>)
      modifies this
      ensures mode == "mean" ==> ret.Keys == old(metrics).Keys
      ensures mode == "mean" ==> forall k :: k in ret ==> ret[k] == Mean(old(metrics)[k])
      ensures mode == "mean" ==> metrics == Cleared(old(metrics))
      ensures mode != "mean" ==> ret == map[] && metrics == old(metrics)
    {
      ret := map[];
      if mode == "mean" {
        var keys := metrics.Keys;
        while keys != {}
          invariant keys <= old(metrics).Keys
          invariant metrics.Keys == old(metrics).Keys
          invariant forall k :: k in keys ==> metrics[k] == old(metrics)[k]
          invariant forall k :: k in metrics && k !in keys ==> metrics[k] == []
          invariant ret.Keys == old(metrics).Keys - keys
          invariant forall k :: k in ret ==> ret[k] == Mean(old(metrics)[k])
          decreases keys
        {
          var key :| key in keys;
          var value := metrics[key];
          ret := ret[key := if |value| == 0 then 0.0 else Sum(value) / |value| as real];
          metrics := metrics[key := []];
          keys := keys - {key};
        }
        assert metrics == Cleared(old(metrics));
      }
    }
  }
}
