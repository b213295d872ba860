/**
 * End-of-run statistics: the engine reports, per metric, a `host -> count`
 * dict; the callback folds it into a per-metric summary and a per-host table
 * whose rows hold every metric, zero where the host was not reported.
 */
module Stats {

  /** The metric names, in the order the callback walks them. */
  const AllMetrics: seq<string> :=
    ["changed", "custom", "dark", "failures", "ignored", "ok", "processed", "rescued", "skipped"]

  /** One metric's `host -> count` dict, as its items in iteration order. */
  type Counts = seq<(string, int)>

  /** The stats object's attributes: metric name to that metric's counts. */
  type StatsTable = map<string, Counts>

  /** The stats object carries every metric the callback reads. */
  predicate HasAllMetrics(stats: StatsTable)
  {
    forall m :: m in AllMetrics ==> m in stats
  }

  /** The metric names are pairwise different. */
  lemma AllMetricsDistinct()
    ensures forall a, b :: 0 <= a < b < |AllMetrics| ==> AllMetrics[a] != AllMetrics[b]
  {
  }

  /** The counts name a host. */
  predicate Seen(counts: Counts, h: string)
  {
    exists j :: 0 <= j < |counts| && counts[j].0 == h
  }

  /** A real dict: no host twice. */
  predicate DistinctHosts(counts: Counts)
  {
    forall a, b :: 0 <= a < b < |counts| ==> counts[a].0 != counts[b].0
  }

  predicate Distinct(hs: seq<string>)
  {
    forall a, b :: 0 <= a < b < |hs| ==> hs[a] != hs[b]
  }

  /** The total of all counts. */
  function Sum(counts: Counts): int
  {
    if |counts| == 0 then 0 else Sum(counts[..|counts| - 1]) + counts[|counts| - 1].1
  }

  /** The count a host ends up with: its last entry, or 0 when it has none. */
  function Lookup(counts: Counts, h: string): int
  {
    if |counts| == 0 then 0
    else if counts[|counts| - 1].0 == h then counts[|counts| - 1].1
    else Lookup(counts[..|counts| - 1], h)
  }

  /** Dict insertion: a host not yet present goes to the end. */
  function AddHost(hs: seq<string>, h: string): seq<string>
  {
    if h in hs then hs else hs + [h]
  }

  /** The hosts after inserting, in order, every host the counts name. */
  function HostsAfter(hs: seq<string>, counts: Counts): seq<string>
  {
    if |counts| == 0 then hs
    else AddHost(HostsAfter(hs, counts[..|counts| - 1]), counts[|counts| - 1].0)
  }

  /** The host order after walking the first `n` metrics. */
  function HostsUpTo(stats: StatsTable, n: nat): seq<string>
    requires HasAllMetrics(stats) && n <= |AllMetrics|
  {
    if n == 0 then [] else HostsAfter(HostsUpTo(stats, n - 1), stats[AllMetrics[n - 1]])
  }

  /** Hosts in order of first appearance, metric by metric. */
  function HostOrder(stats: StatsTable): seq<string>
    requires HasAllMetrics(stats)
  {
    HostsUpTo(stats, |AllMetrics|)
  }

  /** Per metric, the sum over all its hosts. */
  function Summary(stats: StatsTable): map<string, int>
    requires HasAllMetrics(stats)
  {
    map m | m in AllMetrics :: Sum(stats[m])
  }

  /** A host's row: every metric, with the host's count or 0. */
  function HostRow(stats: StatsTable, h: string): map<string, int>
    requires HasAllMetrics(stats)
  {
    map m | m in AllMetrics :: Lookup(stats[m], h)
  }

  /** The per-host table: a row for every host that appears under any metric. */
  function HostTable(stats: StatsTable): map<string, map<string, int>>
    requires HasAllMetrics(stats)
  {
    map h | h in HostOrder(stats) :: HostRow(stats, h)
  }

  /** A row while metric `i` is being walked, its counts read up to `cur`. */
  function PartialRow(stats: StatsTable, i: nat, cur: Counts, h: string): map<string, int>
    requires HasAllMetrics(stats) && i <= |AllMetrics|
  {
    map m | m in AllMetrics ::
      if m in AllMetrics[..i] then Lookup(stats[m], h)
      else if i < |AllMetrics| && m == AllMetrics[i] then Lookup(cur, h)
      else 0
  }

  lemma {:induction false} HostsAfterMembers(hs: seq<string>, counts: Counts, h: string)
    ensures h in HostsAfter(hs, counts) <==> h in hs || Seen(counts, h)
  {
    if |counts| > 0 {
      var n := |counts| - 1;
      HostsAfterMembers(hs, counts[..n], h);
      if Seen(counts, h) && counts[n].0 != h {
        var j :| 0 <= j < |counts| && counts[j].0 == h;
        assert counts[..n][j].0 == h;
      }
      if Seen(counts[..n], h) {
        var j :| 0 <= j < n && counts[..n][j].0 == h;
        assert counts[j].0 == h;
      }
    }
  }

  lemma {:induction false} HostsAfterDistinct(hs: seq<string>, counts: Counts)
    requires Distinct(hs)
    ensures Distinct(HostsAfter(hs, counts))
  {
    if |counts| > 0 {
      HostsAfterDistinct(hs, counts[..|counts| - 1]);
    }
  }

  lemma {:induction false} HostsAfterPrefix(hs: seq<string>, counts: Counts)
    ensures |hs| <= |HostsAfter(hs, counts)| && HostsAfter(hs, counts)[..|hs|] == hs
  {
    if |counts| > 0 {
      HostsAfterPrefix(hs, counts[..|counts| - 1]);
    }
  }

  lemma {:induction false} HostsUpToMembers(stats: StatsTable, n: nat, h: string)
    requires HasAllMetrics(stats) && n <= |AllMetrics|
    ensures h in HostsUpTo(stats, n) <==>
              exists k :: 0 <= k < n && Seen(stats[AllMetrics[k]], h)
  {
    if n > 0 {
      HostsUpToMembers(stats, n - 1, h);
      HostsAfterMembers(HostsUpTo(stats, n - 1), stats[AllMetrics[n - 1]], h);
    }
  }

  lemma {:induction false} LookupUnseen(counts: Counts, h: string)
    requires !Seen(counts, h)
    ensures Lookup(counts, h) == 0
  {
    if |counts| > 0 {
      var n := |counts| - 1;
      assert forall j :: 0 <= j < n ==> counts[..n][j] == counts[j];
      LookupUnseen(counts[..n], h);
    }
  }

  /** A fresh row: every metric at zero. */
  method ZeroRow() returns (row: map<string, int>)
    ensures forall m :: m in row <==> m in AllMetrics
    ensures forall m :: m in row ==> row[m] == 0
  {
    row := map[];
    var k := 0;
    while k < |AllMetrics|
      invariant 0 <= k <= |AllMetrics|
      invariant forall m :: m in row <==> m in AllMetrics[..k]
      invariant forall m :: m in row ==> row[m] == 0
    {
      assert AllMetrics[..k + 1] == AllMetrics[..k] + [AllMetrics[k]];
      row := row[AllMetrics[k] := 0];
      k := k + 1;
    }
    assert AllMetrics[..k] == AllMetrics;
  }

  /** Row bookkeeping of the host table: its keys are the hosts, each row partial up to `i`, `cur`. */
  ghost predicate TableInStep(stats: StatsTable, i: nat, cur: Counts,
                              hosts: seq<string>, rows: map<string, map<string, int>>)
    requires HasAllMetrics(stats) && i <= |AllMetrics|
  {
    && (forall h :: h in rows <==> h in hosts)
    && (forall h :: h in rows ==> rows[h] == PartialRow(stats, i, cur, h))
  }

  /**
   * The nested loops of the stats handler: walk the metrics in order, sum
   * each metric's counts and fill the host table. `hosts` is the insertion
   * order of the host table's dict.
   */
  method AggregateStats(stats: StatsTable)
    returns (summary: map<string, int>, hosts: seq<string>, rows: map<string, map<string, int>>)
    requires HasAllMetrics(stats)
    ensures summary == Summary(stats)
    ensures hosts == HostOrder(stats)
    ensures rows == HostTable(stats)
  {
    summary, hosts, rows := map[], [], map[];
    var i := 0;
    while i < |AllMetrics|
      invariant 0 <= i <= |AllMetrics|
      invariant summary == map m | m in AllMetrics[..i] :: Sum(stats[m])
      invariant hosts == HostsUpTo(stats, i)
      invariant TableInStep(stats, i, [], hosts, rows)
    {
      var value;
      value, hosts, rows := WalkMetric(stats, i, hosts, rows);
      SummaryStep(stats, i, summary);
      summary := summary[AllMetrics[i] := value];
      i := i + 1;
    }
    TableDone(stats, hosts, rows);
    assert AllMetrics[..i] == AllMetrics;
  }

  lemma SummaryStep(stats: StatsTable, i: nat, summary: map<string, int>)
    requires HasAllMetrics(stats) && i < |AllMetrics|
    requires summary == map m | m in AllMetrics[..i] :: Sum(stats[m])
    ensures summary[AllMetrics[i] := Sum(stats[AllMetrics[i]])]
            == map m | m in AllMetrics[..i + 1] :: Sum(stats[m])
  {
    assert AllMetrics[..i + 1] == AllMetrics[..i] + [AllMetrics[i]];
  }

  lemma TableDone(stats: StatsTable, hosts: seq<string>, rows: map<string, map<string, int>>)
    requires HasAllMetrics(stats)
    requires hosts == HostOrder(stats)
    requires TableInStep(stats, |AllMetrics|, [], hosts, rows)
    ensures rows == HostTable(stats)
  {
    assert AllMetrics[..|AllMetrics|] == AllMetrics;
    forall h | h in rows
      ensures rows[h] == HostRow(stats, h)
    {
      assert PartialRow(stats, |AllMetrics|, [], h) == HostRow(stats, h);
    }
  }

  /**
   * One pass of the outer loop: for each host of metric `i`, add its count
   * to the total, give the host a zero row the first time it shows up, then
   * record its count under the metric.
   */
  method WalkMetric(stats: StatsTable, i: nat, hosts0: seq<string>, rows0: map<string, map<string, int>>)
    returns (value: int, hosts: seq<string>, rows: map<string, map<string, int>>)
    requires HasAllMetrics(stats) && i < |AllMetrics|
    requires hosts0 == HostsUpTo(stats, i)
    requires TableInStep(stats, i, [], hosts0, rows0)
    ensures value == Sum(stats[AllMetrics[i]])
    ensures hosts == HostsUpTo(stats, i + 1)
    ensures TableInStep(stats, i + 1, [], hosts, rows)
  {
    var metric := AllMetrics[i];
    var counts := stats[metric];
    value, hosts, rows := 0, hosts0, rows0;
    var j := 0;
    while j < |counts|
      invariant 0 <= j <= |counts|
      invariant value == Sum(counts[..j])
      invariant hosts == HostsAfter(HostsUpTo(stats, i), counts[..j])
      invariant TableInStep(stats, i, counts[..j], hosts, rows)
    {
      var (host, hostValue) := counts[j];
      assert counts[..j + 1][..j] == counts[..j];
      value := value + hostValue;
      if host !in rows {
        ZeroRowFits(stats, i, counts[..j], host);
        var zero := ZeroRow();
        rows := rows[host := zero];
        hosts := hosts + [host];
      }
      rows := rows[host := rows[host][metric := hostValue]];
      PartialRowStep(stats, i, counts[..j + 1], rows, host);
      j := j + 1;
    }
    assert counts[..j] == counts;
    forall h | h in rows
      ensures rows[h] == PartialRow(stats, i + 1, [], h)
    {
      PartialRowNext(stats, i, h);
    }
  }

  /** A host not yet in the table has no count under the metrics walked so far. */
  lemma ZeroRowFits(stats: StatsTable, i: nat, cur: Counts, h: string)
    requires HasAllMetrics(stats) && i < |AllMetrics|
    requires h !in HostsAfter(HostsUpTo(stats, i), cur)
    ensures forall m :: m in PartialRow(stats, i, cur, h) ==> PartialRow(stats, i, cur, h)[m] == 0
  {
    HostsAfterMembers(HostsUpTo(stats, i), cur, h);
    HostsUpToMembers(stats, i, h);
    LookupUnseen(cur, h);
    forall k | 0 <= k < i
      ensures Lookup(stats[AllMetrics[k]], h) == 0
    {
      LookupUnseen(stats[AllMetrics[k]], h);
    }
  }

  /** Recording the newest count keeps every row in step with the counts read. */
  lemma PartialRowStep(stats: StatsTable, i: nat, cur: Counts, rows: map<string, map<string, int>>, host: string)
    requires HasAllMetrics(stats) && i < |AllMetrics| && |cur| > 0
    requires host == cur[|cur| - 1].0 && host in rows
    requires rows[host] == PartialRow(stats, i, cur[..|cur| - 1], host)[AllMetrics[i] := cur[|cur| - 1].1]
    requires forall h :: h in rows && h != host ==> rows[h] == PartialRow(stats, i, cur[..|cur| - 1], h)
    ensures forall h :: h in rows ==> rows[h] == PartialRow(stats, i, cur, h)
  {
    AllMetricsDistinct();
  }

  /** A row complete for metric `i` is a row that has walked `i + 1` metrics. */
  lemma PartialRowNext(stats: StatsTable, i: nat, h: string)
    requires HasAllMetrics(stats) && i < |AllMetrics|
    ensures PartialRow(stats, i, stats[AllMetrics[i]], h) == PartialRow(stats, i + 1, [], h)
  {
    assert AllMetrics[..i + 1] == AllMetrics[..i] + [AllMetrics[i]];
  }

  /** Exactly the hosts reported under some metric get a row. */
  lemma HostOrderMembers(stats: StatsTable, h: string)
    requires HasAllMetrics(stats)
    ensures h in HostOrder(stats) <==> exists m :: m in AllMetrics && Seen(stats[m], h)
  {
    HostsUpToMembers(stats, |AllMetrics|, h);
  }

  /** No host gets two rows. */
  lemma {:induction false} HostsUpToDistinct(stats: StatsTable, n: nat)
    requires HasAllMetrics(stats) && n <= |AllMetrics|
    ensures Distinct(HostsUpTo(stats, n))
  {
    if n > 0 {
      HostsUpToDistinct(stats, n - 1);
      HostsAfterDistinct(HostsUpTo(stats, n - 1), stats[AllMetrics[n - 1]]);
    }
  }

  /**
   * First-appearance order: the hosts met while walking the first `n`
   * metrics come first, in the order they were met.
   */
  lemma {:induction false} HostsUpToPrefix(stats: StatsTable, n: nat)
    requires HasAllMetrics(stats) && n <= |AllMetrics|
    ensures |HostsUpTo(stats, n)| <= |HostOrder(stats)|
    ensures HostOrder(stats)[..|HostsUpTo(stats, n)|] == HostsUpTo(stats, n)
    decreases |AllMetrics| - n
  {
    if n < |AllMetrics| {
      HostsAfterPrefix(HostsUpTo(stats, n), stats[AllMetrics[n]]);
      HostsUpToPrefix(stats, n + 1);
      var a, b := HostsUpTo(stats, n), HostsUpTo(stats, n + 1);
      assert HostOrder(stats)[..|a|] == HostOrder(stats)[..|b|][..|a|];
    }
  }

  /** The sum over `hs` of each host's count. */
  function SumLookups(hs: seq<string>, counts: Counts): int
  {
    if |hs| == 0 then 0 else SumLookups(hs[..|hs| - 1], counts) + Lookup(counts, hs[|hs| - 1])
  }

  lemma {:induction false} SumLookupsSnoc(hs: seq<string>, p: Counts, k: string, v: int)
    requires Distinct(hs) && !Seen(p, k)
    ensures SumLookups(hs, p + [(k, v)]) == SumLookups(hs, p) + (if k in hs then v else 0)
  {
    LookupUnseen(p, k);
    assert (p + [(k, v)])[..|p|] == p;
    if |hs| > 0 {
      var n := |hs| - 1;
      assert forall a, b :: 0 <= a < b < n ==> hs[..n][a] == hs[a] && hs[..n][b] == hs[b];
      SumLookupsSnoc(hs[..n], p, k, v);
      assert hs == hs[..n] + [hs[n]];
      assert k in hs <==> k in hs[..n] || k == hs[n];
      if k == hs[n] {
        assert forall a :: 0 <= a < n ==> hs[..n][a] != k;
      }
    }
  }

  /** Summing every host's count over a list that holds each host once gives the metric's total. */
  lemma {:induction false} SumLookupsIsSum(hs: seq<string>, counts: Counts)
    requires Distinct(hs) && DistinctHosts(counts)
    requires forall j :: 0 <= j < |counts| ==> counts[j].0 in hs
    ensures SumLookups(hs, counts) == Sum(counts)
  {
    if |counts| == 0 {
      SumLookupsEmpty(hs);
    } else {
      var n := |counts| - 1;
      var p := counts[..n];
      assert forall j :: 0 <= j < n ==> p[j] == counts[j];
      SumLookupsIsSum(hs, p);
      assert !Seen(p, counts[n].0);
      assert counts == p + [(counts[n].0, counts[n].1)];
      SumLookupsSnoc(hs, p, counts[n].0, counts[n].1);
    }
  }

  lemma {:induction false} SumLookupsEmpty(hs: seq<string>)
    ensures SumLookups(hs, []) == 0
  {
    if |hs| > 0 {
      SumLookupsEmpty(hs[..|hs| - 1]);
    }
  }

  /** The total of column `m` of a table over the hosts `hs`. */
  function ColumnTotal(table: map<string, map<string, int>>, hs: seq<string>, m: string): int
    requires forall h :: h in hs ==> h in table && m in table[h]
  {
    if |hs| == 0 then 0 else ColumnTotal(table, hs[..|hs| - 1], m) + table[hs[|hs| - 1]][m]
  }

  lemma {:induction false} ColumnTotalIsSumLookups(stats: StatsTable, hs: seq<string>, m: string)
    requires HasAllMetrics(stats) && m in AllMetrics
    requires forall h :: h in hs ==> h in HostOrder(stats)
    ensures ColumnTotal(HostTable(stats), hs, m) == SumLookups(hs, stats[m])
  {
    if |hs| > 0 {
      ColumnTotalIsSumLookups(stats, hs[..|hs| - 1], m);
    }
  }

  /**
   * Each metric's summary value is the total of that metric's column in the
   * host table, when the metric's counts form a dict (each host once).
   */
  lemma SummaryIsColumnTotal(stats: StatsTable, m: string)
    requires HasAllMetrics(stats) && m in AllMetrics && DistinctHosts(stats[m])
    ensures m in Summary(stats)
    ensures forall h :: h in HostOrder(stats) ==> h in HostTable(stats) && m in HostTable(stats)[h]
    ensures Summary(stats)[m] == ColumnTotal(HostTable(stats), HostOrder(stats), m)
  {
    var hs := HostOrder(stats);
    HostsUpToDistinct(stats, |AllMetrics|);
    forall j | 0 <= j < |stats[m]|
      ensures stats[m][j].0 in hs
    {
      assert Seen(stats[m], stats[m][j].0);
      HostOrderMembers(stats, stats[m][j].0);
    }
    SumLookupsIsSum(hs, stats[m]);
    ColumnTotalIsSumLookups(stats, hs, m);
  }
}
