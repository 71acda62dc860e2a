/**
 * The nightly aggregation script: select every (station, date) that has
 * observations before today and no summary row yet, in order of station
 * and date, and calculate and save each one on its own, counting the
 * successes. Connecting to the database and the selection query either
 * succeed or end the script with status 1 (`fatal`); each pair's
 * calculation and save may fail independently (`failing`, `saveFails`).
 */
module DailyAggregation {
  import opened Common
  import opened DateTimes
  import opened Observations
  import opened DailySummaries

  /** A (station_id, observation_date) pair. */
  type Pair = (string, Date)

  /** Character-by-character string order; a proper prefix comes first. */
  predicate StrLess(a: string, b: string) {
    if a == [] then b != []
    else if b == [] then false
    else a[0] < b[0] || (a[0] == b[0] && StrLess(a[1..], b[1..]))
  }

  lemma {:induction false} StrLessIrreflexive(a: string)
    ensures !StrLess(a, a)
  {
    if a != [] {
      StrLessIrreflexive(a[1..]);
    }
  }

  lemma {:induction false} StrLessTransitive(a: string, b: string, c: string)
    requires StrLess(a, b) && StrLess(b, c)
    ensures StrLess(a, c)
  {
    if a != [] && a[0] == b[0] && b[0] == c[0] {
      StrLessTransitive(a[1..], b[1..], c[1..]);
    }
  }

  lemma {:induction false} StrLessTotal(a: string, b: string)
    requires a != b
    ensures StrLess(a, b) || StrLess(b, a)
  {
    if a != [] && b != [] && a[0] == b[0] {
      assert a == [a[0]] + a[1..] && b == [b[0]] + b[1..];
      StrLessTotal(a[1..], b[1..]);
    }
  }

  /** ORDER BY station_id, observation_date */
  predicate PairLess(p: Pair, q: Pair) {
    StrLess(p.0, q.0) || (p.0 == q.0 && DateBefore(p.1, q.1))
  }

  /** PairLess is a strict total order. */
  lemma PairOrder(p: Pair, q: Pair, r: Pair)
    ensures !PairLess(p, p)
    ensures PairLess(p, q) && PairLess(q, r) ==> PairLess(p, r)
    ensures p == q || PairLess(p, q) || PairLess(q, p)
  {
    StrLessIrreflexive(p.0);
    if StrLess(p.0, q.0) && StrLess(q.0, r.0) {
      StrLessTransitive(p.0, q.0, r.0);
    }
    if p.0 != q.0 {
      StrLessTotal(p.0, q.0);
    }
  }

  predicate Sorted(ps: seq<Pair>) {
    forall i, j :: 0 <= i < j < |ps| ==> PairLess(ps[i], ps[j])
  }

  function Key(o: Observation): Pair {
    (o.station_id, o.time_utc.date)
  }

  /** The LEFT JOIN ... WHERE dws.observation_date IS NULL AND DATE(time_utc) < CURDATE() condition. */
  predicate Pending(o: Observation, summaries: map<SummaryKey, SummaryRow>, today: Date) {
    Key(o) !in summaries && DateBefore(o.time_utc.date, today)
  }

  /** SELECT DISTINCT station_id, DATE(time_utc), as a set. */
  function PendingSet(obs: seq<Observation>, summaries: map<SummaryKey, SummaryRow>, today: Date): set<Pair> {
    set o | o in obs && Pending(o, summaries, today) :: Key(o)
  }

  /** Adds a pair to a sorted list of distinct pairs. */
  function Insert(ps: seq<Pair>, p: Pair): (r: seq<Pair>)
    requires Sorted(ps)
    ensures Sorted(r)
    ensures forall q :: q in r <==> q in ps || q == p
  {
    if ps == [] then [p]
    else if p == ps[0] then ps
    else if PairLess(p, ps[0]) then
      InsertFront(ps, p);
      [p] + ps
    else
      var rest := Insert(ps[1..], p);
      InsertAfter(ps, p, rest);
      [ps[0]] + rest
  }

  lemma InsertFront(ps: seq<Pair>, p: Pair)
    requires Sorted(ps) && ps != [] && PairLess(p, ps[0])
    ensures Sorted([p] + ps)
  {
    forall j | 0 < j < |ps|
      ensures PairLess(p, ps[j])
    {
      PairOrder(p, ps[0], ps[j]);
    }
  }

  lemma InsertAfter(ps: seq<Pair>, p: Pair, rest: seq<Pair>)
    requires Sorted(ps) && ps != [] && p != ps[0] && !PairLess(p, ps[0])
    requires Sorted(rest) && forall q :: q in rest <==> q in ps[1..] || q == p
    ensures Sorted([ps[0]] + rest)
  {
    PairOrder(ps[0], p, p);
    forall j | 0 <= j < |rest|
      ensures PairLess(ps[0], rest[j])
    {
      assert rest[j] in rest;
      if rest[j] != p {
        var k :| 1 <= k < |ps| && ps[k] == rest[j];
      }
    }
  }

  /** The pending pairs as the selection query returns them: sorted, without duplicates. */
  function PendingDates(obs: seq<Observation>, summaries: map<SummaryKey, SummaryRow>, today: Date): (r: seq<Pair>)
    ensures Sorted(r)
  {
    if obs == [] then []
    else
      var rest := PendingDates(obs[1..], summaries, today);
      if Pending(obs[0], summaries, today) then Insert(rest, Key(obs[0])) else rest
  }

  /** The list holds exactly the pending pairs. */
  lemma {:induction false} PendingDatesAreThePendingSet(obs: seq<Observation>, summaries: map<SummaryKey, SummaryRow>, today: Date)
    ensures forall p :: p in PendingDates(obs, summaries, today) <==> p in PendingSet(obs, summaries, today)
  {
    if obs != [] {
      PendingDatesAreThePendingSet(obs[1..], summaries, today);
      assert forall o :: o in obs <==> o == obs[0] || o in obs[1..];
    }
  }

  /** A sorted list has no duplicates. */
  lemma SortedDistinct(ps: seq<Pair>)
    requires Sorted(ps)
    ensures forall i, j :: 0 <= i < j < |ps| ==> ps[i] != ps[j]
  {
    forall i, j | 0 <= i < j < |ps|
      ensures ps[i] != ps[j]
    {
      PairOrder(ps[i], ps[i], ps[i]);
    }
  }

  /** Whether both calculateDailySummary and saveDailySummary succeed for a pair. */
  predicate Succeeds(p: Pair, failing: Pair -> set<Query>, saveFails: Pair -> bool) {
    BasicStats !in failing(p) && !saveFails(p)
  }

  /** The number of pairs of ps that succeed. */
  function CountSucceeded(ps: seq<Pair>, failing: Pair -> set<Query>, saveFails: Pair -> bool): (n: nat)
    ensures n <= |ps|
  {
    if ps == [] then 0
    else CountSucceeded(ps[..|ps| - 1], failing, saveFails) + (if Succeeds(ps[|ps| - 1], failing, saveFails) then 1 else 0)
  }

  /** The summary table after processing ps in order. */
  function SaveAll(table: map<SummaryKey, SummaryRow>, ps: seq<Pair>, obs: seq<Observation>,
                   failing: Pair -> set<Query>, saveFails: Pair -> bool, now: Timestamp): map<SummaryKey, SummaryRow>
  {
    if ps == [] then table
    else
      var before := SaveAll(table, ps[..|ps| - 1], obs, failing, saveFails, now);
      var p := ps[|ps| - 1];
      if Succeeds(p, failing, saveFails) then Upsert(before, p, SummaryOf(obs, p.0, p.1, failing(p)).value, now)
      else before
  }

  /** Keys that are not a succeeding pair of the list are left as they were. */
  lemma {:induction false} SaveAllKeepsOthers(table: map<SummaryKey, SummaryRow>, ps: seq<Pair>, obs: seq<Observation>,
                                              failing: Pair -> set<Query>, saveFails: Pair -> bool, now: Timestamp, k: SummaryKey)
    requires !(k in ps && Succeeds(k, failing, saveFails))
    ensures var r := SaveAll(table, ps, obs, failing, saveFails, now);
      (k in r <==> k in table) && (k in table ==> r[k] == table[k])
  {
    if ps != [] {
      var init := ps[..|ps| - 1];
      assert k in init ==> k in ps;
      SaveAllKeepsOthers(table, init, obs, failing, saveFails, now, k);
    }
  }

  /**
   * After processing distinct pairs, each pair that succeeded holds its
   * summary, saved now, and created now when it was not there before.
   */
  lemma {:induction false} SaveAllEffect(table: map<SummaryKey, SummaryRow>, ps: seq<Pair>, obs: seq<Observation>,
                                         failing: Pair -> set<Query>, saveFails: Pair -> bool, now: Timestamp, p: Pair)
    requires forall i, j :: 0 <= i < j < |ps| ==> ps[i] != ps[j]
    requires p in ps && Succeeds(p, failing, saveFails)
    ensures var r := SaveAll(table, ps, obs, failing, saveFails, now);
      p in r && r[p].summary == SummaryOf(obs, p.0, p.1, failing(p)).value && r[p].updated_at == now
      && (p !in table ==> r[p].created_at == now)
  {
    var init := ps[..|ps| - 1];
    var last := ps[|ps| - 1];
    assert p in init || p == last;
    if p == last {
      assert p !in init by {
        forall i | 0 <= i < |init|
          ensures init[i] != p
        {
          assert init[i] == ps[i];
        }
      }
      SaveAllKeepsOthers(table, init, obs, failing, saveFails, now, p);
    } else {
      var i :| 0 <= i < |init| && init[i] == p;
      assert ps[i] == p;
      assert forall a, b :: 0 <= a < b < |init| ==> init[a] != init[b] by {
        forall a, b | 0 <= a < b < |init|
          ensures init[a] != init[b]
        {
          assert init[a] == ps[a] && init[b] == ps[b];
        }
      }
      SaveAllEffect(table, init, obs, failing, saveFails, now, p);
    }
  }

  /** The loop over the pending pairs: calculate, save, and count each success. */
  method ProcessPending(pendingDates: seq<Pair>, obs: seq<Observation>, table: SummaryTable, now: Timestamp,
                        failing: Pair -> set<Query>, saveFails: Pair -> bool)
    returns (processedDates: nat)
    modifies table
    ensures processedDates == CountSucceeded(pendingDates, failing, saveFails)
    ensures table.rows == SaveAll(old(table.rows), pendingDates, obs, failing, saveFails, now)
  {
    processedDates := 0;
    var i := 0;
    while i < |pendingDates|
      invariant 0 <= i <= |pendingDates|
      invariant processedDates == CountSucceeded(pendingDates[..i], failing, saveFails)
      invariant table.rows == SaveAll(old(table.rows), pendingDates[..i], obs, failing, saveFails, now)
    {
      var item := pendingDates[i];
      assert pendingDates[..i + 1][..i] == pendingDates[..i];
      var summary := CalculateDailySummary(obs, item.0, item.1, failing(item));
      if summary.Ok? {
        var saved := table.SaveDailySummary(item.0, item.1, summary.value, now, saveFails(item));
        if saved.Ok? {
          processedDates := processedDates + 1;
        }
      }
      i := i + 1;
    }
    assert pendingDates[..i] == pendingDates;
  }

  /**
   * The script's main block: exit 1 on a fatal error, exit 0 at once when
   * nothing is pending, else calculate and save each pending pair in
   * order, a failure on one pair not stopping the others.
   */
  method RunDailyAggregation(obs: seq<Observation>, table: SummaryTable, now: Timestamp, fatal: bool,
                             failing: Pair -> set<Query>, saveFails: Pair -> bool)
    returns (exitCode: int, processedDates: nat)
    modifies table
    ensures fatal ==> exitCode == 1 && processedDates == 0 && table.rows == old(table.rows)
    ensures !fatal ==> exitCode == 0
    ensures !fatal ==>
      var pending := PendingDates(obs, old(table.rows), now.date);
      processedDates == CountSucceeded(pending, failing, saveFails)
      && table.rows == SaveAll(old(table.rows), pending, obs, failing, saveFails, now)
  {
    processedDates := 0;
    if fatal {
      return 1, 0;
    }
    var pendingDates := PendingDates(obs, table.rows, now.date);
    if pendingDates == [] {
      return 0, 0;
    }
    processedDates := ProcessPending(pendingDates, obs, table, now, failing, saveFails);
    exitCode := 0;
  }
}
