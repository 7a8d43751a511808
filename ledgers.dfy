/** The two append-only ledgers: food waste by date and weight, and
    eco points earned per action. Totals are sums over the rows; the
    session variant also reports how the waste changed between the
    earliest and the latest record. */
module Ledgers {
  import opened Wrappers
  import opened Tables

  /** One waste record: the day it was thrown away and its weight in grams. */
  datatype WasteEvent = WasteEvent(date: int, grams: int)

  /** One points record: what was done and the points it earned. The
      timestamp the database adds is not part of the model. */
  datatype PointsEvent = PointsEvent(description: string, points: int)

  /** The total weight of a waste log; an empty log weighs 0 grams. */
  function WasteTotal(log: seq<WasteEvent>): (r: int)
    ensures (forall k :: 0 <= k < |log| ==> 0 <= log[k].grams) ==> 0 <= r
    ensures (forall k :: 0 <= k < |log| ==> log[k].grams == 0) <==> (forall k :: 0 <= k < |log| ==> 0 <= log[k].grams) && r == 0
  {
    if log == [] then 0 else log[0].grams + WasteTotal(log[1..])
  }

  /** Appending one record adds its weight to the total. */
  lemma {:induction false} WasteTotalAppend(log: seq<WasteEvent>, e: WasteEvent)
    ensures WasteTotal(log + [e]) == WasteTotal(log) + e.grams
  {
    if log != [] {
      assert (log + [e])[1..] == log[1..] + [e];
      WasteTotalAppend(log[1..], e);
    }
  }

  /** The points total of a ledger; an empty ledger totals 0. */
  function PointsTotal(ledger: seq<PointsEvent>): (r: int)
    ensures ledger == [] ==> r == 0
    ensures (forall k :: 0 <= k < |ledger| ==> 0 <= ledger[k].points) ==> 0 <= r
    ensures (forall k :: 0 <= k < |ledger| ==> 0 <= ledger[k].points) ==>
      (r == 0 <==> forall k :: 0 <= k < |ledger| ==> ledger[k].points == 0)
  {
    if ledger == [] then 0 else ledger[0].points + PointsTotal(ledger[1..])
  }

  /** Appending one record adds its points to the total. */
  lemma {:induction false} PointsTotalAppend(ledger: seq<PointsEvent>, e: PointsEvent)
    ensures PointsTotal(ledger + [e]) == PointsTotal(ledger) + e.points
  {
    if ledger != [] {
      assert (ledger + [e])[1..] == ledger[1..] + [e];
      PointsTotalAppend(ledger[1..], e);
    }
  }

  /** How the waste changed from the earliest to the latest record,
      with the size of the change in grams. */
  datatype Trend = Decreased(grams: int) | Unchanged | Increased(grams: int)

  /** The message chosen for `diff = first - last`: positive is a
      reduction, zero no change, negative an increase by `abs(diff)`. */
  function Classify(diff: int): (t: Trend)
    ensures t.Decreased? <==> 0 < diff
    ensures t.Unchanged? <==> diff == 0
    ensures t.Increased? <==> diff < 0
    ensures t.Decreased? ==> t.grams == diff
    ensures t.Increased? ==> t.grams == -diff && 0 < t.grams
  {
    if diff > 0 then Decreased(diff)
    else if diff == 0 then Unchanged
    else Increased(-diff)
  }

  function ByDate(e: WasteEvent): int
  {
    e.date
  }

  /** The waste log in date order, as `sort_values("날짜")` gives it. */
  function Chronological(log: seq<WasteEvent>): (r: seq<WasteEvent>)
    ensures multiset(r) == multiset(log)
    ensures forall i, j :: 0 <= i < j < |r| ==> r[i].date <= r[j].date
  {
    SortBy(log, ByDate)
  }

  /** `e` is a record of `log` dated no later than any other. */
  ghost predicate EarliestIn(e: WasteEvent, log: seq<WasteEvent>)
  {
    e in log && forall k :: 0 <= k < |log| ==> e.date <= log[k].date
  }

  /** `e` is a record of `log` dated no earlier than any other. */
  ghost predicate LatestIn(e: WasteEvent, log: seq<WasteEvent>)
  {
    e in log && forall k :: 0 <= k < |log| ==> log[k].date <= e.date
  }

  /** The date-ordered log starts with an earliest record and ends with a latest one. */
  lemma ChronologicalEnds(log: seq<WasteEvent>)
    requires log != []
    ensures EarliestIn(Chronological(log)[0], log)
    ensures LatestIn(Chronological(log)[|log| - 1], log)
  {
    var sorted := Chronological(log);
    assert sorted[0] in multiset(log) && sorted[|log| - 1] in multiset(log);
    forall k | 0 <= k < |log|
      ensures sorted[0].date <= log[k].date <= sorted[|log| - 1].date
    {
      assert log[k] in multiset(sorted);
    }
  }

  /** A value occurring at least twice sits at two different positions. */
  lemma TwoPositions<T>(s: seq<T>, x: T)
    requires multiset(s)[x] >= 2
    ensures exists i, j :: 0 <= i < j < |s| && s[i] == x && s[j] == x
  {
    assert x in multiset(s);
    var i :| 0 <= i < |s| && s[i] == x;
    assert s == s[..i] + [s[i]] + s[i + 1..];
    assert multiset(s[..i] + s[i + 1..])[x] >= 1;
    assert x in multiset(s[..i]) || x in multiset(s[i + 1..]);
    if x in s[..i] {
      var j :| 0 <= j < i && s[..i][j] == x;
      assert s[j] == x;
    } else {
      var j :| 0 <= j < |s| - i - 1 && s[i + 1..][j] == x;
      assert s[i + 1 + j] == x;
    }
  }

  /** The first and the last record of a reordering of `log` with at least
      two records are two different records of `log`, even when they are
      equal as values. */
  lemma {:induction false} EndsApart(log: seq<WasteEvent>, sorted: seq<WasteEvent>)
    requires 2 <= |log| && multiset(sorted) == multiset(log)
    ensures exists i, j :: 0 <= i < |log| && 0 <= j < |log| && i != j
                           && log[i] == sorted[0] && log[j] == sorted[|sorted| - 1]
  {
    var n := |sorted|;
    assert |sorted| == |multiset(sorted)| == |log|;
    assert sorted[0] in multiset(log);
    var i :| 0 <= i < |log| && log[i] == sorted[0];
    if sorted[0] != sorted[n - 1] {
      assert sorted[n - 1] in multiset(log);
      var j :| 0 <= j < |log| && log[j] == sorted[n - 1];
      assert i != j;
    } else {
      assert sorted == [sorted[0]] + sorted[1..];
      assert sorted[1..][n - 2] == sorted[0];
      assert sorted[0] in multiset(sorted[1..]);
      assert multiset(log)[sorted[0]] >= 2;
      TwoPositions(log, sorted[0]);
    }
  }

  /** First-minus-last weight of the date-ordered log, only when it has at
      least two records: the weight of an earliest record minus that of a
      latest one, two different records of the log. */
  function WasteDelta(log: seq<WasteEvent>): (r: Option<int>)
    ensures r.Some? <==> 2 <= |log|
    ensures r.Some? ==> exists i, j :: 0 <= i < |log| && 0 <= j < |log| && i != j
                                       && EarliestIn(log[i], log) && LatestIn(log[j], log)
                                       && r.value == log[i].grams - log[j].grams
  {
    if |log| < 2 then None
    else
      var sorted := Chronological(log);
      ChronologicalEnds(log);
      EndsApart(log, sorted);
      Some(sorted[0].grams - sorted[|sorted| - 1].grams)
  }

  /** The trend message of the waste page: none below two records. */
  function WasteTrend(log: seq<WasteEvent>): (r: Option<Trend>)
    ensures r.Some? <==> 2 <= |log|
    ensures r.Some? ==> r.value == Classify(WasteDelta(log).value)
  {
    match WasteDelta(log)
    case None => None
    case Some(diff) => Some(Classify(diff))
  }
}
