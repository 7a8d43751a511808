/** The session-state variant: the ingredient table, the waste log and a
    points counter live in the browser session, seeded with sample values
    the first time a key is missing. Its pages register ingredients, show
    the four most urgent ones, filter recipes, report the waste trend and
    award points from three buttons. */
module SessionFridge {
  import opened Wrappers
  import opened Tables
  import opened Expiry
  import opened Ledgers
  import opened Categories
  import Text
  import Points

  /** An expiry cell: a calendar date (as a day number) or some other
      value. Every cell the page stores is a plain date, from the sample
      table or the date widget; a `datetime` cell, for which the
      subtraction would raise, never occurs and is not modelled. */
  datatype ExpiryCell = Date(day: int) | NotADate

  /** A row of the session's ingredient table. */
  datatype Row = Row(name: string, kind: string, qty: int, expiry: ExpiryCell)

  /** `calc_days_left`: days from `today` to a date cell, nothing for any other cell. */
  function CalcDaysLeft(cell: ExpiryCell, today: int): (r: Option<int>)
    ensures r.Some? <==> cell.Date?
    ensures r.Some? ==> today + r.value == cell.day
  {
    match cell
    case Date(day) => Some(DaysLeft(day, today))
    case NotADate => None
  }

  /** A row of the alert page with its days-left column. */
  datatype Alert = Alert(row: Row, daysLeft: Option<int>)

  function Annotate(rows: seq<Row>, today: int): (r: seq<Alert>)
    ensures |r| == |rows|
    ensures forall k :: 0 <= k < |r| ==> r[k].row == rows[k] && r[k].daysLeft == CalcDaysLeft(rows[k].expiry, today)
  {
    seq(|rows|, k requires 0 <= k < |rows| => Alert(rows[k], CalcDaysLeft(rows[k].expiry, today)))
  }

  predicate IsDated(a: Alert)
  {
    a.daysLeft.Some?
  }

  predicate IsUndated(a: Alert)
  {
    a.daysLeft.None?
  }

  function DaysOf(a: Alert): int
  {
    if a.daysLeft.Some? then a.daysLeft.value else 0
  }

  /** A dated block in ascending order followed by an undated block: every
      dated row is preceded only by dated rows with no more days left. */
  lemma DatedBlockFirst(sorted: seq<Alert>, undated: seq<Alert>)
    requires forall k :: 0 <= k < |sorted| ==> IsDated(sorted[k])
    requires forall k :: 0 <= k < |undated| ==> IsUndated(undated[k])
    requires SortedBy(sorted, DaysOf)
    ensures forall i, j :: 0 <= i < j < |sorted + undated| && (sorted + undated)[j].daysLeft.Some? ==>
      (sorted + undated)[i].daysLeft.Some? && (sorted + undated)[i].daysLeft.value <= (sorted + undated)[j].daysLeft.value
  {
  }

  /** `sort_values("남은 일수")`: the rows with days left in ascending
      order, then the rows without (pandas places missing values last). */
  function AlertList(rows: seq<Row>, today: int): (r: seq<Alert>)
    ensures |r| == |rows|
    ensures multiset(r) == multiset(Annotate(rows, today))
    ensures forall i, j :: 0 <= i < j < |r| && r[j].daysLeft.Some? ==>
      r[i].daysLeft.Some? && r[i].daysLeft.value <= r[j].daysLeft.value
  {
    var all := Annotate(rows, today);
    var dated := Filter(all, IsDated);
    var undated := Filter(all, IsUndated);
    FilterSplit(all, IsDated, IsUndated);
    var sorted := SortBy(dated, DaysOf);
    forall k | 0 <= k < |sorted| ensures IsDated(sorted[k]) {
      assert sorted[k] in multiset(dated);
    }
    DatedBlockFirst(sorted, undated);
    assert |sorted + undated| == |multiset(sorted + undated)|;
    sorted + undated
  }

  /** The metric cards: the first four rows of the sorted list, none with
      more days left than a dated row not shown. */
  function Metrics(rows: seq<Row>, today: int): (r: seq<Alert>)
    ensures |r| == Min(4, |rows|)
    ensures forall k :: 0 <= k < |r| ==> r[k] == AlertList(rows, today)[k]
    ensures forall i, j :: 0 <= i < |r| <= j < |rows| && AlertList(rows, today)[j].daysLeft.Some? ==>
      r[i].daysLeft.Some? && r[i].daysLeft.value <= AlertList(rows, today)[j].daysLeft.value
  {
    Head(AlertList(rows, today), 4)
  }

  /** The sample ingredients a new session starts with. */
  function SeedIngredients(today: int): seq<Row>
  {
    [ Row("계란", "단백질", 10, Date(today + 5)),
      Row("우유", "유제품", 1, Date(today + 3)),
      Row("상추", "채소", 3, Date(today + 1)),
      Row("치킨", "배달음식", 2, Date(today + 2)) ]
  }

  /** The sample waste log a new session starts with: weekly records
      ending today, shrinking from 800 g to 420 g. */
  function SeedWaste(today: int): seq<WasteEvent>
  {
    [ WasteEvent(today - 21, 800),
      WasteEvent(today - 14, 650),
      WasteEvent(today - 7, 500),
      WasteEvent(today, 420) ]
  }

  const StartPoints: int := 40

  /** The sample log reports a reduction of 380 g. */
  lemma SeededWasteTrend(today: int)
    ensures WasteDelta(SeedWaste(today)) == Some(380)
    ensures WasteTrend(SeedWaste(today)) == Some(Decreased(380))
  {
  }

  /** The three point buttons. */
  datatype Action = UseExpiring | ReuseDelivery | ReduceWaste

  function Reward(a: Action): (r: int)
    ensures 0 < r
  {
    match a
    case UseExpiring => 30
    case ReuseDelivery => 20
    case ReduceWaste => 40
  }

  /** The session keys; `None` is a key not yet set. */
  class Session {
    var ingredients: Option<seq<Row>>
    var wasteLog: Option<seq<WasteEvent>>
    var point: Option<int>

    /** Every row present has a positive quantity, every waste weight
        present is non-negative, and the counter is non-negative. */
    ghost predicate Valid()
      reads this
    {
      && (ingredients.Some? ==> forall k :: 0 <= k < |ingredients.value| ==> 1 <= ingredients.value[k].qty)
      && (wasteLog.Some? ==> forall k :: 0 <= k < |wasteLog.value| ==> 0 <= wasteLog.value[k].grams)
      && (point.Some? ==> 0 <= point.value)
    }

    predicate Seeded()
      reads this
    {
      ingredients.Some? && wasteLog.Some? && point.Some?
    }

    /** A new session: no key is set. */
    constructor ()
      ensures Valid() && ingredients == None && wasteLog == None && point == None
    {
      ingredients, wasteLog, point := None, None, None;
    }

    /** The start of every run of the page: each missing key gets its
        sample value, a key already set keeps its value. */
    method EnsureDefaults(today: int)
      requires Valid()
      modifies this
      ensures Valid() && Seeded()
      ensures ingredients == if old(ingredients).None? then Some(SeedIngredients(today)) else old(ingredients)
      ensures wasteLog == if old(wasteLog).None? then Some(SeedWaste(today)) else old(wasteLog)
      ensures point == if old(point).None? then Some(StartPoints) else old(point)
    {
      if ingredients.None? {
        ingredients := Some(SeedIngredients(today));
      }
      if wasteLog.None? {
        wasteLog := Some(SeedWaste(today));
      }
      if point.None? {
        point := Some(StartPoints);
      }
    }

    /** The register button: a name that is blank after `strip()` changes
        nothing; otherwise one row is appended, with the name as typed. */
    method Register(name: string, kind: string, qty: int, expire: int) returns (added: bool)
      requires Valid() && Seeded()
      requires kind in Kinds() && 1 <= qty
      modifies this
      ensures Valid() && Seeded()
      ensures added <==> exists k :: 0 <= k < |name| && !Text.IsSpace(name[k])
      ensures added ==> ingredients == Some(old(ingredients).value + [Row(name, kind, qty, Date(expire))])
      ensures !added ==> ingredients == old(ingredients)
      ensures wasteLog == old(wasteLog) && point == old(point)
    {
      Text.StripEmptyIffAllSpace(name);
      if Text.Strip(name) == [] {
        added := false;
      } else {
        ingredients := Some(ingredients.value + [Row(name, kind, qty, Date(expire))]);
        added := true;
      }
    }

    /** The "add record" button of the waste page; the number box admits
        no negative weight. */
    method AddWaste(date: int, grams: int)
      requires Valid() && Seeded() && 0 <= grams
      modifies this
      ensures Valid() && Seeded()
      ensures wasteLog == Some(old(wasteLog).value + [WasteEvent(date, grams)])
      ensures WasteTotal(wasteLog.value) == WasteTotal(old(wasteLog).value) + grams
      ensures ingredients == old(ingredients) && point == old(point)
    {
      WasteTotalAppend(wasteLog.value, WasteEvent(date, grams));
      wasteLog := Some(wasteLog.value + [WasteEvent(date, grams)]);
    }

    /** One of the three point buttons: the counter grows by its reward. */
    method Press(a: Action)
      requires Valid() && Seeded()
      modifies this
      ensures Valid() && Seeded()
      ensures point == Some(old(point).value + Reward(a))
      ensures Points.Level(old(point).value) <= Points.Level(point.value)
      ensures ingredients == old(ingredients) && wasteLog == old(wasteLog)
    {
      Points.LevelMonotone(point.value, point.value + Reward(a));
      point := Some(point.value + Reward(a));
    }
  }
}
