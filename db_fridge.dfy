/** The database-backed variant: three tables (ingredients, waste log,
    points log) with auto-increment ids, the expiry alert page with its
    eat and discard buttons, the recipe page, the waste page and the
    points page. The tables are sequences held by one `Fridge` object. */
module DbFridge {
  import opened Wrappers
  import opened Tables
  import opened Expiry
  import opened Ledgers
  import opened Recipes
  import opened Categories

  /** A row of the ingredients table; `expiry` is a day number. */
  datatype Ingredient = Ingredient(id: int, name: string, category: string, quantity: int,
                                   expiry: int, tip: string, rule: string)

  /** A row of the reference CSV read when the ingredients table is empty. */
  datatype FoodRow = FoodRow(name: string, category: string, defaultDays: int, tip: string, rule: string)

  const EatPoints: int := 30
  const CheckInPoints: int := 10
  const DiscardGrams: int := 300

  ghost predicate UniqueIds(inv: seq<Ingredient>)
  {
    forall i, j :: 0 <= i < j < |inv| ==> inv[i].id != inv[j].id
  }

  predicate HasId(inv: seq<Ingredient>, id: int)
  {
    exists k :: 0 <= k < |inv| && inv[k].id == id
  }

  /** `DELETE FROM ingredients WHERE id = ?`: the rows with another id, in order. */
  function RemoveId(inv: seq<Ingredient>, id: int): (r: seq<Ingredient>)
    ensures forall k :: 0 <= k < |r| ==> r[k] in inv && r[k].id != id
    ensures forall k :: 0 <= k < |inv| && inv[k].id != id ==> inv[k] in r
    ensures IsSubsequence(r, inv)
  {
    Filter(inv, (x: Ingredient) => x.id != id)
  }

  /** Deleting an id that no row has changes nothing. */
  lemma RemoveAbsentId(inv: seq<Ingredient>, id: int)
    requires !HasId(inv, id)
    ensures RemoveId(inv, id) == inv
  {
    FilterKeepsAll(inv, (x: Ingredient) => x.id != id);
  }

  /** Deleting the same id twice leaves the table as deleting it once. */
  lemma RemoveIdIdempotent(inv: seq<Ingredient>, id: int)
    ensures RemoveId(RemoveId(inv, id), id) == RemoveId(inv, id)
  {
    RemoveAbsentId(RemoveId(inv, id), id);
  }

  /** With unique ids, deleting the id of row `k` removes that row and
      no other, and keeps the order of the rest. */
  lemma RemoveIdAt(inv: seq<Ingredient>, k: int)
    requires UniqueIds(inv) && 0 <= k < |inv|
    ensures RemoveId(inv, inv[k].id) == inv[..k] + inv[k + 1..]
  {
    var p := (x: Ingredient) => x.id != inv[k].id;
    var pre, mid, post := inv[..k], [inv[k]], inv[k + 1..];
    assert inv == pre + mid + post;
    forall j | 0 <= j < |pre| ensures p(pre[j]) {
      assert pre[j] == inv[j];
    }
    forall j | 0 <= j < |post| ensures p(post[j]) {
      assert post[j] == inv[k + 1 + j];
    }
    FilterKeepsAll(pre, p);
    FilterKeepsAll(post, p);
    assert Filter(mid, p) == [] by {
      assert mid[1..] == [];
    }
    FilterAppend(pre + mid, post, p);
    FilterAppend(pre, mid, p);
    calc {
      RemoveId(inv, inv[k].id);
      Filter(pre + mid + post, p);
      Filter(pre, p) + Filter(mid, p) + Filter(post, p);
      pre + post;
    }
  }

  /** Deleting keeps the ids of the remaining rows unique and drawn from the old ones. */
  lemma {:induction false} RemoveIdKeepsIds(inv: seq<Ingredient>, id: int)
    requires UniqueIds(inv)
    ensures UniqueIds(RemoveId(inv, id))
  {
    if inv != [] {
      var p := (x: Ingredient) => x.id != id;
      assert UniqueIds(inv[1..]);
      RemoveIdKeepsIds(inv[1..], id);
      var tail := RemoveId(inv[1..], id);
      forall k | 0 <= k < |tail| ensures tail[k].id != inv[0].id {
        var j :| 0 <= j < |inv[1..]| && inv[1..][j] == tail[k];
        assert inv[j + 1] == tail[k];
      }
    }
  }

  /** Adding a row under a fresh id and then deleting that id restores the table. */
  lemma AddThenRemove(inv: seq<Ingredient>, x: Ingredient)
    requires !HasId(inv, x.id)
    ensures RemoveId(inv + [x], x.id) == inv
  {
    var p := (y: Ingredient) => y.id != x.id;
    FilterAppend(inv, [x], p);
    RemoveAbsentId(inv, x.id);
    assert Filter([x], p) == [];
  }

  function ExpiryOf(x: Ingredient): int
  {
    x.expiry
  }

  /** `SELECT * FROM ingredients ORDER BY expiry_date`: every row, soonest expiry first. */
  function ListByExpiry(inv: seq<Ingredient>): (r: seq<Ingredient>)
    ensures multiset(r) == multiset(inv)
    ensures forall i, j :: 0 <= i < j < |r| ==> r[i].expiry <= r[j].expiry
  {
    SortBy(inv, ExpiryOf)
  }

  /** A row of the alert page: an ingredient with its days left. */
  datatype Alert = Alert(item: Ingredient, daysLeft: int)

  /** The days-left column added to every row for a given `today`. */
  function Annotate(inv: seq<Ingredient>, today: int): (r: seq<Alert>)
    ensures |r| == |inv|
    ensures forall k :: 0 <= k < |r| ==> r[k].item == inv[k] && today + r[k].daysLeft == inv[k].expiry
  {
    seq(|inv|, k requires 0 <= k < |inv| => Alert(inv[k], DaysLeft(inv[k].expiry, today)))
  }

  function DaysOf(a: Alert): int
  {
    a.daysLeft
  }

  /** The alert page's full list: every ingredient with its days left,
      fewest days first. */
  function AlertList(inv: seq<Ingredient>, today: int): (r: seq<Alert>)
    ensures multiset(r) == multiset(Annotate(inv, today))
    ensures forall i, j :: 0 <= i < j < |r| ==> r[i].daysLeft <= r[j].daysLeft
    ensures forall k :: 0 <= k < |r| ==> r[k].item in inv && today + r[k].daysLeft == r[k].item.expiry
  {
    var r := SortBy(Annotate(inv, today), DaysOf);
    assert forall k :: 0 <= k < |r| ==> r[k] in multiset(Annotate(inv, today));
    r
  }

  /** The three cards at the top of the alert page: the first rows of the
      sorted list, none with more days left than any row not shown. */
  function AlertCards(inv: seq<Ingredient>, today: int): (r: seq<Alert>)
    ensures |r| == Min(3, |inv|)
    ensures forall k :: 0 <= k < |r| ==> r[k] == AlertList(inv, today)[k]
    ensures forall i, j :: 0 <= i < |r| <= j < |inv| ==> r[i].daysLeft <= AlertList(inv, today)[j].daysLeft
  {
    var all := AlertList(inv, today);
    HeadOfSortedIsSmallest(all, 3, DaysOf);
    Head(all, 3)
  }

  /** What the recipe page shows: a warning when the fridge is empty, a
      prompt until something is selected, otherwise the matching recipes. */
  datatype RecipePage = EmptyFridge | AwaitingSelection | Suggestions(recipes: seq<Recipe>)

  function NamesOf(inv: seq<Ingredient>): (r: seq<string>)
    ensures |r| == |inv| && forall k :: 0 <= k < |inv| ==> r[k] == inv[k].name
  {
    seq(|inv|, k requires 0 <= k < |inv| => inv[k].name)
  }

  /** The recipe page for a selection made among the names in the fridge. */
  function RecipeView(inv: seq<Ingredient>, selected: seq<string>, recipes: seq<Recipe>): (r: RecipePage)
    requires forall k :: 0 <= k < |selected| ==> selected[k] in NamesOf(inv)
    ensures r == EmptyFridge <==> inv == []
    ensures r == AwaitingSelection <==> inv != [] && selected == []
    ensures r.Suggestions? ==> forall k :: 0 <= k < |r.recipes| ==>
      r.recipes[k] in recipes && exists n :: 0 <= n < |selected| && Text.Contains(r.recipes[k].required, selected[n])
    ensures r.Suggestions? ==> forall k :: 0 <= k < |recipes| && MentionsAny(selected, recipes[k].required) ==>
      recipes[k] in r.recipes
    ensures r.Suggestions? ==> IsSubsequence(r.recipes, recipes)
  {
    if inv == [] then EmptyFridge
    else if selected == [] then AwaitingSelection
    else Suggestions(MatchSelected(selected, recipes))
  }

  /** The rows the CSV import writes: quantity 1, expiry `default_days`
      after `today`, ids allocated from `firstId` on. */
  function Expand(rows: seq<FoodRow>, today: int, firstId: int): (r: seq<Ingredient>)
    ensures |r| == |rows|
    ensures forall k :: 0 <= k < |r| ==>
      r[k] == Ingredient(firstId + k, rows[k].name, rows[k].category, 1,
                         today + rows[k].defaultDays, rows[k].tip, rows[k].rule)
  {
    seq(|rows|, k requires 0 <= k < |rows| =>
      Ingredient(firstId + k, rows[k].name, rows[k].category, 1,
                 today + rows[k].defaultDays, rows[k].tip, rows[k].rule))
  }

  /** The three tables. `nextId` is the id the next inserted ingredient
      gets: ids are never reused. */
  class Fridge {
    var inventory: seq<Ingredient>
    var wasteLog: seq<WasteEvent>
    var pointsLog: seq<PointsEvent>
    var nextId: int

    /** Ingredient ids are unique and already allocated; every quantity
        is at least 1; every waste weight and every points award is
        positive. */
    ghost predicate Valid()
      reads this
    {
      && 1 <= nextId
      && UniqueIds(inventory)
      && (forall k :: 0 <= k < |inventory| ==> 1 <= inventory[k].id < nextId)
      && (forall k :: 0 <= k < |inventory| ==> 1 <= inventory[k].quantity)
      && (forall k :: 0 <= k < |wasteLog| ==> 0 < wasteLog[k].grams)
      && (forall k :: 0 <= k < |pointsLog| ==> 0 < pointsLog[k].points)
    }

    /** Freshly created tables. */
    constructor ()
      ensures Valid()
      ensures inventory == [] && wasteLog == [] && pointsLog == [] && nextId == 1
    {
      inventory, wasteLog, pointsLog, nextId := [], [], [], 1;
    }

    /** The CSV import at the start of every run of the page: only when
        the ingredients table is empty, each CSV row becomes one
        ingredient. */
    method SeedFromCsv(rows: seq<FoodRow>, today: int)
      requires Valid()
      modifies this
      ensures Valid()
      ensures old(inventory) == [] ==> inventory == Expand(rows, today, old(nextId)) && nextId == old(nextId) + |rows|
      ensures old(inventory) != [] ==> inventory == old(inventory) && nextId == old(nextId)
      ensures wasteLog == old(wasteLog) && pointsLog == old(pointsLog)
    {
      if |inventory| == 0 {
        inventory := Expand(rows, today, nextId);
        nextId := nextId + |rows|;
      }
    }

    /** The add form: inserts one row with the given fields when the name
        is non-empty and answers its new id; an empty name changes nothing. */
    method Add(name: string, kind: string, qty: int, expiry: int, tip: string, rule: string)
      returns (id: Option<int>)
      requires Valid()
      requires kind in Kinds() && 1 <= qty <= 100
      modifies this
      ensures Valid()
      ensures name == [] ==> id == None && inventory == old(inventory) && nextId == old(nextId)
      ensures name != [] ==> id == Some(old(nextId)) && nextId == old(nextId) + 1
                             && inventory == old(inventory) + [Ingredient(old(nextId), name, kind, qty, expiry, tip, rule)]
      ensures name != [] ==> RemoveId(inventory, id.value) == old(inventory)
      ensures wasteLog == old(wasteLog) && pointsLog == old(pointsLog)
    {
      if name != [] {
        var row := Ingredient(nextId, name, kind, qty, expiry, tip, rule);
        inventory := inventory + [row];
        id := Some(nextId);
        nextId := nextId + 1;
        AddThenRemove(old(inventory), row);
      } else {
        id := None;
      }
    }

    /** The delete button: removes the row with that id, if any. */
    method Delete(id: int)
      requires Valid()
      modifies this
      ensures Valid()
      ensures inventory == RemoveId(old(inventory), id)
      ensures !HasId(old(inventory), id) ==> inventory == old(inventory)
      ensures nextId == old(nextId) && wasteLog == old(wasteLog) && pointsLog == old(pointsLog)
    {
      RemoveIdKeepsIds(inventory, id);
      inventory := RemoveId(inventory, id);
      if !HasId(old(inventory), id) {
        RemoveAbsentId(old(inventory), id);
      }
    }

    /** The "eat" button of an alert card: one +30 points record, then
        the ingredient's row is deleted; the waste log is untouched. */
    method Eat(item: Ingredient)
      requires Valid() && item in inventory
      modifies this
      ensures Valid()
      ensures pointsLog == old(pointsLog) + [PointsEvent(item.name + " 알뜰 사용", EatPoints)]
      ensures PointsTotal(pointsLog) == old(PointsTotal(pointsLog)) + EatPoints
      ensures inventory == RemoveId(old(inventory), item.id) && |inventory| == |old(inventory)| - 1
      ensures wasteLog == old(wasteLog) && nextId == old(nextId)
    {
      var e := PointsEvent(item.name + " 알뜰 사용", EatPoints);
      PointsTotalAppend(pointsLog, e);
      pointsLog := pointsLog + [e];
      var k :| 0 <= k < |inventory| && inventory[k] == item;
      RemoveIdAt(inventory, k);
      Delete(item.id);
    }

    /** The "discard" button of an alert card: one 300 g waste record for
        `today`, then the ingredient's row is deleted; points are untouched. */
    method Discard(item: Ingredient, today: int)
      requires Valid() && item in inventory
      modifies this
      ensures Valid()
      ensures wasteLog == old(wasteLog) + [WasteEvent(today, DiscardGrams)]
      ensures WasteTotal(wasteLog) == old(WasteTotal(wasteLog)) + DiscardGrams
      ensures inventory == RemoveId(old(inventory), item.id) && |inventory| == |old(inventory)| - 1
      ensures pointsLog == old(pointsLog) && nextId == old(nextId)
    {
      var e := WasteEvent(today, DiscardGrams);
      WasteTotalAppend(wasteLog, e);
      wasteLog := wasteLog + [e];
      var k :| 0 <= k < |inventory| && inventory[k] == item;
      RemoveIdAt(inventory, k);
      Delete(item.id);
    }

    /** The waste page's "save record" button; the number box admits 100 to 2000 g. */
    method RecordWaste(date: int, grams: int)
      requires Valid() && 100 <= grams <= 2000
      modifies this
      ensures Valid()
      ensures wasteLog == old(wasteLog) + [WasteEvent(date, grams)]
      ensures WasteTotal(wasteLog) == old(WasteTotal(wasteLog)) + grams
      ensures inventory == old(inventory) && pointsLog == old(pointsLog) && nextId == old(nextId)
    {
      WasteTotalAppend(wasteLog, WasteEvent(date, grams));
      wasteLog := wasteLog + [WasteEvent(date, grams)];
    }

    /** The check-in button: one +10 points record. */
    method CheckIn()
      requires Valid()
      modifies this
      ensures Valid()
      ensures pointsLog == old(pointsLog) + [PointsEvent("출석체크", CheckInPoints)]
      ensures PointsTotal(pointsLog) == old(PointsTotal(pointsLog)) + CheckInPoints
      ensures inventory == old(inventory) && wasteLog == old(wasteLog) && nextId == old(nextId)
    {
      PointsTotalAppend(pointsLog, PointsEvent("출석체크", CheckInPoints));
      pointsLog := pointsLog + [PointsEvent("출석체크", CheckInPoints)];
    }
  }
}
