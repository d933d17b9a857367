/** src/repository/model-price.ts: the append-only price table. */
module ModelPriceRepository {
  import opened Wrappers
  import opened Strings
  import opened Seqs
  import opened Json
  import opened Domain
  import opened Transformers

  /** `model_name ILIKE 'claude-%'` */
  predicate IsClaudeModel(name: string) {
    StartsWith(ToLower(name), "claude-")
  }

  /** The rows of one model, newest last. */
  predicate OfModel(r: PriceRow, name: string) {
    r.modelName == name
  }

  /** The latest row of a model: the greatest `createdAt`, and the greatest id among those, a tie
      the query leaves open and the model settles. */
  function LatestOf(rows: seq<PriceRow>, name: string): Option<ModelPrice> {
    match LastIndex(rows, (r: PriceRow) => OfModel(r, name))
    case Some(i) => Some(ToModelPrice(rows[i]))
    case None => None
  }

  /** Prices in strictly increasing order of model name (so one per name). */
  ghost predicate SortedByName(s: seq<ModelPrice>) {
    forall i, j :: 0 <= i < j < |s| ==> LexLess(s[i].modelName, s[j].modelName)
  }

  /** The entry of `s` for a model. */
  function EntryFor(s: seq<ModelPrice>, name: string): (r: Option<ModelPrice>)
    ensures r.Some? ==> r.value in s && r.value.modelName == name
  {
    if s == [] then None
    else if s[0].modelName == name then Some(s[0])
    else EntryFor(s[1..], name)
  }

  /** In a name-ordered list, the entry for an element's name is that element. */
  lemma {:induction false} EntryOfSorted(s: seq<ModelPrice>, i: nat)
    requires SortedByName(s) && i < |s|
    ensures EntryFor(s, s[i].modelName) == Some(s[i])
  {
    if i > 0 {
      if s[0].modelName == s[i].modelName {
        LexLessIrreflexive(s[0].modelName);
      }
      assert SortedByName(s[1..]) by {
        forall a, b | 0 <= a < b < |s| - 1
          ensures LexLess(s[1..][a].modelName, s[1..][b].modelName)
        {
          assert s[1..][a] == s[a + 1] && s[1..][b] == s[b + 1];
        }
      }
      EntryOfSorted(s[1..], i - 1);
    }
  }

  /** Insert `p` into a name-ordered list, replacing the entry for the same model. */
  function Upsert(s: seq<ModelPrice>, p: ModelPrice): (r: seq<ModelPrice>)
    ensures forall x :: x in r ==> x == p || x in s
    ensures p in r
  {
    if s == [] then [p]
    else if s[0].modelName == p.modelName then [p] + s[1..]
    else if LexLess(p.modelName, s[0].modelName) then [p] + s
    else [s[0]] + Upsert(s[1..], p)
  }

  lemma {:induction false} UpsertKeepsOrder(s: seq<ModelPrice>, p: ModelPrice)
    requires SortedByName(s)
    ensures SortedByName(Upsert(s, p))
  {
    if s == [] {
    } else if s[0].modelName == p.modelName {
    } else if LexLess(p.modelName, s[0].modelName) {
      forall j | 0 < j < |s|
        ensures LexLess(p.modelName, s[j].modelName)
      {
        LexLessTransitive(p.modelName, s[0].modelName, s[j].modelName);
      }
    } else {
      LexLessTotal(p.modelName, s[0].modelName);
      UpsertKeepsOrder(s[1..], p);
      var r := Upsert(s[1..], p);
      forall j | 0 <= j < |r|
        ensures LexLess(s[0].modelName, r[j].modelName)
      {
        assert r[j] in r;
      }
    }
  }

  lemma {:induction false} UpsertEntry(s: seq<ModelPrice>, p: ModelPrice, name: string)
    ensures EntryFor(Upsert(s, p), name) == if name == p.modelName then Some(p) else EntryFor(s, name)
  {
    if s != [] && s[0].modelName != p.modelName && !LexLess(p.modelName, s[0].modelName) {
      UpsertEntry(s[1..], p, name);
      assert ([s[0]] + Upsert(s[1..], p))[1..] == Upsert(s[1..], p);
    } else if s != [] && s[0].modelName == p.modelName {
      assert ([p] + s[1..])[1..] == s[1..];
    } else if s != [] {
      assert ([p] + s)[1..] == s;
    }
  }

  /** The latest price of every Claude model, ordered by model name. */
  function LatestPerModel(rows: seq<PriceRow>): seq<ModelPrice> {
    if rows == [] then []
    else
      var rest := LatestPerModel(rows[..|rows| - 1]);
      var last := rows[|rows| - 1];
      if IsClaudeModel(last.modelName) then Upsert(rest, ToModelPrice(last)) else rest
  }

  lemma {:induction false} LatestPerModelSorted(rows: seq<PriceRow>)
    ensures SortedByName(LatestPerModel(rows))
  {
    if rows != [] {
      LatestPerModelSorted(rows[..|rows| - 1]);
      var last := rows[|rows| - 1];
      if IsClaudeModel(last.modelName) {
        UpsertKeepsOrder(LatestPerModel(rows[..|rows| - 1]), ToModelPrice(last));
      }
    }
  }

  lemma {:induction false} LatestPerModelEntries(rows: seq<PriceRow>, name: string)
    ensures EntryFor(LatestPerModel(rows), name) == if IsClaudeModel(name) then LatestOf(rows, name) else None
  {
    if rows != [] {
      var init, last := rows[..|rows| - 1], rows[|rows| - 1];
      LatestPerModelEntries(init, name);
      if IsClaudeModel(last.modelName) {
        UpsertEntry(LatestPerModel(init), ToModelPrice(last), name);
      }
      assert last.modelName != name ==> LatestOf(rows, name) == LatestOf(init, name);
    }
  }

  class PriceTable {
    var rows: seq<PriceRow>
    var nextId: int

    ghost predicate Valid()
      reads this
    {
      nextId >= 1
      && (forall i :: 0 <= i < |rows| ==> 1 <= rows[i].id < nextId)
      && (forall i, j :: 0 <= i < j < |rows| ==> rows[i].id < rows[j].id && rows[i].createdAt <= rows[j].createdAt)
    }

    predicate CanInsertAt(now: int)
      reads this
    {
      rows == [] || rows[|rows| - 1].createdAt <= now
    }

    constructor ()
      ensures Valid() && rows == [] && nextId == 1
    {
      rows, nextId := [], 1;
    }

    /** `findLatestPriceByModel`: the row with the greatest `createdAt` for exactly that name;
        `ORDER BY created_at DESC LIMIT 1` leaves ties unordered, and the model picks the most
        recently inserted row among them. */
    function FindLatestPriceByModel(modelName: string): (r: Option<ModelPrice>)
      reads this
      requires Valid()
      ensures r.None? <==> forall i :: 0 <= i < |rows| ==> rows[i].modelName != modelName
      ensures r.Some? ==> r.value.modelName == modelName
      ensures r.Some? ==> exists i :: 0 <= i < |rows| && rows[i].modelName == modelName && r.value == ToModelPrice(rows[i])
      ensures r.Some? ==> forall i :: 0 <= i < |rows| && rows[i].modelName == modelName ==>
        rows[i].createdAt <= r.value.createdAt && rows[i].id <= r.value.id
    {
      LatestOf(rows, modelName)
    }

    /** `findAllLatestPrices`: one row per Claude model, its latest, ordered by model name. */
    function FindAllLatestPrices(): (r: seq<ModelPrice>)
      reads this
      requires Valid()
      ensures SortedByName(r)
      ensures forall name :: EntryFor(r, name) == (if IsClaudeModel(name) then FindLatestPriceByModel(name) else None)
    {
      LatestPerModelSorted(rows);
      forall name
        ensures EntryFor(LatestPerModel(rows), name) == (if IsClaudeModel(name) then LatestOf(rows, name) else None)
      {
        LatestPerModelEntries(rows, name);
      }
      LatestPerModel(rows)
    }

    /** `createModelPrice`: appends one row and alters none of the others. */
    method CreateModelPrice(modelName: string, priceData: Json, now: int) returns (p: ModelPrice)
      requires Valid() && CanInsertAt(now)
      modifies this
      ensures Valid() && nextId == old(nextId) + 1
      ensures rows == old(rows) + [PriceRow(old(nextId), modelName, priceData, now, now)]
      ensures p == ToModelPrice(rows[|rows| - 1])
      ensures FindLatestPriceByModel(modelName) == Some(p)
    {
      var row := PriceRow(nextId, modelName, priceData, now, now);
      rows := rows + [row];
      nextId := nextId + 1;
      p := ToModelPrice(row);
    }
  }

  /** Every listed row is the latest of its model, and the listing has no two rows of one model. */
  lemma ListingHoldsOnlyLatest(table: PriceTable, i: nat)
    requires table.Valid() && i < |table.FindAllLatestPrices()|
    ensures IsClaudeModel(table.FindAllLatestPrices()[i].modelName)
    ensures Some(table.FindAllLatestPrices()[i]) == table.FindLatestPriceByModel(table.FindAllLatestPrices()[i].modelName)
  {
    var r := table.FindAllLatestPrices();
    EntryOfSorted(r, i);
  }
}
