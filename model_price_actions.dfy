/** src/actions/model-prices.ts: uploading a price table and reading the current prices. An
    upload appends a row for every Claude model whose price is new or has changed, so the
    price table keeps its history; only an admin uploads or reads prices. */
module ModelPriceActions {
  import opened Wrappers
  import opened Seqs
  import opened Json
  import opened Domain
  import opened Auth
  import opened ActionTypes
  import opened Transformers
  import opened ModelPriceRepository

  const BadJson := "JSON格式不正确，请检查文件内容"
  const NotAnObject := "价格表必须是一个JSON对象"

  /** `PriceUpdateResult`: the model names by what became of them, and how many were read. */
  datatype PriceUpdateResult = PriceUpdateResult(
    added: seq<string>, updated: seq<string>, unchangedModels: seq<string>, failed: seq<string>, total: nat)

  /** `isPriceDataEqual`: two prices are equal when they serialise alike (`stringify` stands for
      `JSON.stringify`). */
  predicate IsPriceDataEqual(a: Json, b: Json, stringify: Json -> string) {
    stringify(a) == stringify(b)
  }

  /** An entry of the uploaded object that names a Claude model. */
  predicate IsClaudeEntry(e: (string, Json)) {
    IsClaudeModel(e.0)
  }

  // ---------------------------------------------------------------------------------------
  // The upload, one entry at a time

  datatype Verdict = Added | Updated | Unchanged | Failed

  /** What the upload does with one model's price, given the rows as they stand: a price that
      is not an object fails; a model without a row is added; one whose latest price
      serialises differently is updated; otherwise it is left unchanged. */
  function VerdictOf(rows: seq<PriceRow>, name: string, priceData: Json, stringify: Json -> string): Verdict {
    if !IsObjectLike(priceData) then Failed
    else match LatestOf(rows, name)
      case None => Added
      case Some(p) => if IsPriceDataEqual(p.priceData, priceData, stringify) then Unchanged else Updated
  }

  /** The table and the four lists part-way through an upload. */
  datatype Progress = Progress(
    rows: seq<PriceRow>, nextId: int,
    added: seq<string>, updated: seq<string>, unchangedModels: seq<string>, failed: seq<string>)

  /** One entry processed at time `now`: an added or updated price appends a row. */
  function Step(s: Progress, e: (string, Json), stringify: Json -> string, now: int): Progress {
    match VerdictOf(s.rows, e.0, e.1, stringify)
    case Failed => s.(failed := s.failed + [e.0])
    case Unchanged => s.(unchangedModels := s.unchangedModels + [e.0])
    case Added => s.(rows := s.rows + [PriceRow(s.nextId, e.0, e.1, now, now)], nextId := s.nextId + 1,
                     added := s.added + [e.0])
    case Updated => s.(rows := s.rows + [PriceRow(s.nextId, e.0, e.1, now, now)], nextId := s.nextId + 1,
                       updated := s.updated + [e.0])
  }

  /** The entries processed in order, starting from `rows` with ids from `nextId`. Every entry
      lands in exactly one list, and the table grows by one row per added or updated model,
      appended after the rows that were there. */
  function Run(rows: seq<PriceRow>, nextId: int, entries: seq<(string, Json)>, stringify: Json -> string, now: int)
    : (s: Progress)
    ensures |s.added| + |s.updated| + |s.unchangedModels| + |s.failed| == |entries|
    ensures |s.rows| == |rows| + |s.added| + |s.updated| && s.rows[..|rows|] == rows
    ensures s.nextId == nextId + |s.added| + |s.updated|
    decreases |entries|
  {
    if entries == [] then Progress(rows, nextId, [], [], [], [])
    else Step(Run(rows, nextId, entries[..|entries| - 1], stringify, now), entries[|entries| - 1], stringify, now)
  }

  /** The model names of the entries, in order. */
  function Names(entries: seq<(string, Json)>): (r: seq<string>)
    ensures |r| == |entries| && forall i :: 0 <= i < |entries| ==> r[i] == entries[i].0
  {
    seq(|entries|, i requires 0 <= i < |entries| => entries[i].0)
  }

  /** Every processed entry is reported in exactly one of the four lists: together they hold
      the entries' names, each as often as it was given. */
  lemma {:induction false} EveryEntryReportedOnce(rows: seq<PriceRow>, nextId: int, entries: seq<(string, Json)>,
                                                  stringify: Json -> string, now: int)
    ensures multiset(Reported(Run(rows, nextId, entries, stringify, now))) == multiset(Names(entries))
  {
    if entries != [] {
      var init, e := entries[..|entries| - 1], entries[|entries| - 1];
      var prev := Run(rows, nextId, init, stringify, now);
      EveryEntryReportedOnce(rows, nextId, init, stringify, now);
      assert Names(entries) == Names(init) + [e.0];
      StepReportsOnce(prev, e, stringify, now);
    }
  }

  /** The names an upload reports, list after list. */
  function Reported(s: Progress): seq<string> {
    s.added + s.updated + s.unchangedModels + s.failed
  }

  lemma ReportedParts(s: Progress)
    ensures multiset(Reported(s))
         == multiset(s.added) + multiset(s.updated) + multiset(s.unchangedModels) + multiset(s.failed)
  {
  }

  /** One entry adds its name to exactly one list. */
  lemma StepReportsOnce(s: Progress, e: (string, Json), stringify: Json -> string, now: int)
    ensures multiset(Reported(Step(s, e, stringify, now))) == multiset(Reported(s)) + multiset{e.0}
  {
    var t := Step(s, e, stringify, now);
    ReportedParts(s);
    ReportedParts(t);
    var one := multiset{e.0};
    match VerdictOf(s.rows, e.0, e.1, stringify)
    case Failed =>
      assert t.added == s.added && t.updated == s.updated && t.unchangedModels == s.unchangedModels;
      assert multiset(t.failed) == multiset(s.failed) + one;
    case Unchanged =>
      assert t.added == s.added && t.updated == s.updated && t.failed == s.failed;
      assert multiset(t.unchangedModels) == multiset(s.unchangedModels) + one;
    case Added =>
      assert t.updated == s.updated && t.unchangedModels == s.unchangedModels && t.failed == s.failed;
      assert multiset(t.added) == multiset(s.added) + one;
    case Updated =>
      assert t.added == s.added && t.unchangedModels == s.unchangedModels && t.failed == s.failed;
      assert multiset(t.updated) == multiset(s.updated) + one;
  }

  /** A row appended for one model changes the latest price of that model only. */
  lemma LatestAfterAppend(rows: seq<PriceRow>, row: PriceRow, name: string)
    ensures LatestOf(rows + [row], name) == if row.modelName == name then Some(ToModelPrice(row)) else LatestOf(rows, name)
  {
    assert (rows + [row])[..|rows|] == rows;
  }

  /** No two entries name the same model, as in an object `JSON.parse` returns. */
  predicate DistinctNames(entries: seq<(string, Json)>) {
    forall a, b :: 0 <= a < b < |entries| ==> entries[a].0 != entries[b].0
  }

  /** The latest price of every model the entries give an object for serialises as given. */
  ghost predicate Reflects(rows: seq<PriceRow>, entries: seq<(string, Json)>, stringify: Json -> string) {
    forall j :: 0 <= j < |entries| && IsObjectLike(entries[j].1) ==>
      LatestOf(rows, entries[j].0).Some? && IsPriceDataEqual(LatestOf(rows, entries[j].0).value.priceData, entries[j].1, stringify)
  }

  /** After an upload, the price table holds every uploaded price as the latest of its model. */
  lemma {:induction false} UploadReflectsTable(rows: seq<PriceRow>, nextId: int, entries: seq<(string, Json)>,
                                               stringify: Json -> string, now: int)
    requires DistinctNames(entries)
    ensures Reflects(Run(rows, nextId, entries, stringify, now).rows, entries, stringify)
    decreases |entries|
  {
    if entries != [] {
      var init := entries[..|entries| - 1];
      var e := entries[|entries| - 1];
      var before := Run(rows, nextId, init, stringify, now);
      UploadReflectsTable(rows, nextId, init, stringify, now);
      var after := Run(rows, nextId, entries, stringify, now);
      assert after == Step(before, e, stringify, now);
      forall j | 0 <= j < |entries| && IsObjectLike(entries[j].1)
        ensures LatestOf(after.rows, entries[j].0).Some?
        ensures IsPriceDataEqual(LatestOf(after.rows, entries[j].0).value.priceData, entries[j].1, stringify)
      {
        if after.rows != before.rows {
          LatestAfterAppend(before.rows, after.rows[|after.rows| - 1], entries[j].0);
          assert after.rows == before.rows + [after.rows[|after.rows| - 1]];
        }
        if j < |init| {
          assert init[j] == entries[j];
        }
      }
    }
  }

  /** An upload whose every price is already the latest appends nothing and reports no model as
      added or updated. */
  lemma {:induction false} UploadOfReflectedTable(rows: seq<PriceRow>, nextId: int, entries: seq<(string, Json)>,
                                                  stringify: Json -> string, now: int)
    requires Reflects(rows, entries, stringify)
    ensures var s := Run(rows, nextId, entries, stringify, now);
      s.rows == rows && s.added == [] && s.updated == []
    decreases |entries|
  {
    if entries != [] {
      var init := entries[..|entries| - 1];
      assert forall j :: 0 <= j < |init| ==> init[j] == entries[j];
      UploadOfReflectedTable(rows, nextId, init, stringify, now);
    }
  }

  /** Uploading the same table twice: the second upload changes nothing. */
  lemma UploadIsIdempotent(rows: seq<PriceRow>, nextId: int, entries: seq<(string, Json)>,
                           stringify: Json -> string, now: int, later: int)
    requires DistinctNames(entries)
    ensures var first := Run(rows, nextId, entries, stringify, now);
            var second := Run(first.rows, first.nextId, entries, stringify, later);
      second.rows == first.rows && second.added == [] && second.updated == []
      && |second.unchangedModels| + |second.failed| == |entries|
  {
    UploadReflectsTable(rows, nextId, entries, stringify, now);
    var first := Run(rows, nextId, entries, stringify, now);
    UploadOfReflectedTable(first.rows, first.nextId, entries, stringify, later);
  }

  // ---------------------------------------------------------------------------------------
  // The actions

  /** `uploadPriceTable(jsonContent)`: refused unless admin, for content that is not JSON
      (`parse` stands for `JSON.parse`, None when it throws) and for JSON that is not an object
      or array; otherwise every entry whose name starts with "claude-" (ignoring case) is
      processed in order as `Run` says, and the result lists what became of each. */
  method UploadPriceTable(session: Option<AuthSession>, jsonContent: string, table: PriceTable,
                          parse: string -> Option<Json>, stringify: Json -> string, now: int)
    returns (r: ActionResult<PriceUpdateResult>)
    requires table.Valid() && table.CanInsertAt(now)
    modifies table
    ensures table.Valid()
    ensures !IsAdmin(session) ==> r == Failure(NoPermission)
    ensures IsAdmin(session) && parse(jsonContent).None? ==> r == Failure(BadJson)
    ensures IsAdmin(session) && parse(jsonContent).Some? && !IsObjectLike(parse(jsonContent).value) ==> r == Failure(NotAnObject)
    ensures IsAdmin(session) && parse(jsonContent).Some? && IsObjectLike(parse(jsonContent).value) ==>
      var entries := Filter(Entries(parse(jsonContent).value), IsClaudeEntry);
      var s := Run(old(table.rows), old(table.nextId), entries, stringify, now);
      && r == Success(PriceUpdateResult(s.added, s.updated, s.unchangedModels, s.failed, |entries|))
      && table.rows == s.rows && table.nextId == s.nextId
    ensures r.Failure? ==> table.rows == old(table.rows) && table.nextId == old(table.nextId)
  {
    if !IsAdmin(session) {
      return Failure(NoPermission);
    }
    var priceTable := parse(jsonContent);
    if priceTable.None? {
      return Failure(BadJson);
    }
    if !IsObjectLike(priceTable.value) {
      return Failure(NotAnObject);
    }
    var entries := Filter(Entries(priceTable.value), IsClaudeEntry);
    var added, updated, unchangedModels, failed := UploadEntries(table, entries, stringify, now);
    return Success(PriceUpdateResult(added, updated, unchangedModels, failed, |entries|));
  }

  /** One more entry is one more step. */
  lemma RunOneMore(rows: seq<PriceRow>, nextId: int, entries: seq<(string, Json)>, i: nat, stringify: Json -> string, now: int)
    requires i < |entries|
    ensures Run(rows, nextId, entries[..i + 1], stringify, now)
         == Step(Run(rows, nextId, entries[..i], stringify, now), entries[i], stringify, now)
  {
    assert entries[..i + 1][..i] == entries[..i];
  }

  /** The loop of the upload: the entries processed in order, as `Run` says. */
  method UploadEntries(table: PriceTable, entries: seq<(string, Json)>, stringify: Json -> string, now: int)
    returns (added: seq<string>, updated: seq<string>, unchangedModels: seq<string>, failed: seq<string>)
    requires table.Valid() && table.CanInsertAt(now)
    modifies table
    ensures table.Valid()
    ensures Run(old(table.rows), old(table.nextId), entries, stringify, now)
         == Progress(table.rows, table.nextId, added, updated, unchangedModels, failed)
  {
    ghost var rows0, next0 := table.rows, table.nextId;
    added, updated, unchangedModels, failed := [], [], [], [];
    for i := 0 to |entries|
      invariant table.Valid() && table.CanInsertAt(now)
      invariant Run(rows0, next0, entries[..i], stringify, now)
             == Progress(table.rows, table.nextId, added, updated, unchangedModels, failed)
    {
      RunOneMore(rows0, next0, entries, i, stringify, now);
      added, updated, unchangedModels, failed := ProcessEntry(table, entries[i], added, updated, unchangedModels, failed, stringify, now);
    }
    assert entries[..|entries|] == entries;
  }

  /** The body of the upload loop for one entry: the price is checked, compared with the
      model's latest, stored when it is new or changed, and the model's name is put on the list
      that says which. */
  method ProcessEntry(table: PriceTable, entry: (string, Json), added: seq<string>, updated: seq<string>,
                      unchangedModels: seq<string>, failed: seq<string>, stringify: Json -> string, now: int)
    returns (added': seq<string>, updated': seq<string>, unchangedModels': seq<string>, failed': seq<string>)
    requires table.Valid() && table.CanInsertAt(now)
    modifies table
    ensures table.Valid() && table.CanInsertAt(now)
    ensures Step(Progress(old(table.rows), old(table.nextId), added, updated, unchangedModels, failed), entry, stringify, now)
         == Progress(table.rows, table.nextId, added', updated', unchangedModels', failed')
  {
    var (modelName, priceData) := entry;
    added', updated', unchangedModels', failed' := added, updated, unchangedModels, failed;
    if !IsObjectLike(priceData) {
      failed' := failed + [modelName];
      return;
    }
    var existingPrice := table.FindLatestPriceByModel(modelName);
    if existingPrice.None? {
      var _ := table.CreateModelPrice(modelName, priceData, now);
      added' := added + [modelName];
    } else if !IsPriceDataEqual(existingPrice.value.priceData, priceData, stringify) {
      var _ := table.CreateModelPrice(modelName, priceData, now);
      updated' := updated + [modelName];
    } else {
      unchangedModels' := unchangedModels + [modelName];
    }
  }

  /** `getModelPrices()`: nothing for anyone but an admin; for an admin the latest price of
      every Claude model, one per model. */
  function GetModelPrices(session: Option<AuthSession>, table: PriceTable): (r: seq<ModelPrice>)
    reads table
    requires table.Valid()
    ensures !IsAdmin(session) ==> r == []
    ensures IsAdmin(session) ==> (SortedByName(r)
      && forall name :: EntryFor(r, name) == (if IsClaudeModel(name) then table.FindLatestPriceByModel(name) else None))
  {
    if IsAdmin(session) then table.FindAllLatestPrices() else []
  }

  /** `hasPriceTable()`: whether the caller gets any price back. */
  predicate HasPriceTable(session: Option<AuthSession>, table: PriceTable)
    reads table
    requires table.Valid()
  {
    |GetModelPrices(session, table)| > 0
  }

  /** There is a price table exactly when an admin asks and some Claude model has a price. */
  lemma HasPriceTableIffClaudeRow(session: Option<AuthSession>, table: PriceTable)
    requires table.Valid()
    ensures HasPriceTable(session, table)
        <==> IsAdmin(session) && exists i :: 0 <= i < |table.rows| && IsClaudeModel(table.rows[i].modelName)
  {
    var r := GetModelPrices(session, table);
    if |r| > 0 {
      EntryOfSorted(r, 0);
      var p := table.FindLatestPriceByModel(r[0].modelName);
      assert p.Some?;
    }
    if IsAdmin(session) && exists i :: 0 <= i < |table.rows| && IsClaudeModel(table.rows[i].modelName) {
      var i :| 0 <= i < |table.rows| && IsClaudeModel(table.rows[i].modelName);
      assert table.FindLatestPriceByModel(table.rows[i].modelName).Some?;
      assert EntryFor(r, table.rows[i].modelName).Some?;
    }
  }
}
