/** src/repository/provider.ts: the upstream-provider table. */
module ProviderRepository {
  import opened Wrappers
  import opened Seqs
  import opened Domain
  import opened Transformers

  /** `CreateProviderData` */
  datatype CreateProviderData = CreateProviderData(
    name: string, url: string, key: string, isEnabled: Option<bool>, weight: Option<int>,
    tpm: Option<int>, rpm: Option<int>, rpd: Option<int>, cc: Option<int>)

  /** `UpdateProviderData`; a limit may be given as `null` (`Given(None)`). */
  datatype UpdateProviderData = UpdateProviderData(
    name: Field<string>, url: Field<string>, key: Field<string>,
    isEnabled: Field<bool>, weight: Field<int>,
    tpm: Field<Option<int>>, rpm: Field<Option<int>>, rpd: Field<Option<int>>, cc: Field<Option<int>>)
  {
    predicate IsEmpty() {
      name.Omitted? && url.Omitted? && key.Omitted? && isEnabled.Omitted? && weight.Omitted?
      && tpm.Omitted? && rpm.Omitted? && rpd.Omitted? && cc.Omitted?
    }
  }

  /** The default page size of `findProviderList`. */
  const DefaultListLimit: nat := 50

  predicate LiveProviderWithId(r: ProviderRow, id: int) {
    r.id == id && r.deletedAt.None?
  }

  predicate IsLive(r: ProviderRow) {
    r.deletedAt.None?
  }

  /** The row after a non-empty update at time `now`. */
  function PatchProvider(r: ProviderRow, patch: UpdateProviderData, now: int): (u: ProviderRow)
    ensures u.id == r.id && u.createdAt == r.createdAt && u.deletedAt == r.deletedAt && u.updatedAt == now
    ensures u.name == (if patch.name.Given? then patch.name.value else r.name)
    ensures u.url == (if patch.url.Given? then patch.url.value else r.url)
    ensures u.key == (if patch.key.Given? then patch.key.value else r.key)
    ensures u.isEnabled == (if patch.isEnabled.Given? then Some(patch.isEnabled.value) else r.isEnabled)
    ensures u.weight == (if patch.weight.Given? then Some(patch.weight.value) else r.weight)
    ensures u.tpm == (if patch.tpm.Given? then patch.tpm.value else r.tpm)
    ensures u.rpm == (if patch.rpm.Given? then patch.rpm.value else r.rpm)
    ensures u.rpd == (if patch.rpd.Given? then patch.rpd.value else r.rpd)
    ensures u.cc == (if patch.cc.Given? then patch.cc.value else r.cc)
  {
    r.(name := patch.name.Or(r.name, x => x),
       url := patch.url.Or(r.url, x => x),
       key := patch.key.Or(r.key, x => x),
       isEnabled := patch.isEnabled.Or(r.isEnabled, x => Some(x)),
       weight := patch.weight.Or(r.weight, x => Some(x)),
       tpm := patch.tpm.Or(r.tpm, x => x),
       rpm := patch.rpm.Or(r.rpm, x => x),
       rpd := patch.rpd.Or(r.rpd, x => x),
       cc := patch.cc.Or(r.cc, x => x),
       updatedAt := now)
  }

  /** The position of the live row with that id. */
  function LiveIndex(rows: seq<ProviderRow>, id: int): (r: Option<nat>)
    ensures r.Some? ==> r.value < |rows| && LiveProviderWithId(rows[r.value], id)
    ensures r.Some? ==> forall j :: 0 <= j < r.value ==> !LiveProviderWithId(rows[j], id)
    ensures r.None? <==> forall j :: 0 <= j < |rows| ==> !LiveProviderWithId(rows[j], id)
  {
    if rows == [] then None
    else if LiveProviderWithId(rows[0], id) then Some(0)
    else match LiveIndex(rows[1..], id)
      case None => None
      case Some(i) => Some(i + 1)
  }

  function CreatedAt(r: ProviderRow): int {
    r.createdAt
  }

  /** `WHERE deleted_at IS NULL ORDER BY created_at DESC LIMIT limit OFFSET offset` over rows kept
      in creation order. */
  function NewestLiveFirst(rows: seq<ProviderRow>, limit: nat, offset: nat): seq<ProviderRow> {
    Page(Reverse(Filter(rows, IsLive)), limit, offset)
  }

  lemma NewestLiveFirstIsOrdered(rows: seq<ProviderRow>, limit: nat, offset: nat)
    requires SortedBy(rows, CreatedAt)
    ensures forall x :: x in NewestLiveFirst(rows, limit, offset) ==> IsLive(x)
    ensures SortedDescBy(NewestLiveFirst(rows, limit, offset), CreatedAt)
    ensures offset == 0 && CountWhere(rows, IsLive) <= limit ==>
      forall i :: 0 <= i < |rows| && IsLive(rows[i]) ==> rows[i] in NewestLiveFirst(rows, limit, offset)
  {
    var live := Filter(rows, IsLive);
    FilterKeepsSorted(rows, IsLive, CreatedAt);
    ReverseOfSorted(live, CreatedAt);
    PageKeepsSortedDesc(Reverse(live), limit, offset, CreatedAt);
    NewestAreLive(rows, limit, offset);
    if offset == 0 && CountWhere(rows, IsLive) <= limit {
      assert NewestLiveFirst(rows, limit, offset) == Reverse(live);
      ReverseKeepsElements(live);
    }
  }

  /** A page of the live rows holds as many rows as SQL's `LIMIT … OFFSET …` leaves of them. */
  lemma NewestLiveFirstLength(rows: seq<ProviderRow>, limit: nat, offset: nat)
    ensures var n := CountWhere(rows, IsLive);
      |NewestLiveFirst(rows, limit, offset)| == (if offset >= n then 0 else if limit < n - offset then limit else n - offset)
  {
  }

  /** A page of providers is live and newest first, and with no offset and room enough it holds
      every live provider. */
  lemma ListedAreOrdered(rows: seq<ProviderRow>, limit: nat, offset: nat, r: seq<Provider>)
    requires SortedBy(rows, CreatedAt)
    requires r == Map(NewestLiveFirst(rows, limit, offset), ToProvider)
    ensures forall i :: 0 <= i < |r| ==> r[i].deletedAt.None?
    ensures forall i, j :: 0 <= i < j < |r| ==> r[i].createdAt >= r[j].createdAt
    ensures offset == 0 && CountWhere(rows, IsLive) <= limit ==>
      forall i :: 0 <= i < |rows| && IsLive(rows[i]) ==> ToProvider(rows[i]) in r
  {
    var page := NewestLiveFirst(rows, limit, offset);
    NewestLiveFirstIsOrdered(rows, limit, offset);
    forall i | 0 <= i < |r|
      ensures r[i].deletedAt.None?
    {
      assert page[i] in page;
    }
  }

  /** Every provider on a page is a live stored row. */
  lemma ListedAreStored(rows: seq<ProviderRow>, limit: nat, offset: nat, r: seq<Provider>)
    requires r == Map(NewestLiveFirst(rows, limit, offset), ToProvider)
    ensures forall i :: 0 <= i < |r| ==> exists j :: 0 <= j < |rows| && IsLive(rows[j]) && r[i] == ToProvider(rows[j])
  {
    var page := NewestLiveFirst(rows, limit, offset);
    NewestAreLive(rows, limit, offset);
    PageIsWithin(Reverse(Filter(rows, IsLive)), limit, offset);
    ReverseKeepsElements(Filter(rows, IsLive));
    forall i | 0 <= i < |r|
      ensures exists j :: 0 <= j < |rows| && IsLive(rows[j]) && r[i] == ToProvider(rows[j])
    {
      assert page[i] in page;
      var j :| 0 <= j < |rows| && rows[j] == page[i];
    }
  }

  /** With no offset, a live provider newer than one on the page is on the page. */
  lemma ListedAreNewest(rows: seq<ProviderRow>, limit: nat, offset: nat, r: seq<Provider>)
    requires SortedBy(rows, CreatedAt)
    requires r == Map(NewestLiveFirst(rows, limit, offset), ToProvider)
    ensures offset == 0 ==> forall j, i :: (0 <= j < |rows| && IsLive(rows[j]) && 0 <= i < |r| && r[i].createdAt < rows[j].createdAt)
                                           ==> ToProvider(rows[j]) in r
  {
    var page := NewestLiveFirst(rows, limit, offset);
    forall j, i | offset == 0 && 0 <= j < |rows| && IsLive(rows[j]) && 0 <= i < |r| && r[i].createdAt < rows[j].createdAt
      ensures ToProvider(rows[j]) in r
    {
      assert page[i] in page;
      FirstPageIsNewest(rows, IsLive, CreatedAt, limit, rows[j], page[i]);
      MapKeepsMembers(page, ToProvider, rows[j]);
    }
  }

  /** One page of live providers, newest first, as `findProviderList` returns it. */
  function ProviderPage(rows: seq<ProviderRow>, limit: nat, offset: nat): (r: seq<Provider>)
    requires SortedBy(rows, CreatedAt)
    ensures |r| <= limit
    ensures forall i :: 0 <= i < |r| ==> r[i].deletedAt.None?
    ensures forall i, j :: 0 <= i < j < |r| ==> r[i].createdAt >= r[j].createdAt
    ensures offset == 0 && CountWhere(rows, IsLive) <= limit ==>
      forall i :: 0 <= i < |rows| && IsLive(rows[i]) ==> ToProvider(rows[i]) in r
    ensures var n := CountWhere(rows, IsLive);
      |r| == (if offset >= n then 0 else if limit < n - offset then limit else n - offset)
    ensures forall i :: 0 <= i < |r| ==> exists j :: 0 <= j < |rows| && IsLive(rows[j]) && r[i] == ToProvider(rows[j])
    ensures offset == 0 ==> forall j, i :: (0 <= j < |rows| && IsLive(rows[j]) && 0 <= i < |r| && r[i].createdAt < rows[j].createdAt)
                                           ==> ToProvider(rows[j]) in r
  {
    var r := Map(NewestLiveFirst(rows, limit, offset), ToProvider);
    ListedAreOrdered(rows, limit, offset, r);
    NewestLiveFirstLength(rows, limit, offset);
    ListedAreStored(rows, limit, offset, r);
    ListedAreNewest(rows, limit, offset, r);
    r
  }

  lemma NewestAreLive(rows: seq<ProviderRow>, limit: nat, offset: nat)
    ensures forall x :: x in NewestLiveFirst(rows, limit, offset) ==> IsLive(x)
  {
    var live := Filter(rows, IsLive);
    PageIsWithin(Reverse(live), limit, offset);
    ReverseKeepsElements(live);
    FilterSatisfies(rows, IsLive);
  }

  class ProviderTable {
    var rows: seq<ProviderRow>
    var nextId: int

    ghost predicate Valid()
      reads this
    {
      nextId >= 1
      && (forall i :: 0 <= i < |rows| ==> 1 <= rows[i].id < nextId)
      && (forall i, j :: 0 <= i < j < |rows| ==> rows[i].id < rows[j].id && rows[i].createdAt <= rows[j].createdAt)
    }

    predicate CanInsertAt(now: int)
      reads this
    {
      rows == [] || rows[|rows| - 1].createdAt <= now
    }

    constructor ()
      ensures Valid() && rows == [] && nextId == 1
    {
      rows, nextId := [], 1;
    }

    /** `createProvider`: stores exactly the supplied columns and returns the new row. */
    method CreateProvider(data: CreateProviderData, now: int) returns (p: Provider)
      requires Valid() && CanInsertAt(now)
      modifies this
      ensures Valid() && nextId == old(nextId) + 1
      ensures rows == old(rows) + [ProviderRow(old(nextId), data.name, data.url, data.key, data.isEnabled,
                                               data.weight, data.tpm, data.rpm, data.rpd, data.cc, now, now, None)]
      ensures p == ToProvider(rows[|rows| - 1])
    {
      var row := ProviderRow(nextId, data.name, data.url, data.key, data.isEnabled, data.weight,
                             data.tpm, data.rpm, data.rpd, data.cc, now, now, None);
      rows := rows + [row];
      nextId := nextId + 1;
      p := ToProvider(row);
    }

    /** `findProviderList(limit, offset)`: live providers, newest first, one page of them. */
    function FindProviderList(limit: nat, offset: nat): (r: seq<Provider>)
      reads this
      requires Valid()
      ensures |r| <= limit
      ensures forall i :: 0 <= i < |r| ==> r[i].deletedAt.None?
      ensures forall i, j :: 0 <= i < j < |r| ==> r[i].createdAt >= r[j].createdAt
      ensures r == ProviderPage(rows, limit, offset)
    {
      assert SortedBy(rows, CreatedAt);
      ProviderPage(rows, limit, offset)
    }

    /** `findProviderById`: deleted providers are not found. */
    function FindProviderById(id: int): (r: Option<Provider>)
      reads this
      ensures r.Some? <==> exists i :: 0 <= i < |rows| && LiveProviderWithId(rows[i], id)
      ensures r.Some? ==> r.value.id == id && r.value.deletedAt.None?
      ensures r.Some? ==> exists i :: 0 <= i < |rows| && LiveProviderWithId(rows[i], id) && r.value == ToProvider(rows[i])
    {
      match LiveIndex(rows, id)
      case Some(i) => Some(ToProvider(rows[i]))
      case None => None
    }

    /** `updateProvider`: an empty patch is a look-up; otherwise only the given fields (and
        `updatedAt`) of the live row with that id change. */
    method UpdateProvider(id: int, patch: UpdateProviderData, now: int) returns (r: Option<Provider>)
      requires Valid()
      modifies this
      ensures Valid() && nextId == old(nextId) && |rows| == |old(rows)|
      ensures patch.IsEmpty() ==> rows == old(rows) && r == old(FindProviderById(id))
      ensures !patch.IsEmpty() ==> forall i :: 0 <= i < |rows| ==>
        rows[i] == if LiveProviderWithId(old(rows)[i], id) then PatchProvider(old(rows)[i], patch, now) else old(rows)[i]
      ensures r.None? <==> old(FindProviderById(id)).None?
      ensures r.Some? ==> FindProviderById(id) == r
    {
      if patch.IsEmpty() {
        r := FindProviderById(id);
        return;
      }
      match LiveIndex(rows, id) {
        case None =>
          r := None;
        case Some(i) =>
          rows := rows[i := PatchProvider(rows[i], patch, now)];
          r := Some(ToProvider(rows[i]));
          assert LiveIndex(rows, id) == Some(i);
      }
    }

    /** `deleteProvider`: soft delete; true iff a live row existed. */
    method DeleteProvider(id: int, now: int) returns (deleted: bool)
      requires Valid()
      modifies this
      ensures Valid() && nextId == old(nextId) && |rows| == |old(rows)|
      ensures deleted <==> old(FindProviderById(id)).Some?
      ensures forall i :: 0 <= i < |rows| ==>
        rows[i] == if LiveProviderWithId(old(rows)[i], id) then old(rows)[i].(deletedAt := Some(now)) else old(rows)[i]
      ensures FindProviderById(id).None?
    {
      match LiveIndex(rows, id) {
        case None =>
          deleted := false;
        case Some(i) =>
          rows := rows[i := rows[i].(deletedAt := Some(now))];
          deleted := true;
      }
    }
  }
}
