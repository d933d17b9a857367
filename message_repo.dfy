/** src/repository/message.ts: the billing-record table (`message_request`). */
module MessageRepository {
  import opened Wrappers
  import opened Seqs
  import opened Json
  import opened Domain
  import opened Transformers

  /** `CreateMessageRequestData` */
  datatype CreateMessageData = CreateMessageData(
    providerId: int, userId: int, key: string, message: Json,
    durationMs: Option<int>, costUsd: Option<real>)

  predicate LiveWithKeyString(r: MessageRow, key: string) {
    r.key == key && r.deletedAt.None?
  }

  /** The rows after an `UPDATE … WHERE id = …` that rewrites each matching row with `f`. */
  function UpdateById(rows: seq<MessageRow>, id: int, f: MessageRow -> MessageRow): (r: seq<MessageRow>)
    ensures |r| == |rows|
    ensures forall i :: 0 <= i < |rows| && rows[i].id != id ==> r[i] == rows[i]
    ensures forall i :: 0 <= i < |rows| && rows[i].id == id ==> r[i] == f(rows[i])
  {
    seq(|rows|, i requires 0 <= i < |rows| => if rows[i].id == id then f(rows[i]) else rows[i])
  }

  /** The rows after `UPDATE … SET duration_ms = …, updated_at = now WHERE id = …`. */
  function WithDuration(rows: seq<MessageRow>, id: int, durationMs: int, now: int): (r: seq<MessageRow>)
    ensures |r| == |rows|
    ensures forall i :: 0 <= i < |rows| && rows[i].id != id ==> r[i] == rows[i]
    ensures forall i :: 0 <= i < |rows| && rows[i].id == id ==>
      r[i] == rows[i].(durationMs := Some(durationMs), updatedAt := now)
  {
    UpdateById(rows, id, (m: MessageRow) => m.(durationMs := Some(durationMs), updatedAt := now))
  }

  /** The rows after `UPDATE … SET cost_usd = …, updated_at = now WHERE id = …`. */
  function WithCost(rows: seq<MessageRow>, id: int, costUsd: real, now: int): (r: seq<MessageRow>)
    ensures |r| == |rows|
    ensures forall i :: 0 <= i < |rows| && rows[i].id != id ==> r[i] == rows[i]
    ensures forall i :: 0 <= i < |rows| && rows[i].id == id ==>
      r[i] == rows[i].(costUsd := Some(costUsd), updatedAt := now)
  {
    UpdateById(rows, id, (m: MessageRow) => m.(costUsd := Some(costUsd), updatedAt := now))
  }

  class MessageTable {
    var rows: seq<MessageRow>
    var nextId: int

    ghost predicate Valid()
      reads this
    {
      nextId >= 1
      && (forall i :: 0 <= i < |rows| ==> 1 <= rows[i].id < nextId)
      && (forall i, j :: 0 <= i < j < |rows| ==> rows[i].id < rows[j].id && rows[i].createdAt <= rows[j].createdAt)
    }

    predicate CanInsertAt(now: int)
      reads this
    {
      rows == [] || rows[|rows| - 1].createdAt <= now
    }

    constructor ()
      ensures Valid() && rows == [] && nextId == 1
    {
      rows, nextId := [], 1;
    }

    /** `createMessageRequest`: stores the six supplied columns and returns the new row. */
    method CreateMessageRequest(data: CreateMessageData, now: int) returns (m: MessageRequest)
      requires Valid() && CanInsertAt(now)
      modifies this
      ensures Valid() && nextId == old(nextId) + 1
      ensures rows == old(rows) + [MessageRow(old(nextId), data.providerId, data.userId, data.key,
                                              data.message, data.durationMs, data.costUsd, now, now, None)]
      ensures m == ToMessageRequest(rows[|rows| - 1]) && m.id == old(nextId)
      ensures forall i :: 0 <= i < |old(rows)| ==> m.id != old(rows)[i].id
    {
      var row := MessageRow(nextId, data.providerId, data.userId, data.key, data.message,
                            data.durationMs, data.costUsd, now, now, None);
      rows := rows + [row];
      nextId := nextId + 1;
      m := ToMessageRequest(row);
    }

    /** `updateMessageRequestDuration`: `WHERE id = …` with no `deletedAt` filter. */
    method UpdateMessageRequestDuration(id: int, durationMs: int, now: int)
      requires Valid()
      modifies this
      ensures Valid() && nextId == old(nextId)
      ensures rows == WithDuration(old(rows), id, durationMs, now)
    {
      match FirstIndex(rows, (r: MessageRow) => r.id == id) {
        case None =>
        case Some(i) =>
          rows := rows[i := rows[i].(durationMs := Some(durationMs), updatedAt := now)];
      }
    }

    /** `updateMessageRequestCost`: `WHERE id = …` with no `deletedAt` filter. */
    method UpdateMessageRequestCost(id: int, costUsd: real, now: int)
      requires Valid()
      modifies this
      ensures Valid() && nextId == old(nextId)
      ensures rows == WithCost(old(rows), id, costUsd, now)
    {
      match FirstIndex(rows, (r: MessageRow) => r.id == id) {
        case None =>
        case Some(i) =>
          rows := rows[i := rows[i].(costUsd := Some(costUsd), updatedAt := now)];
      }
    }

    /** `findLatestMessageRequestByKey`: among the live rows with that key, one with the greatest
        `createdAt`. `ORDER BY created_at DESC LIMIT 1` leaves ties unordered; the model picks
        the most recently inserted row among them. */
    function FindLatestMessageRequestByKey(key: string): (r: Option<MessageRequest>)
      reads this
      requires Valid()
      ensures r.None? <==> forall i :: 0 <= i < |rows| ==> !LiveWithKeyString(rows[i], key)
      ensures r.Some? ==> exists i :: 0 <= i < |rows| && LiveWithKeyString(rows[i], key) && r.value == ToMessageRequest(rows[i])
      ensures r.Some? ==> forall i :: 0 <= i < |rows| && LiveWithKeyString(rows[i], key) ==>
        rows[i].createdAt <= r.value.createdAt && rows[i].id <= r.value.id
    {
      match LastIndex(rows, (m: MessageRow) => LiveWithKeyString(m, key))
      case Some(i) => Some(ToMessageRequest(rows[i]))
      case None => None
    }
  }
}
