/** The note routes of the HTTP API (app/api/note.py) over the `notes` table
    (app/models/note.py). The table is a map from id to row plus the next id
    the database will hand out; each route is one atomic step. Clock readings
    and store failures are parameters. */
module NoteApi {
  import opened Wrappers
  import opened Http
  import opened NoteSchemas

  /** A row of the `notes` table. Title and content are nullable columns, and
      the update route can write `None` into them. */
  datatype NoteRow = NoteRow(
    id: int,
    title: Option<string>,
    content: Option<string>,
    tags: Option<seq<string>>,
    createdAt: int,
    updatedAt: int)

  const CreateErrorDetail := "Ошибка при создании заметки"
  const ReadErrorDetail := "Ошибка при получении заметки"
  const UpdateErrorDetail := "Ошибка при обновлении заметки"
  const DeleteErrorDetail := "Ошибка при удалении заметки"
  const DeletedDetail := "Заметка успешно удалена"

  /** The row `create_note` inserts: the request's fields and two separate
      clock readings, the first for `created_at`, the second for
      `updated_at`. */
  function NewRow(id: int, note: NoteCreate, createdNow: int, updatedNow: int): NoteRow
  {
    NoteRow(id, Some(note.title), Some(note.content), note.tags, createdNow, updatedNow)
  }

  /** The row after `update_note`: every field of the update is written,
      `None` included, then `updated_at` is set. */
  function ApplyUpdate(row: NoteRow, note: NoteUpdate, now: int): NoteRow
  {
    row.(title := note.title, content := note.content, tags := note.tags, updatedAt := now)
  }

  /** The response model applied to a row: it fails, outside the route's
      `try`, when the title or the content is null. */
  function ToResponse(row: NoteRow): (r: Option<NoteResponse>)
    ensures r.Some? <==> row.title.Some? && row.content.Some?
    ensures r.Some? ==>
      && r.value.id == row.id && Some(r.value.title) == row.title && Some(r.value.content) == row.content
      && r.value.tags == row.tags && r.value.createdAt == row.createdAt && r.value.updatedAt == row.updatedAt
  {
    if row.title.Some? && row.content.Some? then
      Some(NoteResponse(row.id, row.title.value, row.content.value, row.tags, row.createdAt, row.updatedAt))
    else None
  }

  /** What the client receives when a route returns a row: the response, or
      status 500 when the response model rejects the row. */
  function Respond(row: NoteRow): (r: Reply<NoteResponse>)
    ensures r.Ok? <==> ToResponse(row).Some?
    ensures r.Ok? ==> ToResponse(row) == Some(r.body)
    ensures r.HttpError? ==> r == HttpError(500, InternalServerError)
  {
    match ToResponse(row)
    case Some(resp) => Ok(resp)
    case None => HttpError(500, InternalServerError)
  }

  /** A freshly created note reads back with the request's title, content
      and tags, and with the two clock readings as its timestamps; when the
      clock did not step back between them, it was not updated before it
      was created. */
  lemma CreatedRowReadsBack(id: int, note: NoteCreate, createdNow: int, updatedNow: int)
    ensures Respond(NewRow(id, note, createdNow, updatedNow))
         == Ok(NoteResponse(id, note.title, note.content, note.tags, createdNow, updatedNow))
    ensures createdNow <= updatedNow ==>
      NewRow(id, note, createdNow, updatedNow).createdAt <= NewRow(id, note, createdNow, updatedNow).updatedAt
  {
  }

  /** An update keeps the row's id and creation time, stamps the update time,
      and keeps nothing else of the old row: two rows with the same id and
      creation time end up identical. */
  lemma UpdateOverwritesAllFields(row1: NoteRow, row2: NoteRow, note: NoteUpdate, now: int)
    requires row1.id == row2.id && row1.createdAt == row2.createdAt
    ensures ApplyUpdate(row1, note, now) == ApplyUpdate(row2, note, now)
    ensures ApplyUpdate(row1, note, now).id == row1.id
    ensures ApplyUpdate(row1, note, now).createdAt == row1.createdAt
    ensures ApplyUpdate(row1, note, now).updatedAt == now
  {
  }

  /** An update whose title or content is `None` leaves a row that the
      response model rejects, so that route and every later read answer 500;
      with both present, the response carries exactly the update's values. */
  lemma UpdateResponseValid(row: NoteRow, note: NoteUpdate, now: int)
    ensures Respond(ApplyUpdate(row, note, now)).Ok? <==> note.title.Some? && note.content.Some?
    ensures note.title.Some? && note.content.Some? ==>
      Respond(ApplyUpdate(row, note, now))
        == Ok(NoteResponse(row.id, note.title.value, note.content.value, note.tags, row.createdAt, now))
  {
  }

  /** Applying the same update twice at the same instant is applying it once. */
  lemma UpdateIdempotent(row: NoteRow, note: NoteUpdate, now: int)
    ensures ApplyUpdate(ApplyUpdate(row, note, now), note, now) == ApplyUpdate(row, note, now)
  {
  }

  /** The `notes` table. */
  class NoteTable {
    var rows: map<int, NoteRow>
    var nextId: int

    /** Ids are positive, below the next id to hand out, and stored in their
        rows. */
    ghost predicate Valid()
      reads this
    {
      && 1 <= nextId
      && forall id :: id in rows ==> 1 <= id < nextId && rows[id].id == id
    }

    /** An empty table whose first id is 1. */
    constructor ()
      ensures Valid() && rows == map[] && nextId == 1
    {
      rows := map[];
      nextId := 1;
    }

    /** `create_note`: inserts one row under a fresh id. Any failure answers
        500 with the creation-error detail; a failure after the commit
        leaves the row inserted. */
    method Create(note: NoteCreate, createdNow: int, updatedNow: int, fault: StoreFault) returns (r: Reply<NoteResponse>)
      requires Valid()
      modifies this
      ensures Valid()
      ensures old(nextId) !in old(rows)
      ensures fault == FailsBeforeCommit ==> rows == old(rows) && nextId == old(nextId)
      ensures fault != FailsBeforeCommit ==>
        rows == old(rows)[old(nextId) := NewRow(old(nextId), note, createdNow, updatedNow)] && nextId == old(nextId) + 1
      ensures fault == NoFault ==> r == Ok(NoteResponse(old(nextId), note.title, note.content, note.tags, createdNow, updatedNow))
      ensures fault != NoFault ==> r == HttpError(500, CreateErrorDetail)
    {
      if fault == FailsBeforeCommit {
        return HttpError(500, CreateErrorDetail);
      }
      var id := nextId;
      rows := rows[id := NewRow(id, note, createdNow, updatedNow)];
      nextId := nextId + 1;
      if fault == FailsAfterCommit {
        return HttpError(500, CreateErrorDetail);
      }
      CreatedRowReadsBack(id, note, createdNow, updatedNow);
      r := Respond(rows[id]);
    }

    /** `read_note`: the stored row, unchanged. A missing id raises 404
        inside the `try`, which the blanket handler turns into 500. */
    method Read(noteId: int, fault: bool) returns (r: Reply<NoteResponse>)
      requires Valid()
      ensures r.Ok? <==> !fault && noteId in rows && rows[noteId].title.Some? && rows[noteId].content.Some?
      ensures r.Ok? ==> ToResponse(rows[noteId]) == Some(r.body) && r.body.id == noteId
      ensures fault || noteId !in rows ==> r == HttpError(500, ReadErrorDetail)
      ensures !fault && noteId in rows && !r.Ok? ==> r == HttpError(500, InternalServerError)
    {
      if fault || noteId !in rows {
        return HttpError(500, ReadErrorDetail);
      }
      r := Respond(rows[noteId]);
    }

    /** `update_note`: overwrites title, content and tags with the update's
        values, `None` included, and stamps `updated_at`; every other row is
        unchanged. A missing id or a failure answers 500 with the
        update-error detail. */
    method Update(noteId: int, note: NoteUpdate, now: int, fault: StoreFault) returns (r: Reply<NoteResponse>)
      requires Valid()
      modifies this
      ensures Valid() && nextId == old(nextId)
      ensures noteId !in old(rows) || fault == FailsBeforeCommit ==> rows == old(rows)
      ensures noteId in old(rows) && fault != FailsBeforeCommit ==>
        rows == old(rows)[noteId := ApplyUpdate(old(rows)[noteId], note, now)]
      ensures noteId !in old(rows) || fault != NoFault ==> r == HttpError(500, UpdateErrorDetail)
      ensures noteId in old(rows) && fault == NoFault ==> r == Respond(rows[noteId])
    {
      if fault == FailsBeforeCommit || noteId !in rows {
        return HttpError(500, UpdateErrorDetail);
      }
      rows := rows[noteId := ApplyUpdate(rows[noteId], note, now)];
      if fault == FailsAfterCommit {
        return HttpError(500, UpdateErrorDetail);
      }
      r := Respond(rows[noteId]);
    }

    /** `delete_note`: removes exactly that row. A missing id or a failure
        leaves the table unchanged and answers 500 with the delete-error
        detail. */
    method Delete(noteId: int, fault: bool) returns (r: Reply<string>)
      requires Valid()
      modifies this
      ensures Valid() && nextId == old(nextId)
      ensures r.Ok? <==> !fault && noteId in old(rows)
      ensures r.Ok? ==> rows == old(rows) - {noteId} && r.body == DeletedDetail
      ensures !r.Ok? ==> rows == old(rows) && r == HttpError(500, DeleteErrorDetail)
    {
      if fault || noteId !in rows {
        return HttpError(500, DeleteErrorDetail);
      }
      rows := rows - {noteId};
      r := Ok(DeletedDetail);
    }
  }

  /** Deleting the same id twice: the first call succeeds, the second finds
      nothing and answers 500. */
  method DeleteTwice(table: NoteTable, noteId: int) returns (first: Reply<string>, second: Reply<string>)
    requires table.Valid() && noteId in table.rows
    modifies table
    ensures first == Ok(DeletedDetail)
    ensures second == HttpError(500, DeleteErrorDetail)
    ensures table.rows == old(table.rows) - {noteId}
  {
    first := table.Delete(noteId, false);
    second := table.Delete(noteId, false);
  }
}
