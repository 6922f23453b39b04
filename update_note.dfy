/** The `/update_note` dialogue (telegram_bot/handlers/update_note.py): note
    id, new title, new content, then one call to the API. */
module UpdateNoteDialogue {
  import opened Wrappers
  import opened Validation
  import opened NoteSchemas
  import opened Fsm
  import NoteApi

  /** Python's `text or None`: the empty string and `None` both become
      `None`, any other text is kept. */
  function OrNone(text: Option<string>): (r: Option<string>)
    ensures r.None? <==> text == None || text == Some("")
    ensures r.Some? ==> r == text && r.value != ""
  {
    if text.Some? && text.value != "" then text else None
  }

  /** The API call `provider_note.update_note(token, note_id, note_data)`;
      the id is the raw text typed in the id step. */
  datatype UpdateCall = UpdateCall(token: string, noteId: Option<string>, title: Option<string>, content: Option<string>)

  /** The bot's `NoteUpdate(title=..., content=...)` as sent with
      `.dict(exclude_unset=True)`: both fields were set, `None` or not, and
      `tags` never was, so it is absent. */
  function UpdatePayload(call: UpdateCall): Body
  {
    map["title" := OptStrToJson(call.title), "content" := OptStrToJson(call.content)]
  }

  /** The server reads the bot's payload as an update with no tags, so
      applying it erases the note's tags; an emptied title or content is
      written as null and the server's response then fails. */
  lemma BotUpdateClearsTags(call: UpdateCall, row: NoteApi.NoteRow, now: int)
    ensures ParseNoteUpdate(UpdatePayload(call)) == Success(NoteUpdate(call.title, call.content, None))
    ensures NoteApi.ApplyUpdate(row, ParseNoteUpdate(UpdatePayload(call)).value, now).tags == None
    ensures NoteApi.Respond(NoteApi.ApplyUpdate(row, ParseNoteUpdate(UpdatePayload(call)).value, now)).Ok?
        <==> call.title.Some? && call.content.Some?
  {
  }

  /** `/update_note`: without a user, "not authorised" and no state change;
      with one, ask for the note id. */
  method StartUpdateNote(ctx: FsmContext, user: Option<AccessTokenResponse>) returns (reply: BotReply)
    modifies ctx
    ensures ctx.data == old(ctx.data)
    ensures user.None? ==> reply == NotAuthorised && ctx.state == old(ctx.state)
    ensures user.Some? ==> reply == Ask("note_id") && ctx.state == Some(UpdateNoteWaitingForNoteId)
  {
    if user.None? {
      return NotAuthorised;
    }
    reply := Ask("note_id");
    ctx.SetState(UpdateNoteWaitingForNoteId);
  }

  /** The id step: store the raw text as `note_id`, ask for the new title. */
  method HandleNoteId(ctx: FsmContext, text: Option<string>) returns (reply: BotReply)
    requires ctx.state == Some(UpdateNoteWaitingForNoteId)
    modifies ctx
    ensures ctx.data == old(ctx.data)["note_id" := text]
    ensures ctx.state == Some(UpdateNoteWaitingForTitle)
    ensures reply == Ask("title")
  {
    ctx.UpdateData("note_id", text);
    reply := Ask("title");
    ctx.SetState(UpdateNoteWaitingForTitle);
  }

  /** The title step: store the text as `title`, ask for the new content. */
  method HandleTitle(ctx: FsmContext, text: Option<string>) returns (reply: BotReply)
    requires ctx.state == Some(UpdateNoteWaitingForTitle)
    modifies ctx
    ensures ctx.data == old(ctx.data)["title" := text]
    ensures ctx.state == Some(UpdateNoteWaitingForContent)
    ensures reply == Ask("content")
  {
    ctx.UpdateData("title", text);
    reply := Ask("content");
    ctx.SetState(UpdateNoteWaitingForContent);
  }

  /** The content step: send the stored id, the stored title and the typed
      content, each empty text turned into `None`; `updated` is what the API
      client returned. The state is cleared whatever the outcome; only a
      missing user, whose token is read for the call, raises first. */
  method HandleContent(ctx: FsmContext, text: Option<string>, user: Option<AccessTokenResponse>, updated: Option<NoteResponse>)
    returns (call: Option<UpdateCall>, outcome: Outcome)
    requires ctx.state == Some(UpdateNoteWaitingForContent)
    modifies ctx
    ensures user.None? ==>
      call == None && outcome == Raised && ctx.state == old(ctx.state) && ctx.data == old(ctx.data)
    ensures user.Some? ==>
      && call == Some(UpdateCall(user.value.accessToken, old(ctx.Get("note_id")), OrNone(old(ctx.Get("title"))), OrNone(text)))
      && outcome == Answered(if updated.Some? then NoteShown(updated.value) else UpdateFailed)
      && ctx.state == None && ctx.data == map[]
  {
    var noteId := ctx.Get("note_id");
    var title := OrNone(ctx.Get("title"));
    var content := OrNone(text);
    if user.None? {
      return None, Raised;
    }
    call := Some(UpdateCall(user.value.accessToken, noteId, title, content));
    outcome := Answered(if updated.Some? then NoteShown(updated.value) else UpdateFailed);
    ctx.Clear();
  }
}
