/** The `/delete_note` dialogue (telegram_bot/handlers/delete_note.py): note
    id, then one call to the API. */
module DeleteNoteDialogue {
  import opened Wrappers
  import opened Fsm

  /** The API call `provider_note.delete_note(token, note_id)`. */
  datatype DeleteCall = DeleteCall(token: string, noteId: Option<string>)

  /** The reply to a delete attempt: success only when the client returned
      true; both replies repeat the id as typed. */
  function DeleteReply(noteId: Option<string>, success: bool): (reply: BotReply)
    ensures reply.NoteDeleted? <==> success
    ensures reply == NoteDeleted(noteId) || reply == DeleteFailed(noteId)
  {
    if success then NoteDeleted(noteId) else DeleteFailed(noteId)
  }

  /** `/delete_note`: without a user, "not authorised" and no state change;
      with one, ask for the note id. */
  method StartDeleteNote(ctx: FsmContext, user: Option<AccessTokenResponse>) returns (reply: BotReply)
    modifies ctx
    ensures ctx.data == old(ctx.data)
    ensures user.None? ==> reply == NotAuthorised && ctx.state == old(ctx.state)
    ensures user.Some? ==> reply == Ask("note_id") && ctx.state == Some(DeleteNoteWaitingForNoteId)
  {
    if user.None? {
      return NotAuthorised;
    }
    reply := Ask("note_id");
    ctx.SetState(DeleteNoteWaitingForNoteId);
  }

  /** The id step: forward the text verbatim; `success` is what the API
      client returned. The state is cleared after the attempt; only a
      missing user, whose token is read for the call, raises first. */
  method HandleNoteId(ctx: FsmContext, text: Option<string>, user: Option<AccessTokenResponse>, success: bool)
    returns (call: Option<DeleteCall>, outcome: Outcome)
    requires ctx.state == Some(DeleteNoteWaitingForNoteId)
    modifies ctx
    ensures user.None? ==>
      call == None && outcome == Raised && ctx.state == old(ctx.state) && ctx.data == old(ctx.data)
    ensures user.Some? ==>
      && call == Some(DeleteCall(user.value.accessToken, text))
      && outcome == Answered(DeleteReply(text, success))
      && ctx.state == None && ctx.data == map[]
  {
    if user.None? {
      return None, Raised;
    }
    call := Some(DeleteCall(user.value.accessToken, text));
    outcome := Answered(DeleteReply(text, success));
    ctx.Clear();
  }
}
