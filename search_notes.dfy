/** The `/search_notes` dialogue (telegram_bot/handlers/search_notes.py): a
    tag, then one call to the API. */
module SearchNotesDialogue {
  import opened Wrappers
  import opened NoteSchemas
  import opened Fsm

  /** The API call `provider_note.search_notes_by_tag(token, tag)`. */
  datatype SearchCall = SearchCall(token: string, tag: Option<string>)

  /** The reply to a search: "not found" for no result or an empty one,
      otherwise the count and the notes returned. */
  function SearchReply(tag: Option<string>, found: Option<seq<NoteResponse>>): (reply: BotReply)
    ensures reply.NotesFound? <==> found.Some? && |found.value| > 0
    ensures reply.NotesFound? ==> reply.count == |found.value| && reply.notes == found.value
    ensures !reply.NotesFound? ==> reply == NoNotesWithTag(tag)
  {
    if found.Some? && |found.value| > 0 then NotesFound(|found.value|, found.value)
    else NoNotesWithTag(tag)
  }

  /** `/search_notes`: without a user, "not authorised" and no state change;
      with one, ask for the tag. */
  method StartSearchNotes(ctx: FsmContext, user: Option<AccessTokenResponse>) returns (reply: BotReply)
    modifies ctx
    ensures ctx.data == old(ctx.data)
    ensures user.None? ==> reply == NotAuthorised && ctx.state == old(ctx.state)
    ensures user.Some? ==> reply == Ask("tag") && ctx.state == Some(SearchNoteWaitingForTag)
  {
    if user.None? {
      return NotAuthorised;
    }
    reply := Ask("tag");
    ctx.SetState(SearchNoteWaitingForTag);
  }

  /** The tag step: forward the text verbatim; `found` is what the API client
      returned. The state is cleared after the search; only a missing user,
      whose token is read for the call, raises first. */
  method HandleTag(ctx: FsmContext, text: Option<string>, user: Option<AccessTokenResponse>, found: Option<seq<NoteResponse>>)
    returns (call: Option<SearchCall>, outcome: Outcome)
    requires ctx.state == Some(SearchNoteWaitingForTag)
    modifies ctx
    ensures user.None? ==>
      call == None && outcome == Raised && ctx.state == old(ctx.state) && ctx.data == old(ctx.data)
    ensures user.Some? ==>
      && call == Some(SearchCall(user.value.accessToken, text))
      && outcome == Answered(SearchReply(text, found))
      && ctx.state == None && ctx.data == map[]
  {
    if user.None? {
      return None, Raised;
    }
    call := Some(SearchCall(user.value.accessToken, text));
    outcome := Answered(SearchReply(text, found));
    ctx.Clear();
  }
}
