/** The per-chat dialogue state of the chat bot: aiogram's FSM context, which
    holds the current state (or none) and a dictionary of collected answers,
    plus the values the bot's handlers exchange with the API client and the
    chat. */
module Fsm {
  import opened Wrappers
  import NoteSchemas

  /** Every state of the bot's state groups. */
  datatype BotState =
    | CreateNoteWaitingForTitle | CreateNoteWaitingForContent | CreateNoteWaitingForTags
    | UpdateNoteWaitingForNoteId | UpdateNoteWaitingForTitle | UpdateNoteWaitingForContent
    | RegisterWaitingForLogin | RegisterWaitingForPassword
    | LoginWaitingForLogin | LoginWaitingForPassword
    | DeleteNoteWaitingForNoteId
    | SearchNoteWaitingForTag

  /** The bearer token the middleware obtains for the sender, if linked. */
  datatype AccessTokenResponse = AccessTokenResponse(accessToken: string)

  /** The user record the API client returns on registration or login. */
  datatype BotUser = BotUser(username: string, telegramId: Option<int>)

  /** What the bot sends to the chat. Formatting is not modelled: a shown
      note is the note itself, a search result its count and notes. */
  datatype BotReply =
    | NotAuthorised
    | AlreadyAuthorised
    | Ask(field: string)
    | NoteShown(note: NoteSchemas.NoteResponse)
    | CreateFailed
    | UpdateFailed
    | Registered
    | RegisterFailed
    | LoggedIn
    | LoginFailed
    | NoteDeleted(noteId: Option<string>)
    | DeleteFailed(noteId: Option<string>)
    | NotesFound(count: nat, notes: seq<NoteSchemas.NoteResponse>)
    | NoNotesWithTag(tag: Option<string>)

  /** How a handler ends: it answered, or it raised before answering (the
      token of a missing user was read), leaving the state as it was. */
  datatype Outcome = Answered(reply: BotReply) | Raised

  /** aiogram's FSM context for one chat. */
  class FsmContext {
    var state: Option<BotState>
    var data: map<string, Option<string>>

    /** A chat the bot has not talked to yet. */
    constructor ()
      ensures state == None && data == map[]
    {
      state := None;
      data := map[];
    }

    /** `get_data().get(key)`: the stored text, or `None` when nothing is
        stored under the key. */
    function Get(key: string): Option<string>
      reads this
    {
      if key in data then data[key] else None
    }

    /** `set_state`: the collected data is kept. */
    method SetState(s: BotState)
      modifies this
      ensures state == Some(s) && data == old(data)
    {
      state := Some(s);
    }

    /** `update_data(key=value)`: the state is kept. */
    method UpdateData(key: string, value: Option<string>)
      modifies this
      ensures data == old(data)[key := value] && state == old(state)
      ensures Get(key) == value
    {
      data := data[key := value];
    }

    /** `clear`: no state and no data. */
    method Clear()
      modifies this
      ensures state == None && data == map[]
    {
      state := None;
      data := map[];
    }
  }
}
