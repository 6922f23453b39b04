/** The `/create_note` dialogue (telegram_bot/handlers/create_note.py): title,
    content, then comma-separated tags, then one call to the API. */
module CreateNoteDialogue {
  import opened Wrappers
  import opened Validation
  import opened NoteSchemas
  import opened Fsm

  /** Occurrences of `c` in `s`. */
  function CountOf(s: string, c: char): nat
  {
    if s == [] then 0 else (if s[0] == c then 1 else 0) + CountOf(s[1..], c)
  }

  /** Python's `s.split(sep)` for a one-character separator: pieces are not
      trimmed and empty pieces are kept. */
  function SplitOn(s: string, sep: char): (parts: seq<string>)
    ensures |parts| >= 1
    ensures forall k :: 0 <= k < |parts| ==> sep !in parts[k]
  {
    if s == [] then [""]
    else
      var rest := SplitOn(s[1..], sep);
      if s[0] == sep then [""] + rest
      else [[s[0]] + rest[0]] + rest[1..]
  }

  /** Python's `sep.join(parts)`. */
  function JoinWith(parts: seq<string>, sep: char): string
    requires |parts| >= 1
  {
    if |parts| == 1 then parts[0] else parts[0] + [sep] + JoinWith(parts[1..], sep)
  }

  /** Joining the pieces of a split gives back the text. */
  lemma {:induction false} JoinSplit(s: string, sep: char)
    ensures JoinWith(SplitOn(s, sep), sep) == s
  {
    if s != [] {
      JoinSplit(s[1..], sep);
      var rest := SplitOn(s[1..], sep);
      if s[0] != sep {
        if |rest| == 1 {
          assert SplitOn(s, sep) == [[s[0]] + rest[0]];
        } else {
          var parts := SplitOn(s, sep);
          assert parts[1..] == rest[1..];
          assert JoinWith(parts, sep) == [s[0]] + rest[0] + [sep] + JoinWith(rest[1..], sep);
          assert JoinWith(rest, sep) == rest[0] + [sep] + JoinWith(rest[1..], sep);
        }
        assert s == [s[0]] + s[1..];
      } else {
        assert SplitOn(s, sep)[1..] == rest;
        assert s == [sep] + s[1..];
      }
    }
  }

  /** A split has one piece more than the text has separators. */
  lemma {:induction false} SplitCount(s: string, sep: char)
    ensures |SplitOn(s, sep)| == CountOf(s, sep) + 1
  {
    if s != [] {
      SplitCount(s[1..], sep);
    }
  }

  /** Splitting a piece free of separators gives that piece alone. */
  lemma {:induction false} SplitPlain(a: string, sep: char)
    requires sep !in a
    ensures SplitOn(a, sep) == [a]
  {
    if a != [] {
      SplitPlain(a[1..], sep);
      assert a == [a[0]] + a[1..];
    }
  }

  /** A separator-free head before a separator splits off as the first
      piece. */
  lemma {:induction false} SplitHead(a: string, sep: char, rest: string)
    requires sep !in a
    ensures SplitOn(a + [sep] + rest, sep) == [a] + SplitOn(rest, sep)
  {
    if a == [] {
      assert a + [sep] + rest == [sep] + rest;
      assert ([sep] + rest)[1..] == rest;
    } else {
      var s := a + [sep] + rest;
      assert s[0] == a[0];
      assert s[1..] == a[1..] + [sep] + rest;
      SplitHead(a[1..], sep, rest);
      assert [a[0]] + a[1..] == a;
    }
  }

  /** Splitting a join of separator-free pieces gives the pieces back. */
  lemma {:induction false} SplitJoin(parts: seq<string>, sep: char)
    requires |parts| >= 1
    requires forall k :: 0 <= k < |parts| ==> sep !in parts[k]
    ensures SplitOn(JoinWith(parts, sep), sep) == parts
  {
    if |parts| == 1 {
      SplitPlain(parts[0], sep);
    } else {
      SplitJoin(parts[1..], sep);
      SplitHead(parts[0], sep, JoinWith(parts[1..], sep));
      assert [parts[0]] + parts[1..] == parts;
    }
  }

  /** `message.text.split(",") if message.text else []`. */
  function ParseTags(text: Option<string>): (tags: seq<string>)
    ensures text == None || text == Some("") ==> tags == []
    ensures text.Some? && text.value != "" ==>
      |tags| == CountOf(text.value, ',') + 1 && JoinWith(tags, ',') == text.value
    ensures forall k :: 0 <= k < |tags| ==> ',' !in tags[k]
  {
    if text.Some? && text.value != "" then
      JoinSplit(text.value, ',');
      SplitCount(text.value, ',');
      SplitOn(text.value, ',')
    else []
  }

  /** What the bot's `NoteCreate` holds: the stored title and content (which
      may be missing) and the parsed tags. */
  datatype NoteDraft = NoteDraft(title: Option<string>, content: Option<string>, tags: seq<string>)

  /** The API call `provider_note.create_note(token, note_data)`. */
  datatype CreateCall = CreateCall(token: string, note: NoteDraft)

  /** The draft as the client sends it with `.dict()`. */
  function DraftJson(draft: NoteDraft): Body
  {
    map["title" := OptStrToJson(draft.title), "content" := OptStrToJson(draft.content),
        "tags" := JArr(StrsToJson(draft.tags))]
  }

  /** A draft with title and content reaches the server as the same note,
      tags included. */
  lemma DraftAccepted(draft: NoteDraft)
    requires draft.title.Some? && draft.content.Some?
    ensures ParseNoteCreate(DraftJson(draft))
         == Success(NoteCreate(draft.title.value, draft.content.value, Some(draft.tags)))
  {
    StrListRoundTrip(draft.tags);
  }

  /** `/create_note`: without a user, "not authorised" and no state change;
      with one, ask for the title. */
  method StartCreateNote(ctx: FsmContext, user: Option<AccessTokenResponse>) returns (reply: BotReply)
    modifies ctx
    ensures ctx.data == old(ctx.data)
    ensures user.None? ==> reply == NotAuthorised && ctx.state == old(ctx.state)
    ensures user.Some? ==> reply == Ask("title") && ctx.state == Some(CreateNoteWaitingForTitle)
  {
    if user.None? {
      return NotAuthorised;
    }
    reply := Ask("title");
    ctx.SetState(CreateNoteWaitingForTitle);
  }

  /** The title step: store the text as `title`, ask for the content. */
  method HandleTitle(ctx: FsmContext, text: Option<string>) returns (reply: BotReply)
    requires ctx.state == Some(CreateNoteWaitingForTitle)
    modifies ctx
    ensures ctx.data == old(ctx.data)["title" := text]
    ensures ctx.state == Some(CreateNoteWaitingForContent)
    ensures reply == Ask("content")
  {
    ctx.UpdateData("title", text);
    reply := Ask("content");
    ctx.SetState(CreateNoteWaitingForContent);
  }

  /** The content step: store the text as `content`, ask for the tags. */
  method HandleContent(ctx: FsmContext, text: Option<string>) returns (reply: BotReply)
    requires ctx.state == Some(CreateNoteWaitingForContent)
    modifies ctx
    ensures ctx.data == old(ctx.data)["content" := text]
    ensures ctx.state == Some(CreateNoteWaitingForTags)
    ensures reply == Ask("tags")
  {
    ctx.UpdateData("content", text);
    reply := Ask("tags");
    ctx.SetState(CreateNoteWaitingForTags);
  }

  /** The tags step: send a note built from the stored title and content and
      the parsed tags; `created` is what the API client returned. The state
      is cleared whether or not creation succeeded; only a missing user,
      whose token is read for the call, raises first. */
  method HandleTags(ctx: FsmContext, text: Option<string>, user: Option<AccessTokenResponse>, created: Option<NoteResponse>)
    returns (call: Option<CreateCall>, outcome: Outcome)
    requires ctx.state == Some(CreateNoteWaitingForTags)
    modifies ctx
    ensures user.None? ==>
      call == None && outcome == Raised && ctx.state == old(ctx.state) && ctx.data == old(ctx.data)
    ensures user.Some? ==>
      && call == Some(CreateCall(user.value.accessToken, NoteDraft(old(ctx.Get("title")), old(ctx.Get("content")), ParseTags(text))))
      && outcome == Answered(if created.Some? then NoteShown(created.value) else CreateFailed)
      && ctx.state == None && ctx.data == map[]
  {
    var draft := NoteDraft(ctx.Get("title"), ctx.Get("content"), ParseTags(text));
    if user.None? {
      return None, Raised;
    }
    call := Some(CreateCall(user.value.accessToken, draft));
    outcome := Answered(if created.Some? then NoteShown(created.value) else CreateFailed);
    ctx.Clear();
  }

  /** A whole dialogue from a signed-in `/create_note`: the API receives the
      typed title and content and the parsed tags, and the chat ends with no
      state. */
  method CreateNoteConversation(
    ctx: FsmContext, user: AccessTokenResponse, title: string, content: string,
    tagsText: Option<string>, created: Option<NoteResponse>)
    returns (call: Option<CreateCall>, outcome: Outcome)
    modifies ctx
    ensures call == Some(CreateCall(user.accessToken, NoteDraft(Some(title), Some(content), ParseTags(tagsText))))
    ensures outcome.Answered?
    ensures ctx.state == None && ctx.data == map[]
  {
    var _ := StartCreateNote(ctx, Some(user));
    var _ := HandleTitle(ctx, Some(title));
    var _ := HandleContent(ctx, Some(content));
    call, outcome := HandleTags(ctx, tagsText, Some(user), created);
  }
}
