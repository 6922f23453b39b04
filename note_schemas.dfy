/** The note schemas of the HTTP API (app/schemas/note.py): the create and
    update request bodies and the response model, with the validation FastAPI
    applies to a request body before the route handler runs. */
module NoteSchemas {
  import opened Wrappers
  import opened Validation

  /** Body of `POST /notes/`: title and content are required strings, tags an
      optional list of strings that defaults to the empty list. */
  datatype NoteCreate = NoteCreate(title: string, content: string, tags: Option<seq<string>>)

  /** Body of `PUT /notes/{id}`: every field optional; a field the client
      leaves out reads as `None`. */
  datatype NoteUpdate = NoteUpdate(title: Option<string>, content: Option<string>, tags: Option<seq<string>>)

  /** The note as the API returns it: id, title, content, tags (possibly
      null) and the two timestamps (minutes). There is no owner field. */
  datatype NoteResponse = NoteResponse(
    id: int,
    title: string,
    content: string,
    tags: Option<seq<string>>,
    createdAt: int,
    updatedAt: int)

  /** Validation of a `NoteCreate` body. */
  function ParseNoteCreate(body: Body): (r: Result<NoteCreate, Invalid>)
    ensures r.Success? <==>
      && "title" in body && StrField(body["title"]).Some?
      && "content" in body && StrField(body["content"]).Some?
      && ("tags" !in body || body["tags"] == JNull || StrListField(body["tags"]).Some?)
    ensures r.Success? ==>
      && StrField(body["title"]) == Some(r.value.title)
      && StrField(body["content"]) == Some(r.value.content)
      && r.value.tags == (if "tags" in body then StrListField(body["tags"]) else Some([]))
    ensures r.Failure? ==>
      && |r.error.fields| > 0
      && ("title" in r.error.fields <==> !("title" in body && StrField(body["title"]).Some?))
      && ("content" in r.error.fields <==> !("content" in body && StrField(body["content"]).Some?))
  {
    var title := RequiredStr(body, "title");
    var content := RequiredStr(body, "content");
    var tags := OptionalStrList(body, "tags", Some([]));
    if title.Some? && content.Some? && tags.Some? then
      Success(NoteCreate(title.value, content.value, tags.value))
    else
      Failure(Invalid(FailedField("title", title) + FailedField("content", content) + FailedField("tags", tags)))
  }

  /** Validation of a `NoteUpdate` body: no field is required. */
  function ParseNoteUpdate(body: Body): (r: Result<NoteUpdate, Invalid>)
    ensures r.Success? <==>
      && ("title" !in body || body["title"] == JNull || StrField(body["title"]).Some?)
      && ("content" !in body || body["content"] == JNull || StrField(body["content"]).Some?)
      && ("tags" !in body || body["tags"] == JNull || StrListField(body["tags"]).Some?)
    ensures r.Success? ==>
      && (r.value.title.None? <==> "title" !in body || body["title"] == JNull)
      && (r.value.title.Some? ==> StrField(body["title"]) == r.value.title)
      && (r.value.content.None? <==> "content" !in body || body["content"] == JNull)
      && (r.value.content.Some? ==> StrField(body["content"]) == r.value.content)
      && r.value.tags == (if "tags" in body then StrListField(body["tags"]) else None)
  {
    var title := OptionalStr(body, "title");
    var content := OptionalStr(body, "content");
    var tags := OptionalStrList(body, "tags", None);
    if title.Some? && content.Some? && tags.Some? then
      Success(NoteUpdate(title.value, content.value, tags.value))
    else
      Failure(Invalid(FailedField("title", title) + FailedField("content", content) + FailedField("tags", tags)))
  }

  /** A `NoteCreate` as a client serialises it with `.dict()`. */
  function NoteCreateJson(note: NoteCreate): Body
  {
    map["title" := JStr(note.title), "content" := JStr(note.content), "tags" := OptStrsToJson(note.tags)]
  }

  /** Every `NoteCreate` survives serialisation and validation unchanged. */
  lemma NoteCreateRoundTrip(note: NoteCreate)
    ensures ParseNoteCreate(NoteCreateJson(note)) == Success(note)
  {
    if note.tags.Some? {
      StrListRoundTrip(note.tags.value);
    }
  }

  /** A body without `tags` gets the empty list, not `None`. */
  lemma NoteCreateTagsDefault(title: string, content: string)
    ensures ParseNoteCreate(map["title" := JStr(title), "content" := JStr(content)])
         == Success(NoteCreate(title, content, Some([])))
  {
  }

  /** The empty body is a valid update whose every field is `None`. */
  lemma EmptyUpdateIsAllNone()
    ensures ParseNoteUpdate(map[]) == Success(NoteUpdate(None, None, None))
  {
  }
}
