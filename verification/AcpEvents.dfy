/**
 The two projections of a turn's events: the agent side turns a runtime event
 into a `session/update` payload (oxenclaw/acp/server.py), the client side turns
 the payload back into an event (oxenclaw/acp/subprocess_runtime.py).
 */
module AcpEvents {
  import opened Wrappers
  import opened Json

  datatype Stream = Output | Thought

  /** What an agent backend yields to the server. */
  datatype RuntimeEvent =
    | TextDelta(text: string, stream: Option<Stream>, tag: Option<string>)
    | ToolCall(callText: string, tag: Option<string>, callId: Option<string>, status: Option<string>, title: Option<string>)
    | Status(statusText: string, tag: Option<string>)
    | Done(stopReason: Option<string>)
    | Error(message: string)
  {
    predicate Terminal() { Done? || Error? }
  }

  /** A Python string: given, or `str(j)` of a JSON value that is not a string. */
  datatype Text = Lit(s: string) | StrOf(j: Json)

  function PyStr(j: Json): Text { if j.Str? then Lit(j.s) else StrOf(j) }

  /** What the client yields to its consumer. */
  datatype ClientEvent =
    | Delta(text: string, stream: Stream, tag: string)
    | Card(cardText: Text, tag: string, callId: Json, status: Json, title: Json)
    | Note(noteText: Text, tag: string)
    | Finished(stopReason: Json)
    | Failed(message: Text, code: Text)
  {
    predicate Terminal() { Finished? || Failed? }
  }

  const MESSAGE_CHUNK := "agent_message_chunk"
  const THOUGHT_CHUNK := "agent_thought_chunk"
  const TOOL_CALL := "tool_call"
  const TOOL_CALL_UPDATE := "tool_call_update"

  function OptStr(o: Option<string>): Json { if o.Some? then Str(o.value) else Null }

  /** `tag or default` */
  function TagOr(tag: Option<string>, default: string): string {
    if tag.Some? && tag.value != "" then tag.value else default
  }

  function WireTag(ev: RuntimeEvent): string
    requires !ev.Terminal()
  {
    match ev
    case TextDelta(_, stream, tag) => TagOr(tag, if stream == Some(Thought) then THOUGHT_CHUNK else MESSAGE_CHUNK)
    case ToolCall(_, tag, _, _, _) => TagOr(tag, TOOL_CALL_UPDATE)
    case Status(_, tag) => TagOr(tag, "status")
  }

  function TextUpdate(tag: string, text: string): Object {
    map["sessionUpdate" := Str(tag), "content" := Obj(map["type" := Str("text"), "text" := Str(text)])]
  }

  function CallUpdate(tag: string, ev: RuntimeEvent): Object
    requires ev.ToolCall?
  {
    map["sessionUpdate" := Str(tag), "toolCallId" := OptStr(ev.callId),
        "status" := OptStr(ev.status), "title" := OptStr(ev.title)]
  }

  function StatusUpdate(tag: string, text: string): Object { map["sessionUpdate" := Str(tag), "text" := Str(text)] }

  /** `_project_event` */
  function ProjectEvent(ev: RuntimeEvent): Option<Object> {
    match ev
    case TextDelta(text, _, _) => Some(TextUpdate(WireTag(ev), text))
    case ToolCall(_, _, _, _, _) => Some(CallUpdate(WireTag(ev), ev))
    case Status(text, _) => Some(StatusUpdate(WireTag(ev), text))
    case Done(_) => None
    case Error(_) => None
  }

  /** The text of a chunk's content block, when there is one. */
  function ChunkText(update: Object): Option<string> {
    var content := Or(Get(update, "content"), Obj(map[]));
    if content.Obj? && Get(content.fields, "text").Str? then Some(Get(content.fields, "text").s) else None
  }

  /** `_project_update` */
  function ProjectUpdate(update: Object): Option<ClientEvent> {
    var tag := Get(update, "sessionUpdate");
    if !tag.Str? then
      None
    else if tag.s == MESSAGE_CHUNK then
      if ChunkText(update).Some? then Some(Delta(ChunkText(update).value, Output, tag.s)) else None
    else if tag.s == THOUGHT_CHUNK then
      if ChunkText(update).Some? then Some(Delta(ChunkText(update).value, Thought, tag.s)) else None
    else if tag.s == TOOL_CALL || tag.s == TOOL_CALL_UPDATE then
      Some(Card(PyStr(Or(Or(Get(update, "title"), Get(update, "text")), Str(""))), tag.s,
                Get(update, "toolCallId"), Get(update, "status"), Get(update, "title")))
    else
      Some(Note(PyStr(Or(Or(Or(Get(update, "text"), Get(update, "summary")), Get(update, "title")), Str(""))), tag.s))
  }

  /** What the client makes of a runtime event. */
  function Relay(ev: RuntimeEvent): Option<ClientEvent> {
    match ProjectEvent(ev)
    case None => None
    case Some(update) => ProjectUpdate(update)
  }

  predicate ChunkTag(tag: string) { tag == MESSAGE_CHUNK || tag == THOUGHT_CHUNK }

  predicate CallTag(tag: string) { tag == TOOL_CALL || tag == TOOL_CALL_UPDATE }

  function TextOrEmpty(o: Option<string>): string { if o.Some? then o.value else "" }

  lemma TagsDiffer()
    ensures !CallTag(MESSAGE_CHUNK) && !CallTag(THOUGHT_CHUNK) && MESSAGE_CHUNK != THOUGHT_CHUNK
    ensures !ChunkTag("status") && !CallTag("status")
  {
    assert MESSAGE_CHUNK[6] == 'm' && THOUGHT_CHUNK[6] == 't';
    assert |TOOL_CALL| == 9 && |TOOL_CALL_UPDATE| == 16 && |MESSAGE_CHUNK| == 19 == |THOUGHT_CHUNK|;
    assert |"status"| == 6;
  }

  lemma KeysDiffer()
    ensures "sessionUpdate" != "content" && "sessionUpdate" != "toolCallId" && "sessionUpdate" != "status"
    ensures "sessionUpdate" != "title" && "sessionUpdate" != "text" && "sessionUpdate" != "summary"
    ensures "type" != "text" && "text" != "title" && "text" != "summary" && "text" != "content"
    ensures "toolCallId" != "status" && "toolCallId" != "title" && "status" != "title"
    ensures "text" != "toolCallId" && "text" != "status" && "title" != "content" && "title" != "summary"
  {
    assert |"sessionUpdate"| == 13 && |"content"| == 7 && |"toolCallId"| == 10 && |"status"| == 6;
    assert |"title"| == 5 && |"text"| == 4 == |"type"| && |"summary"| == 7;
    assert "type"[1] == 'y' && "text"[1] == 'e';
  }

  /** What the client makes of a text payload, tag by tag. */
  lemma TextPayload(tag: string, text: string)
    ensures ProjectUpdate(TextUpdate(tag, text)) ==
            if tag == MESSAGE_CHUNK then Some(Delta(text, Output, tag))
            else if tag == THOUGHT_CHUNK then Some(Delta(text, Thought, tag))
            else if CallTag(tag) then Some(Card(Lit(""), tag, Null, Null, Null))
            else Some(Note(Lit(""), tag))
  {
    KeysDiffer();
    var update := TextUpdate(tag, text);
    assert Get(update, "sessionUpdate") == Str(tag) && Get(update, "title") == Null && Get(update, "text") == Null;
    var content := Get(update, "content");
    assert "text" in content.fields && Truthy(content);
    assert ChunkText(update) == Some(text);
  }

  lemma CallPayload(tag: string, ev: RuntimeEvent)
    requires ev.ToolCall?
    ensures ProjectUpdate(CallUpdate(tag, ev)) ==
            if ChunkTag(tag) then None
            else if CallTag(tag) then
              Some(Card(Lit(TextOrEmpty(ev.title)), tag, OptStr(ev.callId), OptStr(ev.status), OptStr(ev.title)))
            else Some(Note(Lit(TextOrEmpty(ev.title)), tag))
  {
    KeysDiffer();
    TagsDiffer();
    var update := CallUpdate(tag, ev);
    assert Get(update, "sessionUpdate") == Str(tag) && Get(update, "text") == Null && Get(update, "summary") == Null;
    assert Get(update, "title") == OptStr(ev.title) && Get(update, "content") == Null;
  }

  lemma StatusPayload(tag: string, text: string)
    ensures ProjectUpdate(StatusUpdate(tag, text)) ==
            if ChunkTag(tag) then None
            else if CallTag(tag) then Some(Card(Lit(text), tag, Null, Null, Null))
            else Some(Note(Lit(text), tag))
  {
    KeysDiffer();
    TagsDiffer();
    var update := StatusUpdate(tag, text);
    assert Get(update, "sessionUpdate") == Str(tag) && Get(update, "text") == Str(text);
    assert Get(update, "title") == Null && Get(update, "summary") == Null && Get(update, "content") == Null;
  }

  /**
   A runtime event reaches the client, as one event under the same tag, unless it
   is terminal or is a non-text event under a chunk tag (its payload has no text).
   */
  lemma RelayDropsExactly(ev: RuntimeEvent)
    ensures Relay(ev).None? <==> ev.Terminal() || (ChunkTag(WireTag(ev)) && !ev.TextDelta?)
    ensures Relay(ev).Some? ==> !Relay(ev).value.Terminal() && Relay(ev).value.tag == WireTag(ev)
  {
    match ev
    case TextDelta(text, _, _) => TextPayload(WireTag(ev), text);
    case ToolCall(_, _, _, _, _) => CallPayload(WireTag(ev), ev);
    case Status(text, _) => StatusPayload(WireTag(ev), text);
    case _ =>
  }

  /**
   A text delta keeps its text and gets the stream of its tag if and only if its
   wire tag is one of the two chunk tags; under any other tag the text is lost.
   */
  lemma TextSurvives(ev: RuntimeEvent)
    requires ev.TextDelta?
    ensures (Relay(ev).Some? && Relay(ev).value.Delta?) <==> ChunkTag(WireTag(ev))
    ensures ChunkTag(WireTag(ev)) ==>
              Relay(ev).value == Delta(ev.text, if WireTag(ev) == THOUGHT_CHUNK then Thought else Output, WireTag(ev))
    ensures !ChunkTag(WireTag(ev)) && !CallTag(WireTag(ev)) ==> Relay(ev) == Some(Note(Lit(""), WireTag(ev)))
    ensures CallTag(WireTag(ev)) ==> Relay(ev) == Some(Card(Lit(""), WireTag(ev), Null, Null, Null))
    ensures ev.tag.None? || ev.tag.value == "" ==> ChunkTag(WireTag(ev))
  {
    TagsDiffer();
    TextPayload(WireTag(ev), ev.text);
  }

  /** A tool call keeps its id, status and title under a call tag; the card's text is its title. */
  lemma ToolCallSurvives(ev: RuntimeEvent)
    requires ev.ToolCall? && CallTag(WireTag(ev))
    ensures Relay(ev) == Some(Card(Lit(TextOrEmpty(ev.title)), WireTag(ev),
                                   OptStr(ev.callId), OptStr(ev.status), OptStr(ev.title)))
  {
    TagsDiffer();
    CallPayload(WireTag(ev), ev);
  }

  lemma StatusSurvives(ev: RuntimeEvent)
    requires ev.Status? && !ChunkTag(WireTag(ev)) && !CallTag(WireTag(ev))
    ensures Relay(ev) == Some(Note(Lit(ev.statusText), WireTag(ev)))
  {
    StatusPayload(WireTag(ev), ev.statusText);
  }

  /** A text delta that the backend tags as a plan arrives as an empty note. */
  lemma ForeignTagExample()
    ensures Relay(TextDelta("hello", None, Some("plan"))) == Some(Note(Lit(""), "plan"))
  {
    var ev := TextDelta("hello", None, Some("plan"));
    assert |"plan"| == 4;
    TextSurvives(ev);
  }

  /** A status that the backend tags as a message chunk does not arrive at all. */
  lemma ChunkTagExample()
    ensures Relay(Status("working", Some("agent_message_chunk"))) == None
  {
    RelayDropsExactly(Status("working", Some("agent_message_chunk")));
  }
}
