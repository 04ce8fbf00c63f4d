/**
 * The tool-call protocol between the chat model and the reader: the catalog of
 * tools offered to the model, the wire form of a call's arguments (a JSON
 * object of strings), and the dispatch of a call to a read-aloud action.
 */
module ToolCalls {
  import opened Wrappers

  /**
   * A JSON element. `JLiteral` is a JSON primitive other than null, with its
   * text content and whether it was written as a string; JSON null's content
   * is the text "null".
   */
  datatype Json =
    | JNull
    | JLiteral(content: string, isString: bool)
    | JObject(members: map<string, Json>)
    | JArray(items: seq<Json>)

  /** The decoder the arguments serializer is handed: the JSON one, or any other format. */
  datatype Decoder = JsonDecoder | OtherDecoder

  datatype DecodeError =
    | JsonOnly        // the serializer only works with the JSON format
    | NotAPrimitive   // an argument's value is an object or an array

  predicate IsPrimitive(e: Json) {
    e.JNull? || e.JLiteral?
  }

  /** `jsonPrimitive.content` of a primitive. */
  function Content(e: Json): string
    requires IsPrimitive(e)
  {
    if e.JNull? then "null" else e.content
  }

  /**
   * `ArgumentsAsObjectSerializer.deserialize`: an object becomes the map of its
   * members' primitive contents; every other element becomes the empty map.
   */
  function DecodeArguments(decoder: Decoder, element: Json): (r: Result<map<string, string>, DecodeError>)
    ensures decoder.OtherDecoder? <==> r == Err(JsonOnly)
    ensures decoder.JsonDecoder? && !element.JObject? ==> r == Ok(map[])
    ensures decoder.JsonDecoder? && element.JObject? ==>
              (r.Ok? <==> forall key :: key in element.members ==> IsPrimitive(element.members[key]))
    ensures r.Ok? && element.JObject? ==>
              && r.value.Keys == element.members.Keys
              && forall key :: key in r.value ==> r.value[key] == Content(element.members[key])
  {
    if decoder.OtherDecoder? then Err(JsonOnly)
    else match element
      case JObject(members) =>
        if forall key :: key in members ==> IsPrimitive(members[key]) then
          Ok(map key | key in members :: Content(members[key]))
        else Err(NotAPrimitive)
      case _ => Ok(map[])
  }

  /** `ArgumentsAsObjectSerializer.serialize`: an object whose members are JSON strings. */
  function EncodeArguments(arguments: map<string, string>): (e: Json)
    ensures e.JObject? && e.members.Keys == arguments.Keys
    ensures forall key :: key in e.members ==> e.members[key] == JLiteral(arguments[key], true)
  {
    JObject(map key | key in arguments :: JLiteral(arguments[key], true))
  }

  /** Decoding what was encoded gives back the same arguments. */
  lemma ArgumentsRoundTrip(arguments: map<string, string>)
    ensures DecodeArguments(JsonDecoder, EncodeArguments(arguments)) == Ok(arguments)
  {
    var decoded := DecodeArguments(JsonDecoder, EncodeArguments(arguments));
    assert decoded.Ok?;
    assert decoded.value == arguments;
  }

  /** A JSON null member decodes to the text "null", not to a missing argument. */
  lemma NullMemberIsText(key: string)
    ensures DecodeArguments(JsonDecoder, JObject(map[key := JNull])) == Ok(map[key := "null"])
  {
    var decoded := DecodeArguments(JsonDecoder, JObject(map[key := JNull]));
    assert decoded.value == map[key := "null"];
  }

  /** A call the model asks for: the tool name and its arguments. */
  datatype ToolItem = ToolItem(name: string, arguments: map<string, string>)

  /**
   * A `ToolItem` from its two JSON members; the arguments member may be
   * missing, and then the arguments are the empty map.
   */
  function DecodeToolItem(name: string, arguments: Option<Json>): (r: Result<ToolItem, DecodeError>)
    ensures arguments.None? ==> r == Ok(ToolItem(name, map[]))
    ensures arguments.Some? ==>
              match DecodeArguments(JsonDecoder, arguments.value)
              case Ok(decoded) => r == Ok(ToolItem(name, decoded))
              case Err(error) => r == Err(error)
  {
    match arguments
    case None => Ok(ToolItem(name, map[]))
    case Some(element) =>
      match DecodeArguments(JsonDecoder, element)
      case Ok(decoded) => Ok(ToolItem(name, decoded))
      case Err(error) => Err(error)
  }

  /** A call whose arguments were encoded decodes back to the same name and arguments. */
  lemma ToolItemRoundTrip(name: string, arguments: map<string, string>)
    ensures DecodeToolItem(name, Some(EncodeArguments(arguments))) == Ok(ToolItem(name, arguments))
  {
    ArgumentsRoundTrip(arguments);
  }

  // ---------------------------------------------------------------------------
  // The catalog
  // ---------------------------------------------------------------------------

  const READ_ALOUD_START: string := "ReadAloudStart"
  const READ_ALOUD_PAUSE: string := "ReadAloudPause"
  const READ_ALOUD_RESUME: string := "ReadAloudResume"
  const READ_ALOUD_STOP: string := "ReadAloudStop"
  const READ_ALOUD_PREV_CHAPTER: string := "ReadAloudPrevChapter"
  const READ_ALOUD_NEXT_CHAPTER: string := "ReadAloudNextChapter"
  const READ_ALOUD_PREV_PARAGRAPH: string := "ReadAloudPrevParagraph"
  const READ_ALOUD_NEXT_PARAGRAPH: string := "ReadAloudNextParagraph"

  /** The parameter schema every tool shares: an object with no properties. */
  const EMPTY_PARAMS: string := "{\"type\":\"object\",\"properties\":{}}"

  /** One catalog entry: the `name`, `description` and `parameters` of its map. */
  datatype ToolDef = ToolDef(name: string, description: string, parameters: string)

  const TOOL_DEFS: seq<ToolDef> := [
    ToolDef(READ_ALOUD_START, "书籍开始朗读", EMPTY_PARAMS),
    ToolDef(READ_ALOUD_PAUSE, "书籍暂停朗读", EMPTY_PARAMS),
    ToolDef(READ_ALOUD_RESUME, "书籍恢复朗读", EMPTY_PARAMS),
    ToolDef(READ_ALOUD_STOP, "书籍停止朗读", EMPTY_PARAMS),
    ToolDef(READ_ALOUD_PREV_CHAPTER, "书籍朗读上一章节", EMPTY_PARAMS),
    ToolDef(READ_ALOUD_NEXT_CHAPTER, "书籍朗读下一章节", EMPTY_PARAMS),
    ToolDef(READ_ALOUD_PREV_PARAGRAPH, "书籍朗读上一个段落", EMPTY_PARAMS),
    ToolDef(READ_ALOUD_NEXT_PARAGRAPH, "书籍朗读下一个段落", EMPTY_PARAMS)
  ]

  // ---------------------------------------------------------------------------
  // Dispatch
  // ---------------------------------------------------------------------------

  /** What a call does to the reader. */
  datatype Action =
    | Play | Pause | Resume | Stop        // ReadAloud.play / pause / resume / stop
    | PrevParagraph | NextParagraph       // ReadAloud.prevParagraph / nextParagraph
    | PrevChapter | NextChapter           // ReadBook.moveToPrevChapter / moveToNextChapter

  /** The tool that asks for an action. */
  function ToolFor(action: Action): string {
    match action
    case Play => READ_ALOUD_START
    case Pause => READ_ALOUD_PAUSE
    case Resume => READ_ALOUD_RESUME
    case Stop => READ_ALOUD_STOP
    case PrevParagraph => READ_ALOUD_PREV_PARAGRAPH
    case NextParagraph => READ_ALOUD_NEXT_PARAGRAPH
    case PrevChapter => READ_ALOUD_PREV_CHAPTER
    case NextChapter => READ_ALOUD_NEXT_CHAPTER
  }

  /** `executeToolCall`: the action the call's name selects; an unknown name does nothing. */
  function ExecuteToolCall(call: ToolItem): (r: Option<Action>)
    ensures r.Some? ==> call.name == ToolFor(r.value)
    ensures r.None? ==> forall action :: call.name != ToolFor(action)
  {
    if call.name == READ_ALOUD_START then Some(Play)
    else if call.name == READ_ALOUD_PAUSE then Some(Pause)
    else if call.name == READ_ALOUD_RESUME then Some(Resume)
    else if call.name == READ_ALOUD_STOP then Some(Stop)
    else if call.name == READ_ALOUD_PREV_PARAGRAPH then Some(PrevParagraph)
    else if call.name == READ_ALOUD_NEXT_PARAGRAPH then Some(NextParagraph)
    else if call.name == READ_ALOUD_PREV_CHAPTER then Some(PrevChapter)
    else if call.name == READ_ALOUD_NEXT_CHAPTER then Some(NextChapter)
    else None
  }

  /** The eight tool names are pairwise distinct. */
  lemma ToolNamesDistinct()
    ensures forall a, b :: ToolFor(a) == ToolFor(b) ==> a == b
  {
  }

  /** Dispatch and the tool for an action are inverse: a call does `action` exactly when it names its tool. */
  lemma DispatchSelectsNamedAction(call: ToolItem, action: Action)
    ensures ExecuteToolCall(call) == Some(action) <==> call.name == ToolFor(action)
  {
    ToolNamesDistinct();
  }

  /** The arguments never influence dispatch. */
  lemma DispatchIgnoresArguments(call: ToolItem, arguments: map<string, string>)
    ensures ExecuteToolCall(call) == ExecuteToolCall(ToolItem(call.name, arguments))
  {
  }

  /** The action each catalog entry stands for, in catalog order. */
  const CATALOG_ACTIONS: seq<Action> :=
    [Play, Pause, Resume, Stop, PrevChapter, NextChapter, PrevParagraph, NextParagraph]

  /** Where an action sits in the catalog. */
  function CatalogIndex(action: Action): (i: nat)
    ensures i < |CATALOG_ACTIONS| && CATALOG_ACTIONS[i] == action
  {
    match action
    case Play => 0 case Pause => 1 case Resume => 2 case Stop => 3
    case PrevChapter => 4 case NextChapter => 5 case PrevParagraph => 6 case NextParagraph => 7
  }

  lemma CatalogNames()
    ensures |TOOL_DEFS| == |CATALOG_ACTIONS| == 8
    ensures forall i :: 0 <= i < 8 ==> TOOL_DEFS[i].name == ToolFor(CATALOG_ACTIONS[i])
  {
  }

  /** The catalog has eight entries with pairwise distinct names, all with the empty parameter schema. */
  lemma CatalogShape()
    ensures |TOOL_DEFS| == 8
    ensures forall i, j :: 0 <= i < j < |TOOL_DEFS| ==> TOOL_DEFS[i].name != TOOL_DEFS[j].name
    ensures forall i :: 0 <= i < |TOOL_DEFS| ==> TOOL_DEFS[i].parameters == EMPTY_PARAMS
  {
    CatalogNames();
    ToolNamesDistinct();
    assert forall i, j :: 0 <= i < j < 8 ==> CATALOG_ACTIONS[i] != CATALOG_ACTIONS[j];
  }

  /**
   * The catalog and dispatch agree: every action is offered, and every entry
   * offered dispatches to the action of that entry's tool.
   */
  lemma CatalogMatchesDispatch()
    ensures forall action :: TOOL_DEFS[CatalogIndex(action)].name == ToolFor(action)
    ensures forall i :: 0 <= i < |TOOL_DEFS| ==>
              ExecuteToolCall(ToolItem(TOOL_DEFS[i].name, map[])) == Some(CATALOG_ACTIONS[i])
  {
    CatalogNames();
    forall i | 0 <= i < |TOOL_DEFS|
      ensures ExecuteToolCall(ToolItem(TOOL_DEFS[i].name, map[])) == Some(CATALOG_ACTIONS[i])
    {
      DispatchSelectsNamedAction(ToolItem(TOOL_DEFS[i].name, map[]), CATALOG_ACTIONS[i]);
    }
  }

  /** A name outside the catalog does nothing. */
  lemma UnknownToolDoesNothing(call: ToolItem)
    requires forall i :: 0 <= i < |TOOL_DEFS| ==> call.name != TOOL_DEFS[i].name
    ensures ExecuteToolCall(call) == None
  {
    CatalogNames();
    forall action
      ensures ExecuteToolCall(call) != Some(action)
    {
      DispatchSelectsNamedAction(call, action);
      var i := CatalogIndex(action);
    }
  }
}
