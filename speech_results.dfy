/**
 * The filter the speech service applies to a recognition result message
 * before telling its listener: the message body is a JSON object whose
 * optional "result" array carries the transcript in its first element's
 * "text", and whose optional "reqid" names the request.
 */
module SpeechResults {
  import opened Wrappers
  import opened VoiceCommands

  /** One element of the "result" array; `NoText` when it is not an object or has no "text" (the JSON getters throw). */
  datatype ResultEntry = TextEntry(text: string) | NoText

  /** The "result" member: missing, present but not an array (the getter throws), or an array. */
  datatype ResultField = Absent | NotArray | Entries(entries: seq<ResultEntry>)

  /** A message body: `Malformed` when it does not parse as a JSON object. */
  datatype SpeechPayload = Malformed | Payload(result: ResultField, reqid: Option<string>)

  /**
   * What reaches the listener: `onSpeechResult(text, isFinal, requestId)`, then,
   * for a final result only, the classified command.
   */
  datatype SpeechResult = SpeechResult(text: string, isFinal: bool, requestId: Option<string>,
                                       command: Option<CommandEvent>)

  /** The transcript carried by a well-formed payload whose "result" array starts with a text. */
  predicate CarriesText(payload: SpeechPayload, text: string) {
    && payload.Payload? && payload.result.Entries?
    && |payload.result.entries| > 0
    && payload.result.entries[0] == TextEntry(text)
  }

  /** `parseSpeechResult`: `None` when the listener is not called. */
  function ParseSpeechResult(payload: SpeechPayload, isFinal: bool): (r: Option<SpeechResult>)
    ensures r.None? <==> || payload.Malformed? || !payload.result.Entries?
                         || payload.result.entries == [] || payload.result.entries[0] in {NoText, TextEntry("")}
    ensures r.Some? ==> CarriesText(payload, r.value.text) && r.value.isFinal == isFinal
    ensures r.Some? ==> (r.value.requestId.Some? <==> isFinal && payload.reqid.Some?)
    ensures r.Some? && r.value.requestId.Some? ==> r.value.requestId == payload.reqid
    ensures r.Some? ==> (r.value.command.Some? <==> isFinal)
    ensures r.Some? && isFinal ==> r.value.command == Some(ParseAndDispatch(r.value.text))
  {
    match payload
    case Malformed => None
    case Payload(result, reqid) =>
      if !result.Entries? then None
      else if |result.entries| == 0 then None
      else if result.entries[0].NoText? then None
      else
        var text := result.entries[0].text;
        if text == "" then None
        else
          var requestId := if isFinal && reqid.Some? then reqid else None;
          var command := if isFinal then Some(ParseAndDispatch(text)) else None;
          Some(SpeechResult(text, isFinal, requestId, command))
  }

  /** A partial result never carries a request id and never triggers command classification. */
  lemma PartialResultsAreDisplayOnly(payload: SpeechPayload)
    ensures var r := ParseSpeechResult(payload, false);
            r.Some? ==> r.value.requestId == None && r.value.command == None
  {
  }
}
