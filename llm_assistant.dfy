/**
 * The `LLMAssistant` singleton: it starts chats through the chat-model service
 * and accumulates the streamed answer. A chunk with status 0 opens a new
 * answer; every other chunk extends the current one. After each chunk the
 * whole answer so far, not the chunk, goes to a registered activity that
 * implements the callback interface.
 */
module LLMAssistants {
  import opened Wrappers
  import opened Contexts

  /** The answer after one chunk. */
  function Accumulate(answer: string, chunk: string, status: int): (r: string)
    ensures status == 0 ==> r == chunk
    ensures status != 0 ==> |r| == |answer| + |chunk| && r[..|answer|] == answer && r[|answer|..] == chunk
  {
    if status == 0 then chunk else answer + chunk
  }

  datatype Chunk = Chunk(content: string, status: int)

  /** The answer after a stream of chunks, starting from `answer`. */
  function Replay(answer: string, chunks: seq<Chunk>): string {
    if chunks == [] then answer
    else
      var last := chunks[|chunks| - 1];
      Accumulate(Replay(answer, chunks[..|chunks| - 1]), last.content, last.status)
  }

  /** The chunks' contents, in order. */
  function Joined(chunks: seq<Chunk>): string {
    if chunks == [] then [] else Joined(chunks[..|chunks| - 1]) + chunks[|chunks| - 1].content
  }

  /** The position of the last chunk with status 0, if any. */
  function LastReset(chunks: seq<Chunk>): (r: Option<nat>)
    ensures r.Some? ==> r.value < |chunks| && chunks[r.value].status == 0
    ensures r.Some? ==> forall k :: r.value < k < |chunks| ==> chunks[k].status != 0
    ensures r.None? ==> forall k :: 0 <= k < |chunks| ==> chunks[k].status != 0
  {
    if chunks == [] then None
    else if chunks[|chunks| - 1].status == 0 then Some(|chunks| - 1)
    else LastReset(chunks[..|chunks| - 1])
  }

  /**
   * The answer a stream should leave: the contents of the chunks from the last
   * status-0 chunk on; with no such chunk, the earlier answer followed by all
   * the contents.
   */
  function SinceLastReset(answer: string, chunks: seq<Chunk>): string {
    match LastReset(chunks)
    case Some(i) => Joined(chunks[i..])
    case None => answer + Joined(chunks)
  }

  /** Appending a chunk with a non-zero status appends its content to what the stream should leave. */
  lemma {:induction false} SinceLastResetStep(answer: string, chunks: seq<Chunk>)
    requires chunks != [] && chunks[|chunks| - 1].status != 0
    ensures SinceLastReset(answer, chunks) ==
              SinceLastReset(answer, chunks[..|chunks| - 1]) + chunks[|chunks| - 1].content
  {
    var n := |chunks|;
    var init := chunks[..n - 1];
    assert LastReset(chunks) == LastReset(init);
    assert Joined(chunks) == Joined(init) + chunks[n - 1].content;
    match LastReset(init)
    case Some(i) =>
      var tail := chunks[i..];
      assert tail[..|tail| - 1] == init[i..];
      assert Joined(tail) == Joined(init[i..]) + chunks[n - 1].content;
    case None =>
  }

  /** The answer is what the stream should leave, whatever the earlier answer. */
  lemma {:induction false} AnswerSinceLastReset(answer: string, chunks: seq<Chunk>)
    ensures Replay(answer, chunks) == SinceLastReset(answer, chunks)
  {
    if chunks != [] {
      var n := |chunks|;
      var last := chunks[n - 1];
      if last.status == 0 {
        assert LastReset(chunks) == Some(n - 1);
        assert chunks[n - 1..] == [last];
        assert [last][..0] == [];
        assert Joined([last]) == last.content;
      } else {
        AnswerSinceLastReset(answer, chunks[..n - 1]);
        SinceLastResetStep(answer, chunks);
      }
    }
  }

  /** Chunks ("Hi", 0) then (" there", 1) leave "Hi there", whatever came before. */
  lemma HiThere(answer: string)
    ensures Replay(answer, [Chunk("Hi", 0), Chunk(" there", 1)]) == "Hi there"
  {
    assert [Chunk("Hi", 0), Chunk(" there", 1)][..1] == [Chunk("Hi", 0)];
    assert [Chunk("Hi", 0)][..0] == [];
  }

  class LLMAssistant {
    const registration: Registration
    var answer: string
    var effects: seq<Effect>

    constructor (app: Context)
      ensures fresh(registration) && registration.app == app
      ensures registration.activityContext == null && registration.serviceContext == null
      ensures answer == "" && effects == []
    {
      registration := new Registration(app);
      answer, effects := "", [];
    }

    /** `startChat`: asks the chat-model service, through the current context, to answer `msg`. */
    method StartChat(msg: string)
      modifies this`effects
      ensures effects == old(effects) + [StartService(registration.Current(), StartLLMAssistant(msg))]
    {
      var via := registration.Current();
      effects := effects + [StartService(via, StartLLMAssistant(msg))];
    }

    /** `onLLMResult`: folds the chunk into the answer and hands the whole answer on with the chunk's status. */
    method OnLLMResult(result: string, status: int)
      modifies this`answer, this`effects
      ensures answer == Accumulate(old(answer), result, status)
      ensures var target := registration.CallbackTarget(LLMCallback);
              effects == old(effects) + (if target == null then [] else [Deliver(target, LLMCallback, answer, status)])
    {
      if status == 0 {
        answer := result;
      } else {
        answer := answer + result;
      }
      var target := registration.activityContext;
      if target != null && LLMCallback in target.callbacks {
        effects := effects + [Deliver(target, LLMCallback, answer, status)];
      }
    }
  }

  /** A streamed answer reaching a chat screen: the screen sees the answer grow, not the chunks. */
  method StreamToScreen()
  {
    var app := new Context({});
    var screen := new Context({LLMCallback});
    var assistant := new LLMAssistant(app);
    assistant.registration.Register(screen);
    assistant.OnLLMResult("Hi", 0);
    assistant.OnLLMResult(" there", 1);
    assert assistant.answer == "Hi there";
    assert assistant.effects == [Deliver(screen, LLMCallback, "Hi", 0), Deliver(screen, LLMCallback, "Hi there", 1)];
    assistant.OnLLMResult("Bye", 0);
    assert assistant.answer == "Bye";
  }
}
