/**
 * The chat-model service's session gate. Each accepted message is sent to the
 * model under a fresh user tag; while an answer is streaming no new message
 * is sent. Result chunks carrying another tag than the current one are
 * dropped; the others go to the `LLMAssistant` singleton, and the chunk with
 * status 2 (the end of the answer) or any error reopens the gate.
 *
 * The model SDK is a parameter: `reply` is what `arun` returns for a message.
 */
module LLMSessions {
  import opened JvmInts
  import opened Contexts
  import opened LLMAssistants

  /** The status of the chunk that ends an answer. */
  const STATUS_END: int := 2

  /** One `arun(msg, tag)` call and what it returned. */
  datatype Request = Request(message: string, tag: int, reply: int)

  /** The tag of the `n`-th request (from 1): `userTag` starts at 0 and is incremented before each. */
  function TagOf(n: nat): (t: int)
    ensures -0x8000_0000 <= t < 0x8000_0000
  {
    Wrap32(n)
  }

  /** Of any 2^32 consecutive requests, no two share a tag. */
  lemma TagsDistinct(i: nat, j: nat)
    requires i < j < i + 0x1_0000_0000
    ensures TagOf(i) != TagOf(j)
  {
    WrapInjective(i, j);
  }

  class LLMSession {
    var userTag: int
    var sessionFinished: bool
    /** Every `arun` call made, in order. */
    var requests: seq<Request>
    const assistant: LLMAssistant

    /**
     * `userTag` is the tag of the last request, the k-th request carried the
     * k-th tag, and an unfinished session has an accepted last request.
     */
    ghost predicate Valid()
      reads this
    {
      && userTag == TagOf(|requests|)
      && (forall k :: 0 <= k < |requests| ==> requests[k].tag == TagOf(k + 1))
      && (!sessionFinished ==> requests != [] && requests[|requests| - 1].reply == 0)
    }

    constructor (assistant: LLMAssistant)
      ensures Valid()
      ensures userTag == 0 && sessionFinished && requests == [] && this.assistant == assistant
    {
      userTag, sessionFinished, requests := 0, true, [];
      this.assistant := assistant;
    }

    /**
     * `runLLM`: an empty message, or one arriving while an answer is still
     * streaming, is dropped; otherwise the tag is incremented and the message
     * sent, and the gate closes only if the model accepted it.
     */
    method RunLLM(msg: string, reply: int)
      requires Valid()
      modifies this`userTag, this`sessionFinished, this`requests
      ensures Valid()
      ensures |msg| < 1 || !old(sessionFinished) ==>
                userTag == old(userTag) && sessionFinished == old(sessionFinished) && requests == old(requests)
      ensures |msg| >= 1 && old(sessionFinished) ==>
                && userTag == Wrap32(old(userTag) + 1)
                && requests == old(requests) + [Request(msg, userTag, reply)]
                && sessionFinished == (reply != 0)
    {
      if |msg| < 1 {
        return;
      }
      if !sessionFinished {
        return;
      }
      WrapSucc(|requests|);
      userTag := Wrap32(userTag + 1);
      requests := requests + [Request(msg, userTag, reply)];
      if reply != 0 {
        return;
      }
      sessionFinished := false;
    }

    /**
     * `onLLMResult`: a chunk for another tag is dropped; a chunk for the
     * current tag goes to the assistant, and the end chunk reopens the gate.
     */
    method OnLLMResult(content: string, status: int, tag: int)
      requires Valid()
      modifies this`sessionFinished, assistant
      ensures Valid() && requests == old(requests) && userTag == old(userTag)
      ensures tag != userTag ==> sessionFinished == old(sessionFinished) && unchanged(assistant)
      ensures tag == userTag ==>
                && sessionFinished == (old(sessionFinished) || status == STATUS_END)
                && assistant.answer == Accumulate(old(assistant.answer), content, status)
                && var target := assistant.registration.CallbackTarget(LLMCallback);
                   assistant.effects == old(assistant.effects) +
                     (if target == null then [] else [Deliver(target, LLMCallback, assistant.answer, status)])
    {
      if userTag == tag {
        if status == STATUS_END {
          sessionFinished := true;
        }
        assistant.OnLLMResult(content, status);
      }
    }

    /** `onLLMError`: whatever request it concerns, the gate reopens. */
    method OnLLMError()
      requires Valid()
      modifies this`sessionFinished
      ensures Valid() && sessionFinished
    {
      sessionFinished := true;
    }
  }

  /** A late chunk of an earlier request never matches the current tag, for fewer than 2^32 requests. */
  lemma StaleChunkDropped(requests: seq<Request>, k: nat)
    requires |requests| < 0x1_0000_0000
    requires forall i :: 0 <= i < |requests| ==> requests[i].tag == TagOf(i + 1)
    requires k + 1 < |requests|
    ensures requests[k].tag != TagOf(|requests|)
  {
    TagsDistinct(k + 1, |requests|);
  }

  /**
   * One exchange: a message is sent, a second one is refused while the answer
   * streams, a late chunk of nothing current is dropped, and the end chunk
   * reopens the gate.
   */
  method OneExchange()
  {
    var app := new Context({});
    var assistant := new LLMAssistant(app);
    var session := new LLMSession(assistant);
    session.RunLLM("", 0);
    assert session.requests == [];
    session.RunLLM("你好", 0);
    assert session.userTag == 1 && !session.sessionFinished;
    session.RunLLM("再见", 0);
    assert |session.requests| == 1;
    session.OnLLMResult("stale", 1, 0);
    assert assistant.answer == "";
    session.OnLLMResult("Hi", 0, 1);
    session.OnLLMResult(" there", 2, 1);
    assert session.sessionFinished && assistant.answer == "Hi there";
    session.RunLLM("再见", 5);
    assert session.userTag == 2 && session.sessionFinished;
  }
}
