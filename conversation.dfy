/**
 * Driving a conversation: `Demux` dispatching a batch to an adapter, the blanket
 * adapter over any conversation, and the native callback Linux-PAM invokes
 * (`OwnedConversation::wrapper_callback`).
 */
module Conversations {
  import opened Wrappers
  import opened Constants
  import opened Helper
  import opened Exchanges
  import opened Questions
  import opened AnswerArray

  /** What `Demux` does with one message: the adapter method of its variant answers it. */
  function DemuxOne(adapter: Adapter, x: OwnedExchange): (r: OwnedExchange)
    ensures SameMessage(x, r)
    ensures x.HasDoneCell() ==> r.done == Ok(())
    ensures x.Prompt? ==> r.text == adapter.prompt(x.question)
    ensures x.MaskedPrompt? ==> r.text == adapter.maskedPrompt(x.question)
    ensures x.RadioPrompt? ==> r.text == RadioPromptOf(adapter, x.question)
    ensures x.BinaryPrompt? ==> r.binary == BinaryPromptOf(adapter, x.binaryQuestion)
  {
    match x
    case Prompt(q, _) => SetText(x, adapter.prompt(q))
    case MaskedPrompt(q, _) => SetText(x, adapter.maskedPrompt(q))
    case RadioPrompt(q, _) => SetText(x, RadioPromptOf(adapter, q))
    case Info(_, _) => SetDone(x, Ok(()))
    case Error(_, _) => SetDone(x, Ok(()))
    case BinaryPrompt(b, _) => SetBinary(x, BinaryPromptOf(adapter, b))
  }

  /** The adapter method `Demux` calls for a message, with its argument. */
  function CallFor(x: OwnedExchange): (c: AdapterCall)
    ensures x.BinaryPrompt? <==> c.BinaryPromptCall?
    ensures x.BinaryPrompt? ==> c.b == x.binaryQuestion
    ensures !x.BinaryPrompt? ==> c.q == x.question
  {
    match x
    case Prompt(q, _) => PromptCall(q)
    case MaskedPrompt(q, _) => MaskedPromptCall(q)
    case RadioPrompt(q, _) => RadioPromptCall(q)
    case Info(q, _) => InfoCall(q)
    case Error(q, _) => ErrorCall(q)
    case BinaryPrompt(b, _) => BinaryPromptCall(b)
  }

  /** The batch after `communicate`: every message keeps its place and question; only cells change. */
  function Communicated(conv: Conversation, batch: seq<OwnedExchange>): (r: seq<OwnedExchange>)
    ensures |r| == |batch|
    ensures forall i :: 0 <= i < |batch| ==> SameMessage(batch[i], r[i])
  {
    match conv
    case Demux(adapter) => seq(|batch|, i requires 0 <= i < |batch| => DemuxOne(adapter, batch[i]))
    case Custom(reply) =>
      var r := seq(|batch|, i requires 0 <= i < |batch| => ApplyReply(batch[i], reply(batch, i)));
      assert forall i :: 0 <= i < |batch| ==> r[i] == ApplyReply(batch[i], reply(batch, i));
      r
  }

  /**
   * `Conversation::communicate` on a batch whose cells are the array's elements.
   * `Demux` visits the messages in order and, for each, calls only the adapter method
   * of its variant and stores its result in that message's own cell; notifications
   * store `Ok(())`. A conversation of the application's own writes what it writes.
   */
  method Communicate(conv: Conversation, batch: array<OwnedExchange>) returns (calls: seq<AdapterCall>)
    modifies batch
    ensures batch[..] == Communicated(conv, old(batch[..]))
    ensures conv.Demux? ==> |calls| == batch.Length
    ensures conv.Demux? ==> forall i :: 0 <= i < batch.Length ==> calls[i] == CallFor(old(batch[i]))
    ensures conv.Custom? ==> calls == []
  {
    calls := [];
    var shown := batch[..];
    var i := 0;
    while i < batch.Length
      invariant 0 <= i <= batch.Length
      invariant forall k :: i <= k < batch.Length ==> batch[k] == shown[k]
      invariant forall k :: 0 <= k < i ==> batch[k] == Communicated(conv, shown)[k]
      invariant conv.Demux? ==> |calls| == i && forall k :: 0 <= k < i ==> calls[k] == CallFor(shown[k])
      invariant conv.Custom? ==> calls == []
    {
      var msg := batch[i];
      match conv {
        case Demux(adapter) =>
          match msg {
            case Prompt(q, _) =>
              batch[i] := SetText(msg, adapter.prompt(q));
            case MaskedPrompt(q, _) =>
              batch[i] := SetText(msg, adapter.maskedPrompt(q));
            case RadioPrompt(q, _) =>
              batch[i] := SetText(msg, RadioPromptOf(adapter, q));
            case Info(_, _) =>
              batch[i] := SetDone(msg, Ok(()));
            case Error(_, _) =>
              batch[i] := SetDone(msg, Ok(()));
            case BinaryPrompt(b, _) =>
              batch[i] := SetBinary(msg, BinaryPromptOf(adapter, b));
          }
          calls := calls + [CallFor(msg)];
        case Custom(reply) =>
          batch[i] := ApplyReply(msg, reply(shown, i));
      }
      i := i + 1;
    }
  }

  // ---------------------------------------------------------------------------
  // The blanket `ConversationAdapter` over any `Conversation`.

  /** What a conversation of the application's own leaves in a text cell: its reply, or the unanswered error. */
  function TextWritten(reply: Option<Reply>): PamResult<Bytes>
  {
    if reply.Some? && reply.value.TextReply? then reply.value.text else UNANSWERED_TEXT
  }

  /** What a conversation of the application's own leaves in a binary cell. */
  function BinaryWritten(reply: Option<Reply>): PamResult<BinaryData>
  {
    if reply.Some? && reply.value.BinaryReply? then reply.value.binary else UNANSWERED_BINARY
  }

  /** Shows `conv` a batch of the one new message `x` and returns that message afterwards. */
  method AskOne(conv: Conversation, x: OwnedExchange) returns (answered: OwnedExchange, calls: seq<AdapterCall>)
    ensures answered == Communicated(conv, [x])[0]
    ensures conv.Demux? ==> answered == DemuxOne(conv.adapter, x) && calls == [CallFor(x)]
    ensures conv.Custom? ==> answered == ApplyReply(x, conv.reply([x], 0)) && calls == []
  {
    var cell := new OwnedExchange[1](_ => x);
    assert cell[..] == [x];
    calls := Communicate(conv, cell);
    answered := cell[0];
  }

  /** The blanket `prompt`: a one-message batch; the answer is whatever was written to its cell. */
  method BlanketPrompt(conv: Conversation, q: Bytes) returns (r: PamResult<Bytes>, calls: seq<AdapterCall>)
    ensures conv.Demux? ==> r == conv.adapter.prompt(q) && calls == [PromptCall(q)]
    ensures conv.Custom? ==> r == TextWritten(conv.reply([Prompt(q, UNANSWERED_TEXT)], 0)) && calls == []
  {
    var answered;
    answered, calls := AskOne(conv, Prompt(q, UNANSWERED_TEXT));
    r := answered.text;
  }

  /** The blanket `masked_prompt`. */
  method BlanketMaskedPrompt(conv: Conversation, q: Bytes) returns (r: PamResult<Bytes>, calls: seq<AdapterCall>)
    ensures conv.Demux? ==> r == conv.adapter.maskedPrompt(q) && calls == [MaskedPromptCall(q)]
    ensures conv.Custom? ==> r == TextWritten(conv.reply([MaskedPrompt(q, UNANSWERED_TEXT)], 0)) && calls == []
  {
    var answered;
    answered, calls := AskOne(conv, MaskedPrompt(q, UNANSWERED_TEXT));
    r := answered.text;
  }

  /** The blanket `radio_prompt`. */
  method BlanketRadioPrompt(conv: Conversation, q: Bytes) returns (r: PamResult<Bytes>, calls: seq<AdapterCall>)
    ensures conv.Demux? ==> r == RadioPromptOf(conv.adapter, q) && calls == [RadioPromptCall(q)]
    ensures conv.Custom? ==> r == TextWritten(conv.reply([RadioPrompt(q, UNANSWERED_TEXT)], 0)) && calls == []
  {
    var answered;
    answered, calls := AskOne(conv, RadioPrompt(q, UNANSWERED_TEXT));
    r := answered.text;
  }

  /** The blanket `binary_prompt`. */
  method BlanketBinaryPrompt(conv: Conversation, b: BinaryData) returns (r: PamResult<BinaryData>, calls: seq<AdapterCall>)
    ensures conv.Demux? ==> r == BinaryPromptOf(conv.adapter, b) && calls == [BinaryPromptCall(b)]
    ensures conv.Custom? ==> r == BinaryWritten(conv.reply([BinaryPrompt(b, UNANSWERED_BINARY)], 0)) && calls == []
  {
    var answered;
    answered, calls := AskOne(conv, BinaryPrompt(b, UNANSWERED_BINARY));
    r := answered.binary;
  }

  /** The blanket `info_msg`: a one-message batch; nothing comes back. */
  method BlanketInfoMsg(conv: Conversation, q: Bytes) returns (calls: seq<AdapterCall>)
    ensures conv.Demux? ==> calls == [InfoCall(q)]
    ensures conv.Custom? ==> calls == []
  {
    var answered;
    answered, calls := AskOne(conv, Info(q, UNANSWERED_DONE));
  }

  /** The blanket `error_msg`. */
  method BlanketErrorMsg(conv: Conversation, q: Bytes) returns (calls: seq<AdapterCall>)
    ensures conv.Demux? ==> calls == [ErrorCall(q)]
    ensures conv.Custom? ==> calls == []
  {
    var answered;
    answered, calls := AskOne(conv, Error(q, UNANSWERED_DONE));
  }

  // ---------------------------------------------------------------------------
  // The native callback.

  /** The answers out-pointer (`*mut *mut pam_response`) when it is not null: where the array goes. */
  class ResponseOut {
    var responses: Option<array<AnswerRecord>>

    constructor ()
      ensures responses.None?
    {
      responses := None;
    }
  }

  /** The batch `communicate` is given: only when both pointers are there and every question decodes. */
  function DispatchedBatch(me: Option<Conversation>, questions: seq<NativeQuestion>, hasOut: bool): (b: Option<seq<OwnedExchange>>)
    ensures b.Some? <==> me.Some? && hasOut && forall i :: 0 <= i < |questions| ==> Decode(questions[i]).Ok?
    ensures b.Some? ==> |b.value| == |questions| && forall i :: 0 <= i < |questions| ==> Decode(questions[i]) == Ok(b.value[i])
  {
    if me.None? || !hasOut then None
    else
      match DecodeAll(questions)
      case Err(_) => None
      case Ok(messages) => Some(messages)
  }

  /** The callback would panic: a text answer with a nul would reach `build`. */
  predicate CallbackPanics(me: Option<Conversation>, questions: seq<NativeQuestion>, hasOut: bool)
  {
    var batch := DispatchedBatch(me, questions, hasOut);
    batch.Some? && BuildPanics(Communicated(me.value, batch.value))
  }

  /**
   * The outcome of the callback: `ConversationError` for a null conversation or a
   * null out-pointer or any question that does not decode; otherwise what `build`
   * makes of the answered batch.
   */
  function CallbackOutcome(me: Option<Conversation>, questions: seq<NativeQuestion>, hasOut: bool): (r: PamResult<seq<AnswerRecord>>)
    requires !CallbackPanics(me, questions, hasOut)
    ensures DispatchedBatch(me, questions, hasOut).None? ==> r == Err(ConversationError)
  {
    match DispatchedBatch(me, questions, hasOut)
    case None => Err(ConversationError)
    case Some(batch) => BuildSpec(Communicated(me.value, batch))
  }

  /**
   * `OwnedConversation::wrapper_callback`: decodes every question, shows the batch to
   * the conversation, builds the answers and only then writes the out-pointer. The
   * result is 0 on success and the error's native code otherwise.
   */
  method WrapperCallback(questions: seq<NativeQuestion>, answers: Option<ResponseOut>, me: Option<Conversation>)
    returns (ret: int, dispatched: Option<seq<OwnedExchange>>, calls: seq<AdapterCall>)
    requires !CallbackPanics(me, questions, answers.Some?)
    modifies if answers.Some? then {answers.value} else {}
    ensures ret == ReturnCodeOfResult(CallbackOutcome(me, questions, answers.Some?))
    ensures dispatched == DispatchedBatch(me, questions, answers.Some?)
    ensures dispatched.None? ==> calls == []
    ensures dispatched.Some? && me.value.Demux? ==>
      |calls| == |dispatched.value| && forall i :: 0 <= i < |calls| ==> calls[i] == CallFor(dispatched.value[i])
    ensures dispatched.Some? && me.value.Custom? ==> calls == []
    ensures answers.Some? && ret == PAM_SUCCESS ==>
      var out := answers.value.responses;
      out.Some? && fresh(out.value) && out.value[..] == CallbackOutcome(me, questions, true).value
    ensures answers.Some? && ret != PAM_SUCCESS ==> answers.value.responses == old(answers.value.responses)
  {
    dispatched, calls := None, [];
    if me.None? || answers.None? {
      return ReturnCodeOfResult<()>(Err(ConversationError)), None, [];
    }
    var decoded := DecodeAll(questions);
    if decoded.Err? {
      return ReturnCodeOfResult<()>(Err(ConversationError)), None, [];
    }
    dispatched := Some(decoded.value);
    var messages := new OwnedExchange[|decoded.value|](i requires 0 <= i < |decoded.value| => decoded.value[i]);
    assert messages[..] == decoded.value;
    calls := Communicate(me.value, messages);
    ghost var scratch: Answers;
    var owned;
    owned, scratch := Build(messages[..]);
    match owned
    case Err(e) =>
      ret := ReturnCodeOfResult<()>(Err(e));
    case Ok(built) =>
      var p := built.IntoPtr();
      answers.value.responses := Some(p);
      ret := ReturnCodeOfResult<()>(Ok(()));
  }

  // ---------------------------------------------------------------------------
  // Properties of the callback.

  /** A null conversation or a null out-pointer gives `PAM_CONV_ERR` and nothing is dispatched. */
  lemma NullPointersRejected(me: Option<Conversation>, questions: seq<NativeQuestion>, hasOut: bool)
    requires me.None? || !hasOut
    ensures DispatchedBatch(me, questions, hasOut).None?
    ensures ReturnCodeOfResult(CallbackOutcome(me, questions, hasOut)) == PAM_CONV_ERR
  {
  }

  /** One question that does not decode fails the whole batch with `PAM_CONV_ERR`; the conversation never sees it. */
  lemma UndecodableBatchRejected(me: Option<Conversation>, questions: seq<NativeQuestion>, hasOut: bool, i: nat)
    requires i < |questions| && Decode(questions[i]).Err?
    ensures DispatchedBatch(me, questions, hasOut).None?
    ensures ReturnCodeOfResult(CallbackOutcome(me, questions, hasOut)) == PAM_CONV_ERR
  {
  }

  /**
   * End to end through a `Demux`: when every question decodes and every answer is
   * there, the i-th response is the adapter's answer to the i-th question, as a
   * C string for text and an empty C string for notifications.
   */
  lemma DemuxCallbackAnswers(adapter: Adapter, questions: seq<NativeQuestion>, i: nat)
    requires !CallbackPanics(Some(Demux(adapter)), questions, true)
    requires CallbackOutcome(Some(Demux(adapter)), questions, true).Ok?
    requires i < |questions|
    ensures var records := CallbackOutcome(Some(Demux(adapter)), questions, true).value;
      |records| == |questions| && records[i].returnCode == 0 &&
      (questions[i].style == PAM_PROMPT_ECHO_ON ==> CStr(records[i].data.value) == adapter.prompt(StringData(questions[i])).value) &&
      (questions[i].style == PAM_PROMPT_ECHO_OFF ==> CStr(records[i].data.value) == adapter.maskedPrompt(StringData(questions[i])).value) &&
      (questions[i].style in {PAM_ERROR_MSG, PAM_TEXT_INFO} ==> records[i].data.value == [0])
  {
    var batch := DispatchedBatch(Some(Demux(adapter)), questions, true).value;
    var answered := Communicated(Demux(adapter), batch);
    assert answered[i] == DemuxOne(adapter, batch[i]);
    assert RecordFor(answered[i]) == Ok(BuildSpec(answered).value[i]);
  }

  /**
   * End to end through a `Demux`: a prompt the adapter refuses makes the whole callback
   * fail with that refusal's code, provided every earlier message was answered.
   */
  lemma DemuxCallbackRefusal(adapter: Adapter, questions: seq<NativeQuestion>, i: nat)
    requires !CallbackPanics(Some(Demux(adapter)), questions, true)
    requires DispatchedBatch(Some(Demux(adapter)), questions, true).Some?
    requires i < |questions| && questions[i].style == PAM_PROMPT_ECHO_ON
    requires adapter.prompt(StringData(questions[i])).Err?
    requires AllRecorded(Communicated(Demux(adapter), DispatchedBatch(Some(Demux(adapter)), questions, true).value), i)
    ensures CallbackOutcome(Some(Demux(adapter)), questions, true) == Err(adapter.prompt(StringData(questions[i])).error)
  {
    var batch := DispatchedBatch(Some(Demux(adapter)), questions, true).value;
    var answered := Communicated(Demux(adapter), batch);
    assert answered[i] == DemuxOne(adapter, batch[i]);
    BuildSpecStops(answered, i);
  }
}
