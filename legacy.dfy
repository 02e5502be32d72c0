/**
 * The older conversation module: four exchange variants (no radio or binary prompt)
 * and a fixed-credential conversation, `PamConversation`, that answers every plain
 * prompt with its user name and every masked prompt with its password.
 *
 * Its answer array is the current one without the binary arm, so the four-variant
 * exchanges are a subset of `OwnedExchange` and reuse `AnswerArray`.
 */
module Legacy {
  import opened Wrappers
  import opened Constants
  import opened Helper
  import opened Exchanges
  import opened Questions
  import opened AnswerArray
  import opened Conversations

  /** The four variants of the older `OwnedExchange`. */
  predicate IsLegacy(x: OwnedExchange)
  {
    x.MaskedPrompt? || x.Prompt? || x.Info? || x.Error?
  }

  type LegacyExchange = x: OwnedExchange | IsLegacy(x) witness Prompt([], UNANSWERED_TEXT)

  /** `PamConversation`: the user name and the password it answers with. */
  datatype PamConversation = PamConversation(username: Bytes, password: Bytes)

  /**
   * One step of `PamConversation::communicate`: a prompt gets the user name and a
   * masked prompt the password, whatever their text; a notification gets `Ok(())`.
   */
  function Answered(conv: PamConversation, x: LegacyExchange): (r: LegacyExchange)
    ensures SameMessage(r, x)
    ensures x.Prompt? ==> r.text == Ok(conv.username)
    ensures x.MaskedPrompt? ==> r.text == Ok(conv.password)
    ensures x.HasDoneCell() ==> r.done == Ok(())
  {
    match x
    case Prompt(_, _) => SetText(x, Ok(conv.username))
    case MaskedPrompt(_, _) => SetText(x, Ok(conv.password))
    case Info(_, _) => SetDone(x, Ok(()))
    case Error(_, _) => SetDone(x, Ok(()))
  }

  /** The whole batch after `communicate`, message by message. */
  function AnsweredAll(conv: PamConversation, batch: seq<LegacyExchange>): (r: seq<LegacyExchange>)
    ensures |r| == |batch|
    ensures forall i :: 0 <= i < |batch| ==> r[i] == Answered(conv, batch[i])
  {
    seq(|batch|, i requires 0 <= i < |batch| => Answered(conv, batch[i]))
  }

  /** `PamConversation::communicate`: answers the messages in order, each in its own cell. */
  method Communicate(conv: PamConversation, messages: array<LegacyExchange>)
    modifies messages
    ensures messages[..] == AnsweredAll(conv, old(messages[..]))
  {
    var i := 0;
    while i < messages.Length
      invariant 0 <= i <= messages.Length
      invariant forall k :: 0 <= k < i ==> messages[k] == Answered(conv, old(messages[k]))
      invariant forall k :: i <= k < messages.Length ==> messages[k] == old(messages[k])
    {
      messages[i] := Answered(conv, messages[i]);
      i := i + 1;
    }
  }

  /** A question that decodes becomes one of the four older variants. */
  lemma DecodedIsLegacy(q: NativeQuestion)
    requires Decode(q).Ok?
    ensures IsLegacy(Decode(q).value)
  {
  }

  /** The decoded batch, when every question decodes. */
  function DecodeBatch(questions: seq<NativeQuestion>): (r: Option<seq<LegacyExchange>>)
    ensures r.Some? <==> forall i :: 0 <= i < |questions| ==> Decode(questions[i]).Ok?
    ensures r.Some? ==> |r.value| == |questions| && forall i :: 0 <= i < |questions| ==> Decode(questions[i]) == Ok(r.value[i])
  {
    match DecodeAll(questions)
    case Err(_) => None
    case Ok(xs) =>
      assert forall i :: 0 <= i < |xs| ==> IsLegacy(xs[i]) by {
        forall i | 0 <= i < |xs| ensures IsLegacy(xs[i]) {
          DecodedIsLegacy(questions[i]);
        }
      }
      var batch: seq<LegacyExchange> := xs;
      Some(batch)
  }

  /** The older callback would panic: the user name or password it answers with holds a nul. */
  predicate LegacyCallbackPanics(me: Option<PamConversation>, questions: seq<NativeQuestion>, hasOut: bool)
  {
    me.Some? && hasOut && DecodeBatch(questions).Some? &&
    BuildPanics(AnsweredAll(me.value, DecodeBatch(questions).value))
  }

  /**
   * The outcome of the older callback: `ConversationError` for a null conversation,
   * a null out-pointer or a question that does not decode; otherwise what `build`
   * makes of the answered batch.
   */
  function LegacyOutcome(me: Option<PamConversation>, questions: seq<NativeQuestion>, hasOut: bool): (r: PamResult<seq<AnswerRecord>>)
    requires !LegacyCallbackPanics(me, questions, hasOut)
    ensures me.None? || !hasOut || DecodeBatch(questions).None? ==> r == Err(ConversationError)
  {
    if me.None? || !hasOut then Err(ConversationError)
    else
      match DecodeBatch(questions)
      case None => Err(ConversationError)
      case Some(batch) => BuildSpec(AnsweredAll(me.value, batch))
  }

  /**
   * `PamOwnedConversation::wrapper_callback`: the same steps as the current callback
   * with the fixed-credential conversation; the out-pointer is written only after the
   * answers are built.
   */
  method LegacyCallback(questions: seq<NativeQuestion>, answers: Option<ResponseOut>, me: Option<PamConversation>)
    returns (ret: int)
    requires !LegacyCallbackPanics(me, questions, answers.Some?)
    modifies if answers.Some? then {answers.value} else {}
    ensures ret == ReturnCodeOfResult(LegacyOutcome(me, questions, answers.Some?))
    ensures answers.Some? && ret == PAM_SUCCESS ==>
      var out := answers.value.responses;
      out.Some? && fresh(out.value) && out.value[..] == LegacyOutcome(me, questions, true).value
    ensures answers.Some? && ret != PAM_SUCCESS ==> answers.value.responses == old(answers.value.responses)
  {
    if me.None? || answers.None? {
      return ReturnCodeOfResult<()>(Err(ConversationError));
    }
    var decoded := DecodeBatch(questions);
    if decoded.None? {
      return ReturnCodeOfResult<()>(Err(ConversationError));
    }
    var batch := decoded.value;
    var messages := new LegacyExchange[|batch|](i requires 0 <= i < |batch| => batch[i]);
    assert messages[..] == batch;
    Communicate(me.value, messages);
    ghost var scratch: Answers;
    var owned;
    owned, scratch := Build(messages[..]);
    match owned
    case Err(e) =>
      ret := ReturnCodeOfResult<()>(Err(e));
    case Ok(built) =>
      var p := built.IntoPtr();
      answers.value.responses := Some(p);
      ret := ReturnCodeOfResult<()>(Ok(()));
  }

  /** Answers without a nul make every answered batch buildable. */
  lemma {:induction false} AnsweredNeverPanics(conv: PamConversation, batch: seq<LegacyExchange>)
    requires !HasNul(conv.username) && !HasNul(conv.password)
    ensures !BuildPanics(AnsweredAll(conv, batch))
    decreases |batch|
  {
    if batch != [] {
      var answered := AnsweredAll(conv, batch);
      assert answered[1..] == AnsweredAll(conv, batch[1..]);
      AnsweredNeverPanics(conv, batch[1..]);
    }
  }

  /**
   * End to end: with a user name and a password free of nul, every batch whose
   * questions all decode is answered in full; the i-th response is the user name for
   * a plain prompt, the password for a masked one and an empty C string for a
   * notification, each with return code 0.
   */
  lemma LegacyCallbackAnswers(conv: PamConversation, questions: seq<NativeQuestion>, i: nat)
    requires !HasNul(conv.username) && !HasNul(conv.password)
    requires DecodeBatch(questions).Some? && i < |questions|
    ensures !LegacyCallbackPanics(Some(conv), questions, true)
    ensures LegacyOutcome(Some(conv), questions, true).Ok?
    ensures var records := LegacyOutcome(Some(conv), questions, true).value;
      |records| == |questions| && records[i].returnCode == 0 &&
      (questions[i].style == PAM_PROMPT_ECHO_ON ==> records[i].data.value == conv.username + [0]) &&
      (questions[i].style == PAM_PROMPT_ECHO_OFF ==> records[i].data.value == conv.password + [0]) &&
      (questions[i].style in {PAM_ERROR_MSG, PAM_TEXT_INFO} ==> records[i].data.value == [0])
  {
    var batch := DecodeBatch(questions).value;
    AnsweredNeverPanics(conv, batch);
    var answered := AnsweredAll(conv, batch);
    assert AllRecorded(answered, |answered|) by {
      forall j | 0 <= j < |answered|
        ensures !FillPanics(answered[j]) && RecordFor(answered[j]).Ok?
      {
        assert answered[j] == Answered(conv, batch[j]);
      }
    }
    assert answered[i] == Answered(conv, batch[i]);
    assert RecordFor(answered[i]) == Ok(BuildSpec(answered).value[i]);
  }
}
