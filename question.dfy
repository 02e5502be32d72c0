/**
 * The native message record (`pam_message`: a style and a data pointer) and its
 * translation to and from `OwnedExchange`.
 */
module Questions {
  import opened Wrappers
  import opened Constants
  import opened Helper
  import opened Exchanges

  /** `Style` (a `num_enum!`): the four styles the wrapper decodes. */
  datatype Style = PromptEchoOff | PromptEchoOn | ErrorMsg | TextInfo

  /** `From<Style> for c_int`. */
  function StyleValue(s: Style): (v: int)
    ensures PAM_PROMPT_ECHO_OFF <= v <= PAM_TEXT_INFO
  {
    match s
    case PromptEchoOff => PAM_PROMPT_ECHO_OFF
    case PromptEchoOn => PAM_PROMPT_ECHO_ON
    case ErrorMsg => PAM_ERROR_MSG
    case TextInfo => PAM_TEXT_INFO
  }

  /** `TryFrom<c_int> for Style`: exactly the four listed values; anything else is `BAD_CONST`. */
  function StyleFrom(v: int): (r: PamResult<Style>)
    ensures r.Ok? <==> PAM_PROMPT_ECHO_OFF <= v <= PAM_TEXT_INFO
    ensures r.Ok? ==> StyleValue(r.value) == v
    ensures r.Err? ==> r.error == BAD_CONST
  {
    if v == PAM_PROMPT_ECHO_OFF then Ok(PromptEchoOff)
    else if v == PAM_PROMPT_ECHO_ON then Ok(PromptEchoOn)
    else if v == PAM_ERROR_MSG then Ok(ErrorMsg)
    else if v == PAM_TEXT_INFO then Ok(TextInfo)
    else Err(BAD_CONST)
  }

  lemma StyleRoundTrip(s: Style)
    ensures StyleFrom(StyleValue(s)) == Ok(s)
  {
  }

  /** `Question` (`pam_message`): a style and a pointer to the message data, possibly null. */
  datatype NativeQuestion = NativeQuestion(style: int, data: Option<Bytes>)

  /** `Question::string_data`: no data reads as empty text, otherwise the C string it points to. */
  function StringData(q: NativeQuestion): (text: Bytes)
    ensures !HasNul(text)
    ensures q.data.None? ==> text == []
    ensures q.data.Some? ==> text <= q.data.value
    ensures q.data.Some? && |text| < |q.data.value| ==> q.data.value[|text|] == 0
  {
    match q.data
    case None => []
    case Some(d) => CStr(d)
  }

  /**
   * `TryFrom<&Question> for OwnedExchange`: styles 1 to 4 become a masked prompt,
   * a prompt, an error and an info message with an unanswered cell; every other
   * style, radio and binary included, is a `ConversationError`.
   */
  function Decode(q: NativeQuestion): (r: PamResult<OwnedExchange>)
    ensures r.Err? <==> !(PAM_PROMPT_ECHO_OFF <= q.style <= PAM_TEXT_INFO)
    ensures r.Err? ==> r.error == ConversationError
    ensures r.Ok? ==> Unanswered(r.value) && !r.value.BinaryPrompt? && r.value.question == StringData(q)
    ensures q.style == PAM_PROMPT_ECHO_OFF ==> r.Ok? && r.value.MaskedPrompt?
    ensures q.style == PAM_PROMPT_ECHO_ON ==> r.Ok? && r.value.Prompt?
    ensures q.style == PAM_ERROR_MSG ==> r.Ok? && r.value.Error?
    ensures q.style == PAM_TEXT_INFO ==> r.Ok? && r.value.Info?
  {
    match StyleFrom(q.style)
    case Err(_) => Err(ConversationError)
    case Ok(style) =>
      var text := StringData(q);
      match style
      case PromptEchoOff => Ok(MaskedPrompt(text, UNANSWERED_TEXT))
      case PromptEchoOn => Ok(Prompt(text, UNANSWERED_TEXT))
      case ErrorMsg => Ok(Error(text, UNANSWERED_DONE))
      case TextInfo => Ok(Info(text, UNANSWERED_DONE))
  }

  /** `collect::<Result<Vec<_>>>()` of the decoded batch: the first failure fails the whole batch. */
  function DecodeAll(qs: seq<NativeQuestion>): (r: PamResult<seq<OwnedExchange>>)
    ensures r.Ok? <==> forall i :: 0 <= i < |qs| ==> Decode(qs[i]).Ok?
    ensures r.Ok? ==> |r.value| == |qs| && forall i :: 0 <= i < |qs| ==> Ok(r.value[i]) == Decode(qs[i])
    ensures r.Err? ==> r.error == ConversationError
  {
    if qs == [] then Ok([])
    else
      match Decode(qs[0])
      case Err(e) => Err(e)
      case Ok(x) =>
        match DecodeAll(qs[1..])
        case Err(e) => Err(e)
        case Ok(xs) =>
          assert forall i :: 1 <= i < |qs| ==> qs[i] == qs[1..][i - 1];
          Ok([x] + xs)
  }

  /**
   * `TryFrom<&Exchange> for Question`: the four text variants become their style with a
   * freshly allocated C string of the question; radio and binary prompts cannot be
   * sent and give `ConversationError` before anything is allocated. The source panics
   * on a text variant whose question holds a nul.
   */
  function Encode(x: OwnedExchange): (r: PamResult<NativeQuestion>)
    requires (x.MaskedPrompt? || x.Prompt? || x.Error? || x.Info?) ==> !HasNul(x.question)
    ensures r.Err? <==> x.RadioPrompt? || x.BinaryPrompt?
    ensures r.Err? ==> r.error == ConversationError
    ensures r.Ok? ==> r.value.data == Some(x.question + [0])
    ensures x.MaskedPrompt? ==> r.Ok? && r.value.style == PAM_PROMPT_ECHO_OFF
    ensures x.Prompt? ==> r.Ok? && r.value.style == PAM_PROMPT_ECHO_ON
    ensures x.Error? ==> r.Ok? && r.value.style == PAM_ERROR_MSG
    ensures x.Info? ==> r.Ok? && r.value.style == PAM_TEXT_INFO
  {
    match x
    case MaskedPrompt(q, _) => Ok(NativeQuestion(StyleValue(PromptEchoOff), Some(q + [0])))
    case Prompt(q, _) => Ok(NativeQuestion(StyleValue(PromptEchoOn), Some(q + [0])))
    case Error(q, _) => Ok(NativeQuestion(StyleValue(ErrorMsg), Some(q + [0])))
    case Info(q, _) => Ok(NativeQuestion(StyleValue(TextInfo), Some(q + [0])))
    case RadioPrompt(_, _) => Err(ConversationError)
    case BinaryPrompt(_, _) => Err(ConversationError)
  }

  /**
   * Encoding a text message and decoding it again gives back the same variant and
   * the same question, with a fresh unanswered cell.
   */
  lemma EncodeDecodeRoundTrip(x: OwnedExchange)
    requires !x.BinaryPrompt? && !x.RadioPrompt? && !HasNul(x.question)
    ensures Decode(Encode(x).value).Ok?
    ensures SameMessage(Decode(Encode(x).value).value, x)
  {
    CStrOfTerminated(x.question, []);
    assert x.question + [0] + [] == x.question + [0];
  }

  /** Decoding a record and encoding the result again gives the style back and the text as a C string. */
  lemma DecodeEncodeRoundTrip(q: NativeQuestion)
    requires Decode(q).Ok?
    ensures Encode(Decode(q).value) == Ok(NativeQuestion(q.style, Some(StringData(q) + [0])))
  {
  }

  /**
   * `Drop for Question`: a recognised style's text is zeroed; the data of an
   * unrecognised style is left as it is. The free that follows is not modelled.
   */
  method DropQuestion(style: int, data: Option<array<u8>>)
    modifies if data.Some? then {data.value} else {}
    ensures data.Some? && StyleFrom(style).Ok? ==>
      forall i :: 0 <= i < CStrLen(old(data.value[..])) ==> data.value[i] == 0
    ensures data.Some? && StyleFrom(style).Ok? ==>
      forall i :: CStrLen(old(data.value[..])) <= i < data.value.Length ==> data.value[i] == old(data.value[i])
    ensures data.Some? && StyleFrom(style).Ok? ==> CStr(data.value[..]) == []
    ensures data.Some? && StyleFrom(style).Err? ==> data.value[..] == old(data.value[..])
  {
    if StyleFrom(style).Ok? {
      match data
      case None =>
      case Some(p) => Zero(p);
    }
  }
}
