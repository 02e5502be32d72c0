/**
 * The typed messages of a conversation (`OwnedExchange`), their one-slot answer
 * cells, the `BinaryData` value, and the two kinds of conversation the wrapper can
 * drive: a `Demux` over a `ConversationAdapter`, or any other `Conversation`.
 */
module Exchanges {
  import opened Wrappers
  import opened Constants
  import opened Helper

  /** `BinaryData`: the bytes of a binary message and its type byte. */
  datatype BinaryData = BinaryData(data: Bytes, dataType: u8)

  /** `From<(data, type)> for BinaryData`. */
  function BinaryDataFrom(pair: (Bytes, u8)): (b: BinaryData)
    ensures b.data == pair.0 && b.dataType == pair.1
  {
    BinaryData(pair.0, pair.1)
  }

  /** `From<BinaryData> for (Vec<u8>, u8)`. */
  function BinaryDataInto(b: BinaryData): (pair: (Bytes, u8))
    ensures pair.0 == b.data && pair.1 == b.dataType
  {
    (b.data, b.dataType)
  }

  /** The two conversions are inverse to each other. */
  lemma BinaryDataRoundTrip(b: BinaryData, pair: (Bytes, u8))
    ensures BinaryDataFrom(BinaryDataInto(b)) == b
    ensures BinaryDataInto(BinaryDataFrom(pair)) == pair
  {
  }

  /**
   * `OwnedExchange`: one message of a batch together with its answer cell. Text
   * questions carry their text, a binary prompt its data; the cell's type depends on
   * the variant, as in `q_and_a!`.
   */
  datatype OwnedExchange =
    | MaskedPrompt(question: Bytes, text: PamResult<Bytes>)
    | Prompt(question: Bytes, text: PamResult<Bytes>)
    | Info(question: Bytes, done: PamResult<()>)
    | Error(question: Bytes, done: PamResult<()>)
    | RadioPrompt(question: Bytes, text: PamResult<Bytes>)
    | BinaryPrompt(binaryQuestion: BinaryData, binary: PamResult<BinaryData>)
  {
    /** The variants whose cell holds text. */
    predicate HasTextCell() { MaskedPrompt? || Prompt? || RadioPrompt? }
    /** The variants whose cell holds `()`: the two notifications. */
    predicate HasDoneCell() { Info? || Error? }
  }

  /** The variant of an exchange, without question or answer. */
  datatype Kind = MaskedPromptKind | PromptKind | InfoKind | ErrorKind | RadioPromptKind | BinaryPromptKind

  function KindOf(x: OwnedExchange): (k: Kind)
    ensures x.HasTextCell() <==> k in {MaskedPromptKind, PromptKind, RadioPromptKind}
    ensures x.HasDoneCell() <==> k in {InfoKind, ErrorKind}
  {
    match x
    case MaskedPrompt(_, _) => MaskedPromptKind
    case Prompt(_, _) => PromptKind
    case Info(_, _) => InfoKind
    case Error(_, _) => ErrorKind
    case RadioPrompt(_, _) => RadioPromptKind
    case BinaryPrompt(_, _) => BinaryPromptKind
  }

  /** The answer cell of a freshly made exchange (`new`): not yet answered. */
  const UNANSWERED_TEXT: PamResult<Bytes> := Err(ConversationError)
  const UNANSWERED_DONE: PamResult<()> := Err(ConversationError)
  const UNANSWERED_BINARY: PamResult<BinaryData> := Err(ConversationError)

  /** Every cell of `x` still holds what `new` put there. */
  predicate Unanswered(x: OwnedExchange)
  {
    match x
    case BinaryPrompt(_, a) => a == UNANSWERED_BINARY
    case Info(_, a) => a == UNANSWERED_DONE
    case Error(_, a) => a == UNANSWERED_DONE
    case _ => x.text == UNANSWERED_TEXT
  }

  /** `x` and `y` are the same message: same variant and same question. */
  predicate SameMessage(x: OwnedExchange, y: OwnedExchange)
  {
    KindOf(x) == KindOf(y) &&
    (if x.BinaryPrompt? then x.binaryQuestion == y.binaryQuestion else x.question == y.question)
  }

  /** `set_answer` on a text cell: the new answer replaces the old one, the message stays. */
  function SetText(x: OwnedExchange, a: PamResult<Bytes>): (r: OwnedExchange)
    requires x.HasTextCell()
    ensures SameMessage(x, r) && r.text == a
  {
    x.(text := a)
  }

  /** `set_answer` on a notification's cell. */
  function SetDone(x: OwnedExchange, a: PamResult<()>): (r: OwnedExchange)
    requires x.HasDoneCell()
    ensures SameMessage(x, r) && r.done == a
  {
    x.(done := a)
  }

  /** `set_answer` on a binary prompt's cell. */
  function SetBinary(x: OwnedExchange, a: PamResult<BinaryData>): (r: OwnedExchange)
    requires x.BinaryPrompt?
    ensures SameMessage(x, r) && r.binary == a
  {
    x.(binary := a)
  }

  /** After two writes the cell holds the last one: `answer()` returns the last value written. */
  lemma LastWriteWins(x: OwnedExchange, a: PamResult<Bytes>, b: PamResult<Bytes>)
    requires x.HasTextCell()
    ensures SetText(SetText(x, a), b) == SetText(x, b)
  {
  }

  // ---------------------------------------------------------------------------
  // Conversations.

  /**
   * A `ConversationAdapter`: the answers its prompt methods give. `None` for the
   * radio or binary prompt means the adapter keeps the trait's default method.
   * The notification methods return nothing; the calls made are recorded instead.
   */
  datatype Adapter = Adapter(
    prompt: Bytes -> PamResult<Bytes>,
    maskedPrompt: Bytes -> PamResult<Bytes>,
    radioPrompt: Option<Bytes -> PamResult<Bytes>>,
    binaryPrompt: Option<BinaryData -> PamResult<BinaryData>>)

  /** `radio_prompt`, with the trait's default when the adapter does not provide one. */
  function RadioPromptOf(adapter: Adapter, q: Bytes): (r: PamResult<Bytes>)
    ensures adapter.radioPrompt.None? ==> r == Err(ConversationError)
    ensures adapter.radioPrompt.Some? ==> r == adapter.radioPrompt.value(q)
  {
    match adapter.radioPrompt
    case None => Err(ConversationError)
    case Some(f) => f(q)
  }

  /** `binary_prompt`, with the trait's default when the adapter does not provide one. */
  function BinaryPromptOf(adapter: Adapter, q: BinaryData): (r: PamResult<BinaryData>)
    ensures adapter.binaryPrompt.None? ==> r == Err(ConversationError)
    ensures adapter.binaryPrompt.Some? ==> r == adapter.binaryPrompt.value(q)
  {
    match adapter.binaryPrompt
    case None => Err(ConversationError)
    case Some(f) => f(q)
  }

  /** One call of an adapter method, with its argument. */
  datatype AdapterCall =
    | PromptCall(q: Bytes)
    | MaskedPromptCall(q: Bytes)
    | RadioPromptCall(q: Bytes)
    | BinaryPromptCall(b: BinaryData)
    | InfoCall(q: Bytes)
    | ErrorCall(q: Bytes)

  /** What a written cell holds, for a conversation that writes cells itself. */
  datatype Reply = TextReply(text: PamResult<Bytes>) | DoneReply(done: PamResult<()>) | BinaryReply(binary: PamResult<BinaryData>)

  /**
   * A `Conversation`: either the wrapper's `Demux` over an adapter, or a conversation
   * of the application's own, given by what it writes into the cell of message `i`
   * of the batch it is shown (`None`: it leaves that cell alone).
   */
  datatype Conversation =
    | Demux(adapter: Adapter)
    | Custom(reply: (seq<OwnedExchange>, nat) -> Option<Reply>)

  /** Writing a reply into a cell; a reply of another cell type cannot be written and changes nothing. */
  function ApplyReply(x: OwnedExchange, reply: Option<Reply>): (r: OwnedExchange)
    ensures SameMessage(x, r)
    ensures reply.Some? && reply.value.TextReply? && x.HasTextCell() ==> r == SetText(x, reply.value.text)
    ensures reply.Some? && reply.value.DoneReply? && x.HasDoneCell() ==> r == SetDone(x, reply.value.done)
    ensures reply.Some? && reply.value.BinaryReply? && x.BinaryPrompt? ==> r == SetBinary(x, reply.value.binary)
    ensures reply.None? ==> r == x
  {
    match reply
    case None => x
    case Some(TextReply(a)) => if x.HasTextCell() then SetText(x, a) else x
    case Some(DoneReply(a)) => if x.HasDoneCell() then SetDone(x, a) else x
    case Some(BinaryReply(a)) => if x.BinaryPrompt? then SetBinary(x, a) else x
  }
}
