/**
 * `Answers`: the `pam_response` array handed back to Linux-PAM, built in place from
 * the answered exchanges of a batch.
 */
module AnswerArray {
  import opened Wrappers
  import opened Constants
  import opened Helper
  import opened Exchanges

  /** `Answer` (`pam_response`): the reply's data, possibly null, and a return code. */
  datatype AnswerRecord = AnswerRecord(data: Option<Bytes>, returnCode: int)

  /** A record of a zero-initialised array: null data and return code 0. */
  const EMPTY_RECORD: AnswerRecord := AnswerRecord(None, 0)

  /** Filling the record of `x` panics: its text answer contains a nul. */
  predicate FillPanics(x: OwnedExchange)
  {
    x.HasTextCell() && x.text.Ok? && HasNul(x.text.value)
  }

  /**
   * The record `build` makes from one exchange, or the error that stops it. A text
   * answer becomes a C string of the text, an answered notification an empty C
   * string, a binary answer a payload (`BufferError` when it does not fit); an
   * unanswered or failed cell gives its error.
   */
  function RecordFor(x: OwnedExchange): (r: PamResult<AnswerRecord>)
    requires !FillPanics(x)
    ensures r.Ok? ==> r.value.returnCode == 0 && r.value.data.Some?
    ensures x.HasTextCell() ==> (r.Ok? <==> x.text.Ok?)
    ensures x.HasTextCell() && x.text.Ok? ==> CStr(r.value.data.value) == x.text.value
    ensures x.HasTextCell() && x.text.Err? ==> r.error == x.text.error
    ensures x.HasDoneCell() ==> (r.Ok? <==> x.done.Ok?)
    ensures x.HasDoneCell() && x.done.Ok? ==> r.value.data.value == [0]
    ensures x.HasDoneCell() && x.done.Err? ==> r.error == x.done.error
    ensures x.BinaryPrompt? && x.binary.Err? ==> r == Err(x.binary.error)
    ensures x.BinaryPrompt? && x.binary.Ok? ==>
      if |x.binary.value.data| <= MAX_SIZE
      then r.Ok? && DecodePayload(r.value.data.value) == Some((x.binary.value.data, x.binary.value.dataType))
      else r == Err(BufferError)
  {
    match x
    case MaskedPrompt(_, a) => TextRecord(a)
    case Prompt(_, a) => TextRecord(a)
    case RadioPrompt(_, a) => TextRecord(a)
    case Info(_, a) => if a.Ok? then TextRecord(Ok([])) else Err(a.error)
    case Error(_, a) => if a.Ok? then TextRecord(Ok([])) else Err(a.error)
    case BinaryPrompt(_, a) =>
      match a
      case Err(e) => Err(e)
      case Ok(b) =>
        if |b.data| <= MAX_SIZE then
          PayloadRoundTrip(b.data, b.dataType);
          Ok(AnswerRecord(Some(Payload(b.data, b.dataType)), 0))
        else Err(BufferError)
  }

  /** The record of a text answer: a C string holding the text. */
  function TextRecord(a: PamResult<Bytes>): (r: PamResult<AnswerRecord>)
    requires a.Ok? ==> !HasNul(a.value)
    ensures r.Ok? <==> a.Ok?
    ensures r.Ok? ==> r.value == AnswerRecord(Some(a.value + [0]), 0) && CStr(r.value.data.value) == a.value
    ensures r.Err? ==> r.error == a.error
  {
    match a
    case Err(e) => Err(e)
    case Ok(t) =>
      CStrOfTerminated(t, []);
      assert t + [0] + [] == t + [0];
      Ok(AnswerRecord(Some(t + [0]), 0))
  }

  /** The first `n` exchanges all give a record. */
  predicate AllRecorded(value: seq<OwnedExchange>, n: nat)
    requires n <= |value|
  {
    forall j :: 0 <= j < n ==> !FillPanics(value[j]) && RecordFor(value[j]).Ok?
  }

  /** One more exchange that gives a record extends the recorded prefix. */
  lemma AllRecordedStep(value: seq<OwnedExchange>, i: nat)
    requires i < |value| && AllRecorded(value, i)
    requires !FillPanics(value[i]) && RecordFor(value[i]).Ok?
    ensures AllRecorded(value, i + 1)
  {
  }

  /** `build` panics: a text answer with a nul comes before any failing exchange. */
  predicate BuildPanics(value: seq<OwnedExchange>)
  {
    value != [] && (FillPanics(value[0]) || (RecordFor(value[0]).Ok? && BuildPanics(value[1..])))
  }

  /**
   * What `build` yields: one record per exchange, in order, when every exchange gives
   * one; otherwise the error of the first exchange that does not.
   */
  function BuildSpec(value: seq<OwnedExchange>): (r: PamResult<seq<AnswerRecord>>)
    requires !BuildPanics(value)
    ensures r.Ok? <==> AllRecorded(value, |value|)
    ensures r.Ok? ==> |r.value| == |value| && forall i :: 0 <= i < |value| ==> RecordFor(value[i]) == Ok(r.value[i])
  {
    if value == [] then Ok([])
    else
      var tail := value[1..];
      assert forall j :: 1 <= j < |value| ==> value[j] == tail[j - 1];
      match RecordFor(value[0])
      case Err(e) => Err(e)
      case Ok(record) =>
        match BuildSpec(tail)
        case Err(e) =>
          assert !AllRecorded(tail, |tail|);
          Err(e)
        case Ok(records) =>
          Ok([record] + records)
  }

  /** The first exchange that gives no record decides what `build` yields: its error. */
  lemma {:induction false} BuildSpecStops(value: seq<OwnedExchange>, i: nat)
    requires !BuildPanics(value)
    requires i < |value| && AllRecorded(value, i) && !FillPanics(value[i]) && RecordFor(value[i]).Err?
    ensures BuildSpec(value) == Err(RecordFor(value[i]).error)
  {
    if i > 0 {
      var tail := value[1..];
      assert forall j :: 1 <= j < |value| ==> value[j] == tail[j - 1];
      assert AllRecorded(tail, i - 1);
      BuildSpecStops(tail, i - 1);
    }
  }

  /** When every exchange gives its record, `build` yields exactly those records. */
  lemma BuildSpecAll(value: seq<OwnedExchange>, records: seq<AnswerRecord>)
    requires !BuildPanics(value) && |records| == |value|
    requires forall k :: 0 <= k < |value| ==> !FillPanics(value[k]) && RecordFor(value[k]) == Ok(records[k])
    ensures BuildSpec(value) == Ok(records)
  {
    assert AllRecorded(value, |value|) by {
      forall k | 0 <= k < |value|
        ensures !FillPanics(value[k]) && RecordFor(value[k]).Ok?
      {
      }
    }
    var built := BuildSpec(value).value;
    forall k | 0 <= k < |value|
      ensures built[k] == records[k]
    {
      assert Ok(built[k]) == RecordFor(value[k]) == Ok(records[k]);
    }
    assert built == records;
  }

  /** Before the first failing exchange nothing panics: the next exchange can be filled. */
  lemma {:induction false} NoPanicAt(value: seq<OwnedExchange>, i: nat)
    requires !BuildPanics(value)
    requires i < |value| && AllRecorded(value, i)
    ensures !FillPanics(value[i])
  {
    if i > 0 {
      var tail := value[1..];
      assert forall j :: 1 <= j < |value| ==> value[j] == tail[j - 1];
      assert AllRecorded(tail, i - 1);
      NoPanicAt(tail, i - 1);
    }
  }

  /** Every record `build` yields has return code 0: the field is never written. */
  lemma ReturnCodesStayZero(value: seq<OwnedExchange>)
    requires !BuildPanics(value) && BuildSpec(value).Ok?
    ensures forall i :: 0 <= i < |value| ==> BuildSpec(value).value[i].returnCode == 0
  {
    var records := BuildSpec(value).value;
    forall i | 0 <= i < |value|
      ensures records[i].returnCode == 0
    {
      assert RecordFor(value[i]) == Ok(records[i]);
    }
  }

  /** `Answers`: the owned array of records; `freed` once `Drop` has released it. */
  class Answers {
    var records: array<AnswerRecord>
    var freed: bool

    /** `calloc(count)`: `count` zeroed records. */
    constructor (count: nat)
      ensures fresh(records) && records.Length == count && !freed
      ensures forall i :: 0 <= i < count ==> records[i] == EMPTY_RECORD
    {
      records := new AnswerRecord[count](_ => EMPTY_RECORD);
      freed := false;
    }

    /** `into_ptr`: hands the array out without releasing anything. */
    method IntoPtr() returns (p: array<AnswerRecord>)
      ensures p == records && p[..] == records[..] && freed == old(freed)
    {
      p := records;
    }

    /** `Drop for Answers`: releases the data of every record, in order, then the array itself. */
    method Drop()
      requires !freed
      modifies this, records
      ensures freed && records == old(records)
      ensures forall i :: 0 <= i < records.Length ==> records[i] == old(records[i]).(data := None)
    {
      var i := 0;
      while i < records.Length
        invariant 0 <= i <= records.Length && records == old(records)
        invariant forall k :: 0 <= k < i ==> records[k] == old(records[k]).(data := None)
        invariant forall k :: i <= k < records.Length ==> records[k] == old(records[k])
      {
        records[i] := records[i].(data := None);
        i := i + 1;
      }
      freed := true;
    }
  }

  /** `TextAnswer::fill`: the record's data becomes a fresh C string of `text`. */
  method TextFill(dest: array<AnswerRecord>, i: nat, text: Bytes)
    requires i < dest.Length && !HasNul(text)
    modifies dest
    ensures dest[..] == old(dest[..])[i := old(dest[i]).(data := Some(text + [0]))]
    ensures CStr(dest[i].data.value) == text
  {
    var cString := NewCHeapString(text);
    dest[i] := dest[i].(data := Some(cString[..]));
  }

  /** `BinaryAnswer::fill`: the record's data becomes the payload, or `BufferError` when it does not fit. */
  method BinaryFill(dest: array<AnswerRecord>, i: nat, b: BinaryData) returns (r: PamResult<()>)
    requires i < dest.Length
    modifies dest
    ensures r.Err? <==> |b.data| > MAX_SIZE
    ensures r.Err? ==> r.error == BufferError && dest[..] == old(dest[..])
    ensures r.Ok? ==> dest[..] == old(dest[..])[i := old(dest[i]).(data := Some(Payload(b.data, b.dataType)))]
  {
    var payload := NewPayload(b.data, b.dataType);
    match payload
    case Err(_) =>
      return Err(BufferError);
    case Ok(buf) =>
      dest[i] := dest[i].(data := Some(buf));
      return Ok(());
  }

  /** The record `fill` writes when the answer is there. */
  method FillOne(dest: array<AnswerRecord>, i: nat, x: OwnedExchange) returns (r: PamResult<()>)
    requires i < dest.Length && dest[i] == EMPTY_RECORD && !FillPanics(x)
    modifies dest
    ensures r.Ok? <==> RecordFor(x).Ok?
    ensures r.Err? ==> r.error == RecordFor(x).error && dest[..] == old(dest[..])
    ensures r.Ok? ==> dest[..] == old(dest[..])[i := RecordFor(x).value]
  {
    match x
    case MaskedPrompt(_, a) =>
      r := if a.Ok? then Ok(()) else Err(a.error);
      if a.Ok? { TextFill(dest, i, a.value); }
    case Prompt(_, a) =>
      r := if a.Ok? then Ok(()) else Err(a.error);
      if a.Ok? { TextFill(dest, i, a.value); }
    case RadioPrompt(_, a) =>
      r := if a.Ok? then Ok(()) else Err(a.error);
      if a.Ok? { TextFill(dest, i, a.value); }
    case Info(_, a) =>
      r := if a.Ok? then Ok(()) else Err(a.error);
      if a.Ok? { TextFill(dest, i, []); }
    case Error(_, a) =>
      r := if a.Ok? then Ok(()) else Err(a.error);
      if a.Ok? { TextFill(dest, i, []); }
    case BinaryPrompt(_, a) =>
      r := if a.Ok? then Ok(()) else Err(a.error);
      if a.Ok? { r := BinaryFill(dest, i, a.value); }
  }

  /**
   * `Answers::build`: fills a zeroed array record by record, in order. The first
   * exchange that gives no record stops it with that error, and the partly filled
   * array is released. `scratch` is the array `build` allocates.
   */
  method Build(value: seq<OwnedExchange>) returns (r: PamResult<Answers>, ghost scratch: Answers)
    requires !BuildPanics(value)
    ensures fresh(scratch) && scratch.records.Length == |value|
    ensures r.Ok? <==> BuildSpec(value).Ok?
    ensures r.Ok? ==> r.value == scratch && fresh(r.value.records) && !r.value.freed
    ensures r.Err? ==> scratch.freed && forall k :: 0 <= k < |value| ==> scratch.records[k].data.None?
    ensures r.Ok? ==> r.value.records[..] == BuildSpec(value).value
    ensures r.Err? ==> r.error == BuildSpec(value).error
  {
    var outputs := new Answers(|value|);
    scratch := outputs;
    var i := 0;
    while i < |value|
      invariant 0 <= i <= |value| && AllRecorded(value, i)
      invariant fresh(outputs) && fresh(outputs.records) && !outputs.freed
      invariant outputs.records.Length == |value|
      invariant forall k :: 0 <= k < i ==> RecordFor(value[k]) == Ok(outputs.records[k])
      invariant forall k :: i <= k < |value| ==> outputs.records[k] == EMPTY_RECORD
    {
      NoPanicAt(value, i);
      var filled := FillOne(outputs.records, i, value[i]);
      if filled.Err? {
        BuildSpecStops(value, i);
        outputs.Drop();
        return Err(filled.error), scratch;
      }
      AllRecordedStep(value, i);
      i := i + 1;
    }
    BuildSpecAll(value, outputs.records[..]);
    return Ok(outputs), scratch;
  }
}
