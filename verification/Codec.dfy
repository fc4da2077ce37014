/** The wire form of stream messages: the fields XADD is given and what the consumer makes of them. */
module Codec {
  import opened Basics

  /** A field value as go-redis hands it over: string, []byte, or anything else. */
  datatype Value = Str(text: string) | Bytes(text: string) | Other

  type Fields = map<string, Value>

  datatype WireMessage = WireMessage(id: string, taskType: string, traceId: string)

  datatype DecodeError = MissingTaskId | MissingTaskType

  // stringValue(values[key])
  function StringValue(values: Fields, key: string): Option<string> {
    if key !in values || values[key].Other? then None else Some(values[key].text)
  }

  // The values map of PublishTask: an empty trace id is not sent.
  function Encode(m: WireMessage): Fields {
    map["task_id" := Str(m.id), "task_type" := Str(m.taskType)]
    + (if m.traceId != "" then map["trace_id" := Str(m.traceId)] else map[])
  }

  datatype DeadWire = DeadWire(id: string, taskType: string, traceId: string, lastError: string, retryCount: int)

  // The values map of PublishDead: neither an empty trace id nor an empty last error is sent.
  function EncodeDead(d: DeadWire): Fields {
    map["task_id" := Str(d.id), "task_type" := Str(d.taskType), "retry_count" := Str(Decimal(d.retryCount))]
    + (if d.traceId != "" then map["trace_id" := Str(d.traceId)] else map[])
    + (if d.lastError != "" then map["last_error" := Str(d.lastError)] else map[])
  }

  /** What is empty is not sent. */
  lemma EmptyIsNotSent(m: WireMessage, d: DeadWire)
    ensures "trace_id" in Encode(m) <==> m.traceId != ""
    ensures "trace_id" in EncodeDead(d) <==> d.traceId != ""
    ensures "last_error" in EncodeDead(d) <==> d.lastError != ""
  {
    KeysDiffer();
  }

  // What the value of a key reads as when an absent one counts as empty.
  function TextOf(values: Fields, key: string): string {
    var v := StringValue(values, key);
    if v.Some? then v.value else ""
  }

  /** Although empty values are left out, the fields of a dead letter tell everything it says. */
  lemma DeadFieldsTellAll(d: DeadWire, e: DeadWire)
    requires EncodeDead(d) == EncodeDead(e)
    ensures d == e
  {
    DeadFields(d);
    DeadFields(e);
    if d.retryCount != e.retryCount { DecimalsDiffer(d.retryCount, e.retryCount); }
  }

  lemma DeadFields(d: DeadWire)
    ensures
      var f := EncodeDead(d);
      && TextOf(f, "task_id") == d.id && TextOf(f, "task_type") == d.taskType && TextOf(f, "trace_id") == d.traceId
      && TextOf(f, "last_error") == d.lastError && TextOf(f, "retry_count") == Decimal(d.retryCount)
  {
    KeysDiffer();
  }

  // streamMessageFromRedis
  function Decode(values: Fields): Result<WireMessage, DecodeError> {
    match StringValue(values, "task_id")
    case None => Err(MissingTaskId)
    case Some(id) =>
      if id == "" then Err(MissingTaskId)
      else match StringValue(values, "task_type")
        case None => Err(MissingTaskType)
        case Some(taskType) =>
          if taskType == "" then Err(MissingTaskType)
          else
            var trace := StringValue(values, "trace_id");
            Ok(WireMessage(id, taskType, if trace.Some? then trace.value else ""))
  }

  lemma KeysDiffer()
    ensures "task_id" != "task_type" && "task_id" != "trace_id" && "task_type" != "trace_id"
    ensures "task_id" != "last_error" && "task_type" != "last_error" && "trace_id" != "last_error"
    ensures "task_id" != "retry_count" && "task_type" != "retry_count" && "trace_id" != "retry_count"
    ensures "last_error" != "retry_count"
  {
    assert |"task_id"| == 7 && |"task_type"| == 9 && |"trace_id"| == 8 && |"last_error"| == 10 && |"retry_count"| == 11;
  }

  /** A published message comes back as it was exactly when it names a task and a type; otherwise the
      consumer refuses it. */
  lemma RoundTrip(m: WireMessage)
    ensures Decode(Encode(m)) == Ok(m) <==> m.id != "" && m.taskType != ""
    ensures Decode(Encode(m)).Err? <==> m.id == "" || m.taskType == ""
  {
    KeysDiffer();
  }

  /** A value of a text is as good as bytes of it, and any other value is as good as none. */
  predicate SameReading(v: Option<Value>, w: Option<Value>) {
    match (v, w)
    case (Some(Str(t)), Some(Str(u))) => t == u
    case (Some(Str(t)), Some(Bytes(u))) => t == u
    case (Some(Bytes(t)), Some(Str(u))) => t == u
    case (Some(Bytes(t)), Some(Bytes(u))) => t == u
    case (Some(Other), Some(Other)) => true
    case (Some(Other), None) => true
    case (None, Some(Other)) => true
    case (None, None) => true
    case _ => false
  }

  function Field(values: Fields, key: string): Option<Value> {
    if key in values then Some(values[key]) else None
  }

  /** Entries whose three fields read the same decode the same, whatever else they hold. */
  lemma SameReadingsDecodeAlike(v: Fields, w: Fields)
    requires SameReading(Field(v, "task_id"), Field(w, "task_id"))
    requires SameReading(Field(v, "task_type"), Field(w, "task_type"))
    requires SameReading(Field(v, "trace_id"), Field(w, "trace_id"))
    ensures Decode(v) == Decode(w)
  {}

  /** An entry without a text of a task id is refused for that, and only otherwise for its task type. */
  lemma RefusedFor(v: Fields)
    ensures Decode(v) == Err(MissingTaskId) <==> TextOf(v, "task_id") == ""
    ensures Decode(v) == Err(MissingTaskType) <==> TextOf(v, "task_id") != "" && TextOf(v, "task_type") == ""
  {}

  /** Byte values decode like strings, and extra fields are ignored. */
  lemma DecodeReadsThreeFields(v: Fields, w: Fields)
    requires forall k :: k == "task_id" || k == "task_type" || k == "trace_id" ==> StringValue(v, k) == StringValue(w, k)
    ensures Decode(v) == Decode(w)
  {}

  /** What can be decoded was, up to the form of its fields, published. */
  lemma DecodedWasEncoded(values: Fields)
    requires Decode(values).Ok?
    ensures Decode(Encode(Decode(values).value)) == Decode(values)
  {
    RoundTrip(Decode(values).value);
  }

  /** streamMessagesFromRedis: one message that cannot be decoded refuses its whole batch. */
  method DecodeAll(batch: seq<Fields>) returns (r: Result<seq<WireMessage>, DecodeError>)
    ensures r.Ok? <==> forall i :: 0 <= i < |batch| ==> Decode(batch[i]).Ok?
    ensures r.Ok? ==> |r.value| == |batch| && forall i :: 0 <= i < |batch| ==> Decode(batch[i]) == Ok(r.value[i])
    ensures r.Err? ==> exists i ::
      0 <= i < |batch| && Decode(batch[i]) == Err(r.error) && forall j :: 0 <= j < i ==> Decode(batch[j]).Ok?
  {
    var messages := [];
    for i := 0 to |batch|
      invariant |messages| == i
      invariant forall j :: 0 <= j < i ==> Decode(batch[j]) == Ok(messages[j])
    {
      var m := Decode(batch[i]);
      if m.Err? {
        return Err(m.error);
      }
      messages := messages + [m.value];
    }
    r := Ok(messages);
  }
}
