/** The two wire forms of a signature. A signature with raw arguments travels as those arguments
    plus a header table; any other signature travels as one JSON document. */
module Wire {
  import opened GoInt
  import opened Tasks
  import opened Backoff

  /** The value kinds the code puts in or reads from an AMQP table; `Nil` is a missing entry. */
  datatype Field =
    | Nil
    | Str(s: string)
    | Bool(b: bool)
    | Int(i: Int64)
    | Long32(i: Int64)
    | Long64(wide: int)

  type Table = map<string, Field>

  function Lookup(t: Table, key: string): Field {
    if key in t then t[key] else Nil
  }

  function GetString(v: Field): string {
    match v
    case Str(s) => s
    case _ => ""
  }

  function GetInt(v: Field): Int64 {
    match v
    case Long32(i) => i
    case Long64(i) => Wrap64(i)
    case Int(i) => i
    case _ => 0
  }

  /** Only Go's own `int` is accepted, which no table read off the wire contains. */
  function GetUInt8(v: Field): UInt8 {
    match v
    case Int(i) => i % 256
    case _ => 0
  }

  function GetBool(v: Field): bool {
    match v
    case Bool(b) => b
    case _ => false
  }

  function GetInt64(v: Field): Option<int> {
    match v
    case Long64(i) => Some(i)
    case _ => None
  }

  /** An AMQP table has no entry kind for Go's `int`: the client library writes its low 32 bits as a
      long-int (AMQP 0-9-1, section 4.2.5.5), which is read back as an `int32`. */
  function WireField(v: Field): Field {
    if v.Int? then Long32(Wrap32(v.i)) else v
  }

  function OnWire(t: Table): Table {
    map key | key in t :: WireField(t[key])
  }

  function UnixSeconds(t: Time): int {
    t / SECOND
  }

  function FloorToSecond(t: Time): Time {
    UnixSeconds(t) * SECOND
  }

  function BuildHeaders(sig: Signature): Table {
    var headers: Table := map[
      "uuid" := Str(sig.uuid),
      "task_name" := Str(sig.name),
      "retry_count" := Int(sig.retryCount),
      "retry_timeout" := Int(sig.retryTimeout),
      "timeout" := Int(sig.taskTimeOut),
      "wait_time" := Int(sig.waitTime),
      "retries_done" := Int(sig.retriesDone),
      "ignore_if_unregistered" := Bool(sig.ignoreWhenTaskNotRegistered)
    ];
    var headers := if sig.createdAt.Some?
      then headers["created_at" := Long64(UnixSeconds(sig.createdAt.value))] else headers;
    if sig.eta.Some? then headers["eta" := Long64(UnixSeconds(sig.eta.value))] else headers
  }

  function SignatureFromHeaders(headers: Table, body: Body): Signature {
    var createdAt := GetInt64(Lookup(headers, "created_at"));
    var eta := GetInt64(Lookup(headers, "eta"));
    Signature(
      GetString(Lookup(headers, "uuid")),
      GetString(Lookup(headers, "task_name")),
      [],
      Some(body),
      GetString(Lookup(headers, "routing_key")),
      GetUInt8(Lookup(headers, "priority")),
      GetInt(Lookup(headers, "retry_count")),
      GetInt(Lookup(headers, "retry_timeout")),
      GetInt(Lookup(headers, "wait_time")),
      GetInt(Lookup(headers, "retries_done")),
      GetInt(Lookup(headers, "timeout")),
      GetBool(Lookup(headers, "ignore_if_unregistered")),
      if createdAt.Some? then Some(createdAt.value * SECOND) else None,
      if eta.Some? then Some(eta.value * SECOND) else None
    )
  }

  /** Raw arguments decide the wire form; the text "null" is what absent ones decode to. */
  predicate UsesHeaders(sig: Signature) {
    sig.rawArgs.Some? && sig.rawArgs.value != Text("") && sig.rawArgs.value != Text("null")
  }

  /** `encoding/json` refuses raw arguments that are present but empty. */
  predicate Marshals(sig: Signature) {
    sig.rawArgs != Some(Text(""))
  }

  function Prepare(sig: Signature): Result<(Table, Body)> {
    if UsesHeaders(sig) then Ok((BuildHeaders(sig), sig.rawArgs.value))
    else if Marshals(sig) then Ok((map[], Document(sig)))
    else Err(MarshalError)
  }

  function BytesToSignature(body: Body): Result<Signature> {
    match body
    case Text(_) => Err(UndecodableMessage)
    case Document(sig) => Ok(if sig.rawArgs.None? then sig.(rawArgs := Some(Text("null"))) else sig)
  }

  function Decode(headers: Table, body: Body): Result<Signature> {
    if body == Text("") then Err(EmptyMessage)
    else if "task_name" in headers then Ok(SignatureFromHeaders(headers, body))
    else BytesToSignature(body)
  }

  /** What a signature is worth after one trip over the wire. */
  function Normal(sig: Signature): Signature {
    if UsesHeaders(sig) then
      sig.(
        args := [],
        routingKey := "",
        priority := 0,
        retryCount := Wrap32(sig.retryCount),
        retryTimeout := Wrap32(sig.retryTimeout),
        waitTime := Wrap32(sig.waitTime),
        retriesDone := Wrap32(sig.retriesDone),
        taskTimeOut := Wrap32(sig.taskTimeOut),
        createdAt := if sig.createdAt.Some? then Some(FloorToSecond(sig.createdAt.value)) else None,
        eta := if sig.eta.Some? then Some(FloorToSecond(sig.eta.value)) else None)
    else
      sig.(rawArgs := Some(Text("null")))
  }

  /** The header table holds each field under its own key, and no key or priority. */
  lemma HeadersHold(sig: Signature)
    ensures var headers := BuildHeaders(sig);
      && "task_name" in headers
      && Lookup(headers, "uuid") == Str(sig.uuid)
      && Lookup(headers, "task_name") == Str(sig.name)
      && Lookup(headers, "routing_key") == Nil
      && Lookup(headers, "priority") == Nil
      && Lookup(headers, "retry_count") == Int(sig.retryCount)
      && Lookup(headers, "retry_timeout") == Int(sig.retryTimeout)
      && Lookup(headers, "wait_time") == Int(sig.waitTime)
      && Lookup(headers, "retries_done") == Int(sig.retriesDone)
      && Lookup(headers, "timeout") == Int(sig.taskTimeOut)
      && Lookup(headers, "ignore_if_unregistered") == Bool(sig.ignoreWhenTaskNotRegistered)
      && GetInt64(Lookup(headers, "created_at"))
         == (if sig.createdAt.Some? then Some(UnixSeconds(sig.createdAt.value)) else None)
      && GetInt64(Lookup(headers, "eta")) == (if sig.eta.Some? then Some(UnixSeconds(sig.eta.value)) else None)
  {
  }

  lemma LookupOnWire(t: Table, key: string)
    ensures key in OnWire(t) <==> key in t
    ensures Lookup(OnWire(t), key) == WireField(Lookup(t, key))
  {
  }

  lemma HeaderFormRoundTrip(sig: Signature)
    requires UsesHeaders(sig)
    ensures Decode(OnWire(BuildHeaders(sig)), sig.rawArgs.value) == Ok(Normal(sig))
  {
    HeadersHold(sig);
    var headers := BuildHeaders(sig);
    LookupOnWire(headers, "uuid");
    LookupOnWire(headers, "task_name");
    LookupOnWire(headers, "routing_key");
    LookupOnWire(headers, "priority");
    LookupOnWire(headers, "retry_count");
    LookupOnWire(headers, "retry_timeout");
    LookupOnWire(headers, "wait_time");
    LookupOnWire(headers, "retries_done");
    LookupOnWire(headers, "timeout");
    LookupOnWire(headers, "ignore_if_unregistered");
    LookupOnWire(headers, "created_at");
    LookupOnWire(headers, "eta");
  }

  /** A document comes back as it was, but for absent raw arguments, which read "null". */
  lemma DocumentRoundTrip(sig: Signature)
    requires Prepare(sig).Ok? && !UsesHeaders(sig)
    ensures var (headers, body) := Prepare(sig).value;
      Decode(OnWire(headers), body)
      == Ok(if sig.rawArgs == None then sig.(rawArgs := Some(Text("null"))) else sig)
  {
  }

  /** What any publisher's headers are read as once they come off the wire: whole numbers of either width
      as they were written, a routing key, and never a priority. */
  lemma ForeignHeaders(t: Table, body: Body)
    ensures var sig := SignatureFromHeaders(OnWire(t), body);
      && sig.rawArgs == Some(body) && sig.args == [] && sig.priority == 0
      && (Lookup(t, "routing_key").Str? ==> sig.routingKey == Lookup(t, "routing_key").s)
      && (Lookup(t, "retry_count").Long32? ==> sig.retryCount == Lookup(t, "retry_count").i)
      && (Lookup(t, "retry_count").Long64? && FitsInt64(Lookup(t, "retry_count").wide) ==>
            sig.retryCount == Lookup(t, "retry_count").wide)
      && (Lookup(t, "retries_done").Long64? && FitsInt64(Lookup(t, "retries_done").wide) ==>
            sig.retriesDone == Lookup(t, "retries_done").wide)
      && (Lookup(t, "timeout").Long64? && FitsInt64(Lookup(t, "timeout").wide) ==>
            sig.taskTimeOut == Lookup(t, "timeout").wide)
      && (Lookup(t, "eta").Long64? ==> sig.eta == Some(Lookup(t, "eta").wide * SECOND))
      && (!Lookup(t, "eta").Long64? ==> sig.eta.None?)
  {
    LookupOnWire(t, "routing_key");
    LookupOnWire(t, "priority");
    LookupOnWire(t, "retry_count");
    LookupOnWire(t, "retries_done");
    LookupOnWire(t, "timeout");
    LookupOnWire(t, "eta");
  }

  /** A body that is published is the raw arguments exactly when there are any and they are not "null", and
      then the name of the task is in the headers, where a reader looks for it. */
  lemma FormIs(sig: Signature)
    requires Prepare(sig).Ok?
    ensures var (headers, body) := Prepare(sig).value;
      if sig.rawArgs in {None, Some(Text("null"))} then headers == map[] && body == Document(sig)
      else "task_name" in headers && Some(body) == sig.rawArgs && body != Text("")
  {
  }

  /** Every signature that can be published decodes to its normal form, and no published body is empty. */
  lemma RoundTrip(sig: Signature)
    ensures Prepare(sig).Ok? <==> Marshals(sig)
    ensures Marshals(sig) ==>
      var (headers, body) := Prepare(sig).value;
      body != Text("") && Decode(OnWire(headers), body) == Ok(Normal(sig))
  {
    if UsesHeaders(sig) {
      HeaderFormRoundTrip(sig);
    }
  }

  lemma FloorIsIdempotent(t: Time)
    ensures FloorToSecond(t) <= t < FloorToSecond(t) + SECOND
    ensures FloorToSecond(FloorToSecond(t)) == FloorToSecond(t)
  {
  }

  /** One trip loses all that will ever be lost: further trips change nothing and keep the wire form. */
  lemma NormalIsIdempotent(sig: Signature)
    requires Marshals(sig)
    ensures Normal(Normal(sig)) == Normal(sig)
    ensures UsesHeaders(Normal(sig)) == UsesHeaders(sig)
    ensures Marshals(Normal(sig))
  {
  }

  predicate WholeSeconds(t: Option<Time>) {
    t.Some? ==> t.value % SECOND == 0
  }

  /** A trip in header form is lossless exactly for signatures with nothing in the dropped fields,
      32-bit counters and times in whole seconds. */
  lemma HeaderFormIsLosslessIff(sig: Signature)
    requires UsesHeaders(sig)
    ensures Normal(sig) == sig <==>
      && sig.args == [] && sig.routingKey == "" && sig.priority == 0
      && FitsInt32(sig.retryCount) && FitsInt32(sig.retryTimeout) && FitsInt32(sig.waitTime)
      && FitsInt32(sig.retriesDone) && FitsInt32(sig.taskTimeOut)
      && WholeSeconds(sig.createdAt) && WholeSeconds(sig.eta)
  {
  }
}
