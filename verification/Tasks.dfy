/** The task signature and the values it is made of. */
module Tasks {
  import opened GoInt

  /** Nanoseconds since the Unix epoch. */
  type Time = int

  datatype Option<+T> = None | Some(value: T)

  datatype Error = EmptyMessage | UndecodableMessage | TaskMustBeFunc | MarshalError | PublishError

  datatype Result<+T> = Ok(value: T) | Err(error: Error)

  datatype Arg = Arg(name: string, kind: string, value: string)

  /** The bytes of a message body or of RawArgs: the JSON document `encoding/json` writes for a
      signature, or any other text. A text is one that does not decode as a signature. */
  datatype Body = Text(chars: string) | Document(signature: Signature)

  datatype Signature = Signature(
    uuid: string,
    name: string,
    args: seq<Arg>,
    rawArgs: Option<Body>,
    routingKey: string,
    priority: UInt8,
    retryCount: Int64,
    retryTimeout: Int64,
    waitTime: Int64,
    retriesDone: Int64,
    taskTimeOut: Int64,
    ignoreWhenTaskNotRegistered: bool,
    createdAt: Option<Time>,
    eta: Option<Time>
  )
}
