/**
 * `SocketService.create`: validate a connection configuration, then open one socket.io
 * connection with `io.connect`. The `$q` promise chain around it is modelled as a Result:
 * a rejected promise is a Failure carrying the rejection reason.
 */
module SocketService {
  import opened Wrappers
  import opened JsValue
  import opened Transport

  /** Why `create` rejects. */
  datatype CreateError =
    | ConfigUndefined            // 'Socket config is undefined'
    | UrlUndefined               // 'URL is undefined'
    | UnsupportedUrlType         // 'Unsupported URL type'
    | ConfigIsNull               // reading `config.url` of `null` throws a TypeError
    | ConnectFailed(thrown: Value) // `io.connect` threw

  /** A failure found before any connection is attempted. */
  predicate IsValidationError(e: CreateError)
  {
    !e.ConnectFailed?
  }

  /** The value the promise is rejected with. */
  function Rejection(e: CreateError): (r: Value)
    ensures e == ConfigUndefined ==> r == Str("Socket config is undefined")
    ensures e == UrlUndefined ==> r == Str("URL is undefined")
    ensures e == UnsupportedUrlType ==> r == Str("Unsupported URL type")
    ensures e == ConfigIsNull ==> r.Obj? && Prop(r, "name") == Str("TypeError")
    ensures e.ConnectFailed? ==> r == e.thrown
    ensures IsValidationError(e) && e != ConfigIsNull ==> r.Str? && |r.s| > 0
  {
    match e
    case ConfigUndefined => Str("Socket config is undefined")
    case UrlUndefined => Str("URL is undefined")
    case UnsupportedUrlType => Str("Unsupported URL type")
    case ConfigIsNull => Obj(map["name" := Str("TypeError")])
    case ConnectFailed(thrown) => thrown
  }

  /** The checks at the front of `create`, in source order; on success, the `io.connect` call to make. */
  function Validate(config: Value): (r: Result<ConnectCall, CreateError>)
    ensures r.Success? <==> !config.Undef? && !config.Null? && Prop(config, "url").Str?
    ensures r.Success? ==> Prop(config, "url") == Str(r.value.url)
    ensures r.Success? ==> (r.value.opts.Some? <==> IsObjectType(Prop(config, "opts")))
    ensures r.Success? && r.value.opts.Some? ==> r.value.opts.value == Prop(config, "opts")
    ensures r.Failure? ==> IsValidationError(r.error)
    ensures config.Undef? ==> r == Failure(ConfigUndefined)
    ensures config.Null? ==> r == Failure(ConfigIsNull)
    ensures !config.Undef? && !config.Null? && Prop(config, "url").Undef? ==> r == Failure(UrlUndefined)
    ensures !config.Undef? && !config.Null? && !Prop(config, "url").Undef? && !Prop(config, "url").Str?
            ==> r == Failure(UnsupportedUrlType)
  {
    if config.Undef? then Failure(ConfigUndefined)
    else if config.Null? then Failure(ConfigIsNull)
    else if Prop(config, "url").Undef? then Failure(UrlUndefined)
    else if !Prop(config, "url").Str? then Failure(UnsupportedUrlType)
    else
      var opts := Prop(config, "opts");
      Success(ConnectCall(Prop(config, "url").s, if IsObjectType(opts) then Some(opts) else None))
  }

  /** The outcome of `create` and the actions it performed. */
  datatype Created = Created(result: Result<SocketId, CreateError>, actions: seq<Action>)

  /** `create(config)`, where `answer` is what `io.connect` does if it is called. */
  function Create(config: Value, answer: ConnectAnswer): (c: Created)
    ensures c.actions == [] <==> Validate(config).Failure?
    ensures Validate(config).Failure? ==> c.result == Failure(Validate(config).error)
    ensures Validate(config).Success? ==> c.actions == [Connect(Validate(config).value)]
    ensures c.result.Success? <==> Validate(config).Success? && answer.Returned?
    ensures c.result.Success? ==> c.result.value == answer.socket
    ensures c.result.Failure? && c.result.error.ConnectFailed? ==> answer == Threw(c.result.error.thrown)
    ensures Validate(config).Success? && answer.Threw? ==> c.result == Failure(ConnectFailed(answer.error))
  {
    match Validate(config)
    case Failure(e) => Created(Failure(e), [])
    case Success(call) =>
      match answer
      case Returned(socket) => Created(Success(socket), [Connect(call)])
      case Threw(err) => Created(Failure(ConnectFailed(err)), [Connect(call)])
  }

  /** The three validation failures reject with three different messages. */
  lemma RejectionMessagesDistinct()
    ensures Rejection(ConfigUndefined) != Rejection(UrlUndefined)
    ensures Rejection(UrlUndefined) != Rejection(UnsupportedUrlType)
    ensures Rejection(ConfigUndefined) != Rejection(UnsupportedUrlType)
  {
  }

  /** The calls the service's tests make: `create()`, `create({})`, `create({url: 1})`,
      and a well-formed configuration with options. */
  lemma CreateExamples(answer: ConnectAnswer, opts: map<string, Value>)
    ensures Create(Undef, answer) == Created(Failure(ConfigUndefined), [])
    ensures Rejection(Create(Undef, answer).result.error) == Str("Socket config is undefined")
    ensures Create(Obj(map[]), answer) == Created(Failure(UrlUndefined), [])
    ensures Rejection(Create(Obj(map[]), answer).result.error) == Str("URL is undefined")
    ensures Create(Obj(map["url" := Num(1)]), answer) == Created(Failure(UnsupportedUrlType), [])
    ensures Rejection(Create(Obj(map["url" := Num(1)]), answer).result.error) == Str("Unsupported URL type")
    ensures Create(Obj(map["url" := Str("http://localhost:9999"), "opts" := Obj(opts)]), answer).actions
            == [Connect(ConnectCall("http://localhost:9999", Some(Obj(opts))))]
  {
  }

  /** A string, number or function passed as the whole configuration has no `url`, so it is
      rejected as 'URL is undefined', not as an unsupported type. */
  lemma PrimitiveConfigHasNoUrl(config: Value, answer: ConnectAnswer)
    requires config.Str? || config.Num? || config.Bool? || config.Func?
    ensures Create(config, answer) == Created(Failure(UrlUndefined), [])
  {
  }

  /** `opts` is inspected only after every check has passed and never causes a rejection:
      changing it does not change whether, or why, an object configuration is rejected. */
  lemma OptsNeverRejects(config: Value, opts: Value)
    requires config.Obj?
    ensures Validate(Obj(config.props["opts" := opts])).Failure? == Validate(config).Failure?
    ensures Validate(config).Failure? ==>
              Validate(Obj(config.props["opts" := opts])).error == Validate(config).error
  {
  }
}
