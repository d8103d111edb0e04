/**
 * Properties of the registry: lookups, idempotent registration, the guarded `push`, the
 * set-once binding slots, the monotone `emited` flag, and what holds along any sequence
 * of registry operations.
 */
module FactoryProperties {
  import opened Wrappers
  import opened JsValue
  import opened Transport
  import opened SocketService
  import opened SocketFactory

  // ---------------------------------------------------------------- lookups

  /** `hasSocket`, `get`, `socket` and `getList` agree. A registered name gives its entry and
      socket; a name inherited from `Object.prototype` is accepted by `hasSocket`, `get` gives the
      built-in member and `socket` gives `undefined`; any other name gives `false`/`null`. */
  lemma LookupsAgree(es: Entries, name: string)
    ensures HasSocket(es, name) <==> name in es || Inherited(name)
    ensures HasSocket(es, name) <==> !Get(es, name).NoEntry?
    ensures HasSocket(es, name) <==> !Socket(es, name).NullSocket?
    ensures HasSocket(es, name) <==> name in GetList(es) || Inherited(name)
    ensures name in es ==> Get(es, name) == Own(es[name]) && Socket(es, name) == SocketIs(es[name].socket)
    ensures name !in es && Inherited(name) ==> Get(es, name) == Builtin(name) && Socket(es, name) == UndefinedSocket
  {
  }

  /** `getOn`/`getEmit` give `null` for an unknown name, an inherited name or an empty slot,
      and do not look at the event name. */
  lemma SlotLookups(es: Entries, name: string, e1: Value, e2: Value)
    ensures GetOn(es, name, e1) == GetOn(es, name, e2)
    ensures GetEmit(es, name, e1) == GetEmit(es, name, e2)
    ensures GetOn(es, name, e1).None? <==> name !in es || es[name].on.None?
    ensures GetEmit(es, name, e1).None? <==> name !in es || es[name].emit.None?
  {
  }

  /** A fresh registry lists no socket (the factory's first test). Its lookups miss, except
      those of the names every plain object inherits, such as `toString`. */
  lemma EmptyRegistry(name: string, event: Value)
    ensures |GetList(map[])| == 0
    ensures HasSocket(map[], name) <==> Inherited(name)
    ensures !Inherited(name) ==> Get(map[], name) == NoEntry && Socket(map[], name) == NullSocket
    ensures Inherited(name) ==> Get(map[], name) == Builtin(name) && Socket(map[], name) == UndefinedSocket
    ensures GetOn(map[], name, event).None? && GetEmit(map[], name, event).None?
    ensures HasSocket(map[], "toString") && !HasSocket(map[], "socket1")
  {
  }

  // ---------------------------------------------------------------- add

  /** `add` on a name `hasSocket` accepts resolves with what `get` gives (the existing entry, or
      the built-in member of an inherited name), changes nothing and makes no connection attempt. */
  lemma AddExistingIsIdempotent(es: Entries, name: Value, config: Value, answer: ConnectAnswer)
    requires HasSocket(es, ToStr(name))
    ensures AddStep(es, name, config, answer) == Step(es, Resolved(Get(es, ToStr(name))), [])
    ensures ToStr(name) in es ==> AddStep(es, name, config, answer).result == Resolved(Own(es[ToStr(name)]))
  {
  }

  /** `add('toString', cfg)` on an empty registry resolves with the built-in `toString` and
      never calls `io.connect`. */
  lemma AddInheritedName(config: Value, answer: ConnectAnswer)
    ensures AddStep(map[], Str("toString"), config, answer) == Step(map[], Resolved(Builtin("toString")), [])
  {
  }

  /** `add` on a new name: the connection's outcome decides; on success exactly one
      `io.connect` is made and a fresh entry with empty slots is stored under the name. */
  lemma AddNewName(es: Entries, name: Value, config: Value, socket: SocketId)
    requires !HasSocket(es, ToStr(name)) && !name.Undef?
    requires Validate(config).Success?
    ensures var s := AddStep(es, name, config, Returned(socket));
      && s.entries == es[ToStr(name) := Entry(socket, None, None)]
      && s.result == Resolved(Own(Entry(socket, None, None)))
      && s.actions == [Connect(Validate(config).value)]
      && Get(s.entries, ToStr(name)) == s.result.value
  {
  }

  /** A failed `create` leaves the registry as it was; a validation failure also makes no
      connection attempt. */
  lemma AddFailureLeavesRegistry(es: Entries, name: Value, config: Value, answer: ConnectAnswer)
    requires !HasSocket(es, ToStr(name)) && Create(config, answer).result.Failure?
    ensures var s := AddStep(es, name, config, answer);
      && s.entries == es
      && s.result == Rejected(Create(config, answer).result.error)
      && (Validate(config).Failure? ==> s.actions == [])
  {
  }

  /** With an `undefined` name the connection is still opened, but `addToList` stores
      nothing and the promise resolves with `undefined`. */
  lemma AddUndefinedName(es: Entries, config: Value, socket: SocketId)
    requires "undefined" !in es && Validate(config).Success?
    ensures AddStep(es, Undef, config, Returned(socket)) == Step(es, Resolved(NoEntry), [Connect(Validate(config).value)])
  {
  }

  /** Two `add` calls with the same name, the second after the first resolved: the second
      returns the entry the first stored and opens no second connection. */
  lemma AddTwiceConnectsOnce(es: Entries, name: Value, c1: Value, a1: ConnectAnswer, c2: Value, a2: ConnectAnswer)
    requires !name.Undef?
    requires AddStep(es, name, c1, a1).result.Resolved?
    ensures var s1 := AddStep(es, name, c1, a1);
      var s2 := AddStep(s1.entries, name, c2, a2);
      && s2.entries == s1.entries
      && s2.actions == []
      && s2.result == s1.result
  {
  }

  /** The error path as the source is written: `add('s1', {})` on an empty registry fails
      validation with 'URL is undefined', yet its promise never settles. */
  lemma AddAsWrittenNeverSettles(answer: ConnectAnswer)
    ensures Create(Obj(map[]), answer).result == Failure(UrlUndefined)
    ensures AddSettlementAsWritten(map[], Str("s1"), Obj(map[]), answer) == NeverSettles
    ensures AddStep(map[], Str("s1"), Obj(map[]), answer).result == Rejected(UrlUndefined)
  {
  }

  // ---------------------------------------------------------------- push

  /** `push` refuses (returns `false`) exactly when the name is not a string, the socket is
      `undefined`, or `hasSocket` accepts the name (registered or inherited); otherwise it
      stores a fresh entry for that socket under that name, returns it and leaves every other
      entry untouched. */
  lemma PushRules(es: Entries, name: Value, socket: Option<SocketId>)
    ensures var s := PushStep(es, name, socket);
      s.result.None? <==> (!name.Str? || socket.None? || HasSocket(es, name.s))
    ensures var s := PushStep(es, name, socket);
      s.result.None? ==> s.entries == es
    ensures var s := PushStep(es, name, socket);
      s.result.Some? ==>
        && s.result == Some(Entry(socket.value, None, None))
        && s.entries.Keys == es.Keys + {name.s}
        && s.entries[name.s] == s.result.value
        && (forall n :: n in es ==> s.entries[n] == es[n])
  {
  }

  /** The empty string is a string, so `push` accepts it as a name; an inherited name is refused. */
  lemma PushNameExamples(socket: SocketId)
    ensures PushStep(map[], Str(""), Some(socket)).result == Some(Entry(socket, None, None))
    ensures PushStep(map[], Str("constructor"), Some(socket)) == Step(map[], None, [])
  {
  }

  // ---------------------------------------------------------------- addOn / addEmit

  /** `addOn` on an unknown name returns `null` and does nothing. */
  lemma AddOnUnknownName(es: Entries, name: string, event: Value, bc: Value, callback: Value)
    requires !HasSocket(es, name)
    ensures AddOnStep(es, name, event, bc, callback) == Step(es, Success(None), [])
  {
  }

  /** `addOn` and `addEmit` on an inherited name throw a `TypeError` (the built-in member
      has no socket to attach to), attach no listener and send nothing. */
  lemma BindInheritedNameThrows(es: Entries, name: string, event: Value, bc: Value, callback: Value)
    requires name !in es && Inherited(name)
    ensures AddOnStep(es, name, event, bc, callback) == Step(es, Failure(TypeError), [])
    ensures AddEmitStep(es, name, event, bc, callback) == Step(es, Failure(TypeError), [])
  {
  }

  /** The first `addOn` of an entry stores `{event_name, bc_name, callback}` with the derived
      topic, attaches exactly one listener to that entry's socket and changes nothing else. */
  lemma AddOnFirstCall(es: Entries, name: string, event: Value, bc: Value, callback: Value)
    requires name in es && es[name].on.None?
    ensures var s := AddOnStep(es, name, event, bc, callback);
      && s.result == Success(Some(OnBinding(event, GetBcName(name, event, bc), callback)))
      && s.actions == [Listen(es[name].socket, event)]
      && s.entries == es[name := es[name].(on := s.result.value)]
  {
  }

  /** A filled `on` slot is returned as it is: no new binding, no second listener. */
  lemma AddOnIdempotent(es: Entries, name: string, event: Value, bc: Value, callback: Value)
    requires name in es && es[name].on.Some?
    ensures AddOnStep(es, name, event, bc, callback) == Step(es, Success(es[name].on), [])
  {
  }

  /** After `addOn` on a registered name, `getOn` returns that same binding, for any event name. */
  lemma GetOnAfterAddOn(es: Entries, name: string, event: Value, bc: Value, callback: Value, other: Value)
    requires name in es
    ensures var s := AddOnStep(es, name, event, bc, callback);
      s.result.Success? && s.result.value.Some? && GetOn(s.entries, name, other) == s.result.value
  {
  }

  /** The slot is shared by all event names: after `addOn(n, 'a')`, `addOn(n, 'b')` returns the
      binding for 'a' and attaches no listener for 'b'. */
  lemma OnSlotSharedByEvents(es: Entries, name: string, a: Value, b: Value, bc1: Value, cb1: Value, bc2: Value, cb2: Value)
    requires name in es && es[name].on.None?
    ensures var s1 := AddOnStep(es, name, a, bc1, cb1);
      var s2 := AddOnStep(s1.entries, name, b, bc2, cb2);
      && s2.result == s1.result
      && s2.result.value.value.eventName == a
      && s2.actions == []
      && s2.entries == s1.entries
  {
  }

  /** `addEmit` on an unknown name returns `null` and does nothing. */
  lemma AddEmitUnknownName(es: Entries, name: string, event: Value, bc: Value, callback: Value)
    requires !HasSocket(es, name)
    ensures AddEmitStep(es, name, event, bc, callback) == Step(es, Success(None), [])
  {
  }

  /** The first `addEmit` of an entry stores a binding with `emited` false, sends exactly one
      emit on that entry's socket and changes nothing else. */
  lemma AddEmitFirstCall(es: Entries, name: string, event: Value, bc: Value, callback: Value)
    requires name in es && es[name].emit.None?
    ensures var s := AddEmitStep(es, name, event, bc, callback);
      && s.result == Success(Some(EmitBinding(event, GetBcName(name, event, bc), callback, false)))
      && !s.result.value.value.emited
      && s.actions == [Emit(es[name].socket, event)]
      && s.entries == es[name := es[name].(emit := s.result.value)]
  {
  }

  /** A filled `emit` slot is returned as it is: nothing is sent again. */
  lemma AddEmitIdempotent(es: Entries, name: string, event: Value, bc: Value, callback: Value)
    requires name in es && es[name].emit.Some?
    ensures AddEmitStep(es, name, event, bc, callback) == Step(es, Success(es[name].emit), [])
  {
  }

  /** After `addEmit` on a registered name, `getEmit` returns that same binding, for any event name. */
  lemma GetEmitAfterAddEmit(es: Entries, name: string, event: Value, bc: Value, callback: Value, other: Value)
    requires name in es
    ensures var s := AddEmitStep(es, name, event, bc, callback);
      s.result.Success? && s.result.value.Some? && GetEmit(s.entries, name, other) == s.result.value
  {
  }

  /** Two `addEmit` calls: the second returns the first's binding and sends nothing. */
  lemma AddEmitTwiceSendsOnce(es: Entries, name: string, e1: Value, bc1: Value, cb1: Value, e2: Value, bc2: Value, cb2: Value)
    ensures var s1 := AddEmitStep(es, name, e1, bc1, cb1);
      var s2 := AddEmitStep(s1.entries, name, e2, bc2, cb2);
      && s2.result == s1.result
      && s2.actions == []
      && s2.entries == s1.entries
  {
  }

  /** The acknowledgement closure broadcasts every time socket.io calls it, but only its first
      call changes the registry: afterwards `getEmit` reports the binding as `emited` for every
      event name, and a repeated call leaves the registry as it is. */
  lemma AcknowledgeRepeats(es: Entries, name: string, event: Value)
    requires name in es && es[name].emit.Some?
    ensures var s1 := AcknowledgeStep(es, name);
      && GetEmit(s1.entries, name, event) == Some(es[name].emit.value.(emited := true))
      && var s2 := AcknowledgeStep(s1.entries, name);
      && s2.entries == s1.entries
      && s2.actions == s1.actions
  {
  }

  // ---------------------------------------------------------------- sequences of operations

  /** One call into the registry, or one callback from the transport. */
  datatype Op =
    | AddOp(value: Value, config: Value, answer: ConnectAnswer)
    | PushOp(value: Value, socket: Option<SocketId>)
    | RemoveOp(value: Value)
    | AddOnOp(name: string, event: Value, bc: Value, callback: Value)
    | AddEmitOp(name: string, event: Value, bc: Value, callback: Value)
    | AckOp(name: string)      // the acknowledgement of `name`'s emit arrives
    | DeliverOp(name: string)  // the event of `name`'s on binding arrives

  /** The new map and the actions of one operation. A callback whose listener does not exist
      (no binding in that slot) cannot arrive, and changes nothing. */
  function Apply(es: Entries, op: Op): (Entries, seq<Action>)
  {
    match op
    case AddOp(n, c, a) => var s := AddStep(es, n, c, a); (s.entries, s.actions)
    case PushOp(n, sock) => var s := PushStep(es, n, sock); (s.entries, s.actions)
    case RemoveOp(_) => (es, [])
    case AddOnOp(n, e, b, cb) => var s := AddOnStep(es, n, e, b, cb); (s.entries, s.actions)
    case AddEmitOp(n, e, b, cb) => var s := AddEmitStep(es, n, e, b, cb); (s.entries, s.actions)
    case AckOp(n) =>
      if n in es && es[n].emit.Some? then var s := AcknowledgeStep(es, n); (s.entries, s.actions)
      else (es, [])
    case DeliverOp(n) =>
      if n in es && es[n].on.Some? then var s := DeliverStep(es, n); (s.entries, s.actions)
      else (es, [])
  }

  /** The registry after `ops`, and every action they performed, in order. */
  function Run(es: Entries, ops: seq<Op>): (Entries, seq<Action>)
    decreases |ops|
  {
    if ops == [] then (es, [])
    else
      var first := Apply(es, ops[0]);
      var rest := Run(first.0, ops[1..]);
      (rest.0, first.1 + rest.1)
  }

  lemma GrowsTransitive(a: Entries, b: Entries, c: Entries)
    requires Grows(a, b) && Grows(b, c)
    ensures Grows(a, c)
  {
  }

  lemma ApplyGrows(es: Entries, op: Op)
    ensures Grows(es, Apply(es, op).0)
  {
  }

  /** Along any sequence of operations no entry is lost, no socket is replaced, a filled slot
      keeps its binding, and `emited` never goes back to false. */
  lemma {:induction false} RunGrows(es: Entries, ops: seq<Op>)
    ensures Grows(es, Run(es, ops).0)
    decreases |ops|
  {
    if ops != [] {
      var first := Apply(es, ops[0]);
      ApplyGrows(es, ops[0]);
      RunGrows(first.0, ops[1..]);
      GrowsTransitive(es, first.0, Run(es, ops).0);
    }
  }

  /** Once the acknowledgement has set `emited`, it stays set whatever happens next. */
  lemma EmitedNeverResets(es: Entries, ops: seq<Op>, name: string)
    requires name in es && es[name].emit.Some? && es[name].emit.value.emited
    ensures var after := Run(es, ops).0;
      name in after && after[name].emit.Some? && after[name].emit.value.emited
  {
    RunGrows(es, ops);
  }

  lemma ApplyKeepsConsistent(es: Entries, log: seq<Action>, op: Op)
    requires Consistent(es, log)
    ensures Consistent(Apply(es, op).0, log + Apply(es, op).1)
  {
  }

  /** Along any sequence of operations every filled `on` slot has had its listener attached,
      every filled `emit` slot has been sent, and every set `emited` flag has been broadcast. */
  lemma {:induction false} RunKeepsConsistent(es: Entries, log: seq<Action>, ops: seq<Op>)
    requires Consistent(es, log)
    ensures Consistent(Run(es, ops).0, log + Run(es, ops).1)
    decreases |ops|
  {
    if ops != [] {
      var first := Apply(es, ops[0]);
      ApplyKeepsConsistent(es, log, ops[0]);
      RunKeepsConsistent(first.0, log + first.1, ops[1..]);
      var rest := Run(first.0, ops[1..]);
      assert log + first.1 + rest.1 == log + (first.1 + rest.1);
    }
  }

  /** No operation stores an entry under an inherited name: `hasSocket` already accepts it. */
  lemma ApplyAddsNoInherited(es: Entries, op: Op)
    ensures forall n :: n in Apply(es, op).0 && n !in es ==> !Inherited(n)
  {
  }

  lemma {:induction false} RunAddsNoInherited(es: Entries, ops: seq<Op>)
    ensures forall n :: n in Run(es, ops).0 && n !in es ==> !Inherited(n)
    decreases |ops|
  {
    if ops != [] {
      var first := Apply(es, ops[0]);
      ApplyAddsNoInherited(es, ops[0]);
      RunAddsNoInherited(first.0, ops[1..]);
      ApplyGrows(es, ops[0]);
    }
  }

  /** A name `hasSocket` accepts stays accepted, with the same `socket` answer, along any sequence
      of operations (`remove` is a stub). */
  lemma RegisteredStaysRegistered(es: Entries, ops: seq<Op>, name: string)
    requires HasSocket(es, name)
    ensures HasSocket(Run(es, ops).0, name) && Socket(Run(es, ops).0, name) == Socket(es, name)
  {
    RunGrows(es, ops);
    RunAddsNoInherited(es, ops);
  }
}
