/**
 * `SocketFactory`: the registry of named socket.io connections and the `on`/`emit`
 * bindings attached to them.
 *
 * The registry is a map from a name to an entry `{socket, on, emit}`. The source stores a
 * binding under the literal property `event_name` of the entry's `on` (or `emit`) object,
 * not under the event's name, so each entry has exactly one `on` slot and one `emit` slot,
 * shared by every event name; the model keeps that as an `Option` per slot.
 *
 * Each operation is specified by a step function over the map (new map, result, actions
 * performed on the outside world); the class `Registry` implements the operations in place
 * and its methods are proved to follow the step functions.
 */
module SocketFactory {
  import opened Wrappers
  import opened JsValue
  import opened Transport
  import opened SocketService

  /** The object `addOn` stores: `{event_name, bc_name, callback}`. */
  datatype OnBinding = OnBinding(eventName: Value, bcName: string, callback: Value)

  /** The object `addEmit` stores: `{event_name, bc_name, callback, emited}`. */
  datatype EmitBinding = EmitBinding(eventName: Value, bcName: string, callback: Value, emited: bool)

  /** A registry entry `{socket, on, emit}` with its two binding slots. */
  datatype Entry = Entry(socket: SocketId, on: Option<OnBinding>, emit: Option<EmitBinding>)

  /** `socketList`, keyed by property key: its own properties. Being a plain object, it also
      inherits the members of `Object.prototype` (see `JsValue.Inherited`). */
  type Entries = map<string, Entry>

  /** An entry as `addToList` and `push` create it: `on` and `emit` are empty objects. */
  function NewEntry(socket: SocketId): Entry
  {
    Entry(socket, None, None)
  }

  /** What `socketList[name]` yields: nothing, an entry of the registry, or the built-in
      member `Object.prototype[key]` that an otherwise unknown name inherits. */
  datatype Lookup = NoEntry | Own(entry: Entry) | Builtin(key: string)

  /** What `socket(name)` returns: `null`, `undefined` (the built-in has no `socket`), or a socket. */
  datatype SocketLookup = NullSocket | UndefinedSocket | SocketIs(socket: SocketId)

  /** A `TypeError` thrown by calling a method of `undefined`. */
  datatype CallError = TypeError

  /** The result of one operation: the new map, what the operation returns, and what it did. */
  datatype Step<T> = Step(entries: Entries, result: T, actions: seq<Action>)

  /** How the promise returned by `add` settles; `Resolved(NoEntry)` resolves with `undefined`. */
  datatype Settlement = Resolved(value: Lookup) | Rejected(error: CreateError) | NeverSettles

  // ---------------------------------------------------------------- names and lookups

  /** `getBcName(name, event_name, bc_name)`: the broadcast topic of a binding. */
  function GetBcName(name: string, event: Value, bc: Value): (r: string)
    ensures |r| > 0
    ensures bc.Str? && |bc.s| > 0 ==> r == bc.s
    ensures !bc.Str? || bc.s == "" ==> r == name + ":" + ToStr(event)
    ensures !bc.Str? || bc.s == "" ==> r[..|name|] == name && r[|name|] == ':'
  {
    if bc.Str? && |bc.s| > 0 then bc.s else name + ":" + ToStr(event)
  }

  /** The property read `socketList[name]`: an own entry, else the member inherited from
      `Object.prototype`, else `undefined` (`NoEntry`). */
  function Member(es: Entries, name: string): Lookup
  {
    if name in es then Own(es[name])
    else if Inherited(name) then Builtin(name)
    else NoEntry
  }

  /** `hasSocket(name)`: `socketList[name]` is not `undefined`, which also holds of inherited names. */
  function HasSocket(es: Entries, name: string): (r: bool)
    ensures r <==> !Member(es, name).NoEntry?
    ensures name in es ==> r
    ensures r && !Inherited(name) ==> name in es
  {
    name in es || Inherited(name)
  }

  /** `get(name)`; `NoEntry` is `null`. */
  function Get(es: Entries, name: string): (r: Lookup)
    ensures r.NoEntry? <==> !HasSocket(es, name)
    ensures HasSocket(es, name) ==> r == Member(es, name)
    ensures name in es ==> r == Own(es[name])
    ensures name !in es && Inherited(name) ==> r == Builtin(name)
  {
    if !HasSocket(es, name) then NoEntry
    else if name in es then Own(es[name])
    else Builtin(name)
  }

  /** `socket(name)`: `socketList[name].socket`, or `null` for an unknown name. */
  function Socket(es: Entries, name: string): (r: SocketLookup)
    ensures r.NullSocket? <==> Get(es, name).NoEntry?
    ensures r.SocketIs? <==> Get(es, name).Own?
    ensures r.SocketIs? ==> r.socket == Get(es, name).entry.socket
    ensures r.UndefinedSocket? <==> Get(es, name).Builtin?
  {
    if !HasSocket(es, name) then NullSocket
    else if name in es then SocketIs(es[name].socket)
    else UndefinedSocket
  }

  /** `getOn(name, event_name)`; the event name is not consulted (literal slot). A built-in
      member has no `on`, so an inherited name also gives `null`. */
  function GetOn(es: Entries, name: string, event: Value): (r: Option<OnBinding>)
    ensures Get(es, name).Own? ==> r == Get(es, name).entry.on
    ensures !Get(es, name).Own? ==> r == None
    ensures r.None? <==> name !in es || es[name].on.None?
  {
    if !HasSocket(es, name) then None
    else if name !in es then None
    else es[name].on
  }

  /** `getEmit(name, event_name)`; as `GetOn`, for the `emit` slot. */
  function GetEmit(es: Entries, name: string, event: Value): (r: Option<EmitBinding>)
    ensures Get(es, name).Own? ==> r == Get(es, name).entry.emit
    ensures !Get(es, name).Own? ==> r == None
    ensures r.None? <==> name !in es || es[name].emit.None?
  {
    if !HasSocket(es, name) then None
    else if name !in es then None
    else es[name].emit
  }

  /** `getList()`: the registry itself. Its keys (what `Object.keys` lists) are the registered
      names; `hasSocket` accepts those and the inherited names, and `get`/`socket` report
      the values. */
  function GetList(es: Entries): (r: Entries)
    ensures forall n :: n in r <==> n in es
    ensures forall n :: HasSocket(es, n) <==> n in r || Inherited(n)
    ensures forall n :: n in r ==> Get(es, n) == Own(r[n]) && Socket(es, n) == SocketIs(r[n].socket)
  {
    es
  }

  // ---------------------------------------------------------------- invariants and frames

  /** What one operation may do to an existing entry: keep its socket, keep a filled `on`
      slot as it is, keep a filled `emit` slot except that `emited` may only become true. */
  predicate Persists(x: Entry, y: Entry)
  {
    && y.socket == x.socket
    && (x.on.Some? ==> y.on == x.on)
    && (x.emit.Some? ==>
          && y.emit.Some?
          && y.emit.value.eventName == x.emit.value.eventName
          && y.emit.value.bcName == x.emit.value.bcName
          && y.emit.value.callback == x.emit.value.callback
          && (x.emit.value.emited ==> y.emit.value.emited))
  }

  /** No entry is lost and every entry persists. */
  predicate Grows(before: Entries, after: Entries)
  {
    forall n :: n in before ==> n in after && Persists(before[n], after[n])
  }

  /** `after` is `before`, possibly with one more entry under `key`; existing entries are untouched. */
  predicate AddsOnly(before: Entries, after: Entries, key: string)
  {
    && before.Keys <= after.Keys <= before.Keys + {key}
    && forall n :: n in before ==> after[n] == before[n]
  }

  /** `after` has the same names as `before`, and only the entry under `name` may differ. */
  predicate OthersUnchanged(before: Entries, after: Entries, name: string)
  {
    && after.Keys == before.Keys
    && forall n :: n in before && n != name ==> after[n] == before[n]
  }

  /** Every filled slot of `e` was backed by the transport action that goes with it. */
  predicate EntryLogged(e: Entry, log: seq<Action>)
  {
    && (e.on.Some? ==> Listen(e.socket, e.on.value.eventName) in log)
    && (e.emit.Some? ==> Emit(e.socket, e.emit.value.eventName) in log)
    && (e.emit.Some? && e.emit.value.emited ==> Broadcast(e.emit.value.bcName) in log)
  }

  /** The registry agrees with the log of actions performed so far. */
  predicate Consistent(es: Entries, log: seq<Action>)
  {
    forall n :: n in es ==> EntryLogged(es[n], log)
  }

  // ---------------------------------------------------------------- step functions

  /** `addToList({name, socket})`: stores a fresh entry unless the name is `undefined`. */
  function AddToListStep(es: Entries, name: Value, socket: SocketId): (r: Step<Option<Entry>>)
    ensures r.actions == []
    ensures name.Undef? ==> r.entries == es && r.result.None?
    ensures !name.Undef? ==>
      && r.result == Some(NewEntry(socket))
      && r.entries.Keys == es.Keys + {ToStr(name)}
      && Get(r.entries, ToStr(name)) == Own(NewEntry(socket))
      && (forall n :: n in es && n != ToStr(name) ==> r.entries[n] == es[n])
    ensures ToStr(name) !in es ==> Grows(es, r.entries) && AddsOnly(es, r.entries, ToStr(name))
  {
    if name.Undef? then Step(es, None, [])
    else Step(es[ToStr(name) := NewEntry(socket)], Some(NewEntry(socket)), [])
  }

  /** `add(name, config)`, with `add` treated as atomic. Unlike the source (see
      `AddSettlementAsWritten`), a `create` failure rejects the promise. */
  function AddStep(es: Entries, name: Value, config: Value, answer: ConnectAnswer): (r: Step<Settlement>)
    ensures Grows(es, r.entries)
    ensures AddsOnly(es, r.entries, ToStr(name))
    ensures HasSocket(es, ToStr(name)) ==> r == Step(es, Resolved(Get(es, ToStr(name))), [])
    ensures !r.result.NeverSettles?
    ensures r.result.Rejected? <==> !HasSocket(es, ToStr(name)) && Create(config, answer).result.Failure?
    ensures r.result.Rejected? ==> r.entries == es && r.result.error == Create(config, answer).result.error
    ensures forall a :: a in r.actions ==> a.Connect?
  {
    var key := ToStr(name);
    if HasSocket(es, key) then Step(es, Resolved(Get(es, key)), [])
    else
      var c := Create(config, answer);
      match c.result
      case Failure(e) => Step(es, Rejected(e), c.actions)
      case Success(socket) =>
        var t := AddToListStep(es, name, socket);
        Step(t.entries, Resolved(if t.result.Some? then Own(t.result.value) else NoEntry), c.actions)
  }

  /** How `add`'s promise settles as the source is written: the inner `add` (lines 81-93)
      resolves its deferred on success only, so on a failure the promise is left pending. */
  function AddSettlementAsWritten(es: Entries, name: Value, config: Value, answer: ConnectAnswer): (r: Settlement)
    ensures r.NeverSettles? <==> !HasSocket(es, ToStr(name)) && Create(config, answer).result.Failure?
    ensures !r.NeverSettles? ==> r == AddStep(es, name, config, answer).result
  {
    var s := AddStep(es, name, config, answer);
    if s.result.Rejected? then NeverSettles else s.result
  }

  /** `push(name, socket)`; a `None` socket is `undefined`, a `None` result is `false`. */
  function PushStep(es: Entries, name: Value, socket: Option<SocketId>): (r: Step<Option<Entry>>)
    ensures Grows(es, r.entries)
    ensures r.actions == []
    ensures r.result.None? ==> r.entries == es
    ensures r.result.Some? ==> name.Str? && AddsOnly(es, r.entries, name.s) && name.s in r.entries && r.entries[name.s] == r.result.value
  {
    if !name.Str? then Step(es, None, [])
    else if socket.None? then Step(es, None, [])
    else if HasSocket(es, name.s) then Step(es, None, [])
    else Step(es[name.s := NewEntry(socket.value)], Some(NewEntry(socket.value)), [])
  }

  /** `addOn(name, event_name, bc_name, callback)`; `Success(None)` is `null`. On an inherited
      name the source reaches `socketList[name].socket.on(...)` with `socket` undefined and throws. */
  function AddOnStep(es: Entries, name: string, event: Value, bc: Value, callback: Value)
    : (r: Step<Result<Option<OnBinding>, CallError>>)
    ensures Grows(es, r.entries)
    ensures OthersUnchanged(es, r.entries, name)
    ensures name in es ==> r.entries[name].socket == es[name].socket && r.entries[name].emit == es[name].emit
    ensures name !in es || es[name].on.Some? ==> r.entries == es && r.actions == []
    ensures |r.actions| <= 1
  {
    if !HasSocket(es, name) then Step(es, Success(None), [])
    else if name !in es then Step(es, Failure(TypeError), [])
    else if es[name].on.Some? then Step(es, Success(es[name].on), [])
    else
      var b := OnBinding(event, GetBcName(name, event, bc), callback);
      Step(es[name := es[name].(on := Some(b))], Success(Some(b)), [Listen(es[name].socket, event)])
  }

  /** `addEmit(name, event_name, bc_name, callback)`; `Success(None)` is `null`, and an
      inherited name throws as in `AddOnStep`. */
  function AddEmitStep(es: Entries, name: string, event: Value, bc: Value, callback: Value)
    : (r: Step<Result<Option<EmitBinding>, CallError>>)
    ensures Grows(es, r.entries)
    ensures OthersUnchanged(es, r.entries, name)
    ensures name in es ==> r.entries[name].socket == es[name].socket && r.entries[name].on == es[name].on
    ensures name !in es || es[name].emit.Some? ==> r.entries == es && r.actions == []
    ensures |r.actions| <= 1
  {
    if !HasSocket(es, name) then Step(es, Success(None), [])
    else if name !in es then Step(es, Failure(TypeError), [])
    else if es[name].emit.Some? then Step(es, Success(es[name].emit), [])
    else
      var b := EmitBinding(event, GetBcName(name, event, bc), callback, false);
      Step(es[name := es[name].(emit := Some(b))], Success(Some(b)), [Emit(es[name].socket, event)])
  }

  /** The acknowledgement closure `addEmit` hands to `socket.emit`: broadcast under the
      binding's topic, then set `emited`. It exists only once the emit slot is filled. */
  function AcknowledgeStep(es: Entries, name: string): (r: Step<()>)
    requires name in es && es[name].emit.Some?
    ensures Grows(es, r.entries)
    ensures OthersUnchanged(es, r.entries, name)
    ensures r.entries[name].socket == es[name].socket && r.entries[name].on == es[name].on
    ensures r.entries[name].emit == Some(es[name].emit.value.(emited := true))
    ensures r.actions == [Broadcast(es[name].emit.value.bcName)]
  {
    var e := es[name];
    var b := e.emit.value;
    Step(es[name := e.(emit := Some(b.(emited := true)))], (), [Broadcast(b.bcName)])
  }

  /** The listener `addOn` attaches, firing once: broadcast under the binding's topic. */
  function DeliverStep(es: Entries, name: string): (r: Step<()>)
    requires name in es && es[name].on.Some?
    ensures r.entries == es
    ensures r.actions == [Broadcast(es[name].on.value.bcName)]
  {
    Step(es, (), [Broadcast(es[name].on.value.bcName)])
  }

  // ---------------------------------------------------------------- the registry object

  /** The factory's module-level `socketList` and the operations that update it in place. */
  class Registry {
    var entries: Entries
    /** Everything done so far to sockets, to `io.connect` and to the broadcast bus. */
    ghost var log: seq<Action>

    ghost predicate Valid()
      reads this
    {
      Consistent(entries, log)
    }

    /** `var socketList = {}` */
    constructor ()
      ensures Valid()
      ensures entries == map[] && log == []
    {
      entries := map[];
      log := [];
    }

    /** `addToList(data)` */
    method AddToList(name: Value, socket: SocketId) returns (r: Option<Entry>)
      requires Valid()
      modifies this
      ensures Valid()
      ensures var s := AddToListStep(old(entries), name, socket);
        entries == s.entries && r == s.result && log == old(log)
    {
      if name.Undef? {
        return None;
      }
      var entry := NewEntry(socket);
      entries := entries[ToStr(name) := entry];
      r := Some(entry);
    }

    /** `add(name, config)`; `answer` is what `io.connect` does if it is called. Follows the
        corrected `AddStep`: a `create` failure rejects, where the source's promise never settles. */
    method Add(name: Value, config: Value, answer: ConnectAnswer) returns (r: Settlement)
      requires Valid()
      modifies this
      ensures Valid()
      ensures var s := AddStep(old(entries), name, config, answer);
        entries == s.entries && r == s.result && log == old(log) + s.actions
      ensures r.Resolved? && r.value.Own? ==> Get(entries, ToStr(name)) == r.value
    {
      var key := ToStr(name);
      if HasSocket(entries, key) {
        return Resolved(Get(entries, key));
      }
      var created := Create(config, answer);
      log := log + created.actions;
      match created.result
      case Failure(e) =>
        r := Rejected(e);
      case Success(socket) =>
        var entry := AddToList(name, socket);
        r := Resolved(if entry.Some? then Own(entry.value) else NoEntry);
    }

    /** `push(name, socket)` */
    method Push(name: Value, socket: Option<SocketId>) returns (r: Option<Entry>)
      requires Valid()
      modifies this
      ensures Valid()
      ensures var s := PushStep(old(entries), name, socket);
        entries == s.entries && r == s.result && log == old(log)
      ensures r.Some? ==> Get(entries, name.s) == Own(r.value) && r.value.socket == socket.value
    {
      if !name.Str? || socket.None? || HasSocket(entries, name.s) {
        return None;
      }
      var entry := NewEntry(socket.value);
      entries := entries[name.s := entry];
      r := Some(entry);
    }

    /** `remove(name)`: a stub that succeeds and changes nothing. */
    method Remove(name: Value) returns (r: bool)
      ensures r
    {
      r := true;
    }

    /** `addOn(name, event_name, bc_name, callback)` */
    method AddOn(name: string, event: Value, bc: Value, callback: Value) returns (r: Result<Option<OnBinding>, CallError>)
      requires Valid()
      modifies this
      ensures Valid()
      ensures var s := AddOnStep(old(entries), name, event, bc, callback);
        entries == s.entries && r == s.result && log == old(log) + s.actions
      ensures r.Success? && r.value.Some? ==> forall other :: GetOn(entries, name, other) == r.value
    {
      if !HasSocket(entries, name) {
        return Success(None);
      }
      if name !in entries {
        // an inherited member: its `socket` is undefined, and calling `on` on it throws
        return Failure(TypeError);
      }
      var entry := entries[name];
      if entry.on.Some? {
        return Success(entry.on);
      }
      var b := OnBinding(event, GetBcName(name, event, bc), callback);
      entries := entries[name := entry.(on := Some(b))];
      log := log + [Listen(entry.socket, event)];
      r := Success(Some(b));
    }

    /** `addEmit(name, event_name, bc_name, callback)` */
    method AddEmit(name: string, event: Value, bc: Value, callback: Value) returns (r: Result<Option<EmitBinding>, CallError>)
      requires Valid()
      modifies this
      ensures Valid()
      ensures var s := AddEmitStep(old(entries), name, event, bc, callback);
        entries == s.entries && r == s.result && log == old(log) + s.actions
      ensures r.Success? && r.value.Some? ==> forall other :: GetEmit(entries, name, other) == r.value
    {
      if !HasSocket(entries, name) {
        return Success(None);
      }
      if name !in entries {
        // an inherited member: its `socket` is undefined, and calling `emit` on it throws
        return Failure(TypeError);
      }
      var entry := entries[name];
      if entry.emit.Some? {
        return Success(entry.emit);
      }
      var b := EmitBinding(event, GetBcName(name, event, bc), callback, false);
      entries := entries[name := entry.(emit := Some(b))];
      log := log + [Emit(entry.socket, event)];
      r := Success(Some(b));
    }

    /** The server acknowledges the emit of `name`'s binding. */
    method Acknowledge(name: string)
      requires Valid()
      requires name in entries && entries[name].emit.Some?
      modifies this
      ensures Valid()
      ensures var s := AcknowledgeStep(old(entries), name);
        entries == s.entries && log == old(log) + s.actions
      ensures entries[name].emit.Some? && entries[name].emit.value.emited
    {
      var entry := entries[name];
      var b := entry.emit.value;
      log := log + [Broadcast(b.bcName)];
      entries := entries[name := entry.(emit := Some(b.(emited := true)))];
    }

    /** The event `name`'s `on` binding listens for arrives once. */
    method Deliver(name: string)
      requires Valid()
      requires name in entries && entries[name].on.Some?
      modifies this
      ensures Valid()
      ensures var s := DeliverStep(old(entries), name);
        entries == s.entries && log == old(log) + s.actions
    {
      log := log + [Broadcast(entries[name].on.value.bcName)];
    }
  }
}
