# Socket registry — a Dafny model

This project models the core of the AngularJS `Socket` module (`src/socket.js`):

- `SocketService.create` validates a connection configuration and opens one socket.io connection.
- `SocketFactory` keeps a registry `socketList` that maps a connection name to an entry `{socket, on, emit}`.
  Its operations are:
  - `add`: idempotent creation;
  - `push`: adoption of an existing socket;
  - `remove`, `hasSocket`, `get`, `socket`, `getList`;
  - `addOn`, `addEmit`, `getOn`, `getEmit`: one `on` and one `emit` binding per entry.

Modules:

- `Wrappers`: `Option` and `Result`.
- `JsValue`: the JavaScript values the code inspects (`typeof`, property reads, ToString).
- `Transport`: opaque socket ids, the `io.connect` call and its answer, and the log of actions (connect, listen, emit, broadcast).
- `SocketService`: `create` as pure functions (`Validate`, `Create`).
- `SocketFactory`: the entries and bindings, the lookups, `getBcName`, and a step function per operation (new map, result, actions). It also holds the class `Registry`, whose methods update `entries` in place and are proved to follow the step functions. They also keep `Valid()`: every filled slot is backed by its logged transport action.
- `FactoryProperties`: lemmas for the properties below, and `Run`, a semantics of arbitrary sequences of operations, with inductive proofs that registration is permanent and that `emited` never resets.

How the source's behaviour is represented:

- **Binding slots.** A binding is stored under the literal property `event_name`, not under the event's name (src/socket.js:209, 219, 244, 255, 278, 293). Every event name of an entry therefore shares one `on` slot and one `emit` slot. The model keeps each slot as an `Option`, and `OnSlotSharedByEvents` proves the aliasing.
- **Inherited names.** `socketList` is a plain object, so `socketList[name]` is defined for the names it inherits from `Object.prototype` (`toString`, `constructor`, `__proto__`, ...). `hasSocket` accepts those names. `get` then returns the built-in member and `socket` returns `undefined`; `add` resolves with the built-in without connecting, `push` refuses the name, and `addOn`/`addEmit` throw a `TypeError`. The model captures this with `JsValue.Inherited` and the `Lookup` result type.
- **Names.** Lookups and binders take the name as a property key (`string`). Every use of the name in them goes through JavaScript's key or string conversion. `add` and `push` take a `Value`, because they branch on its type: `push` rejects non-strings, and `addToList` skips an `undefined` name.
- **Transport.** `io.connect` is a parameter: the `ConnectAnswer` says whether it returned a socket or threw. `socket.on`, `socket.emit` and `$rootScope.$broadcast` are entries in a ghost action log. The callback from socket.io becomes a method: `Acknowledge` is the emit acknowledgement, `Deliver` is an incoming event for an `on` binding.

Behaviour of the source worth noting:

- A listener always broadcasts, and calls the callback as well when it is a function. It is not one or the other.
- `push` accepts the empty string as a name.
- `push` imports no listeners already on the socket.
- `remove` is a stub that returns `true`.
- `create` resolves as soon as `io.connect` returns. It attaches no `connect` or `error` lifecycle listeners.
- There is no `addOnce`.

## Model

| member | source | states |
|---|---|---|
| `SocketService.Validate` | src/socket.js:10-22 | the config is checked in source order, each failing check with its own rejection: undefined config gives 'Socket config is undefined', null gives the TypeError, an undefined `url` gives 'URL is undefined', and any other non-string `url` gives 'Unsupported URL type'. It succeeds exactly when every check passes; then the call uses that url, and passes `opts` exactly when `typeof opts === 'object'` |
| `SocketService.Create` | src/socket.js:7-43 | no action is performed exactly when validation fails, and the failure is returned. Otherwise exactly one `io.connect` is made; the result is the returned socket, or, when `io.connect` throws, a rejection with `ConnectFailed` of what it threw |
| `SocketService.RejectionMessagesDistinct` | src/socket.js:10-20 | the three validation rejections carry three different messages |
| `SocketService.CreateExamples` | test/socket.test.js:18-65 | `create()`, `create({})` and `create({url: 1})` reject with 'Socket config is undefined', 'URL is undefined' and 'Unsupported URL type', and connect nothing; a string url with object options connects once with those options |
| `SocketService.PrimitiveConfigHasNoUrl` | src/socket.js:14-16 | a string, number, boolean or function passed as the config is rejected as 'URL is undefined', without connecting |
| `SocketService.OptsNeverRejects` | src/socket.js:22-40 | changing `opts` never changes whether, or why, an object config is rejected |
| `SocketService.Rejection` | src/socket.js:10-29 | the promise is rejected with 'Socket config is undefined', 'URL is undefined' or 'Unsupported URL type' for the three checks, with a `TypeError` when the config is `null`, and with whatever `io.connect` threw when it throws |
| `SocketFactory.GetBcName` | src/socket.js:111-117 | a non-empty string `bc_name` is the topic verbatim; any other `bc_name` (undefined, empty, a function, ...) gives `name + ':' + event_name`, which starts with the name and a colon; the topic is never empty |
| `SocketFactory.HasSocket` | src/socket.js:107-109 | holds exactly when the property read `socketList[name]` is not `undefined`: always for a registered name, and otherwise only for a name inherited from `Object.prototype` |
| `SocketFactory.Get` | src/socket.js:183-189 | gives `null` exactly for a name `hasSocket` rejects, the entry for a registered name, and the built-in member for an inherited name |
| `SocketFactory.Socket` | src/socket.js:190-196 | gives `null` exactly when `get` does, the entry's socket exactly when `get` gives an entry, and `undefined` exactly when `get` gives a built-in member |
| `SocketFactory.GetOn` | src/socket.js:269-283 | gives the `on` slot of the entry `get` returns, and `null` when `get` gives no entry; so it is `null` exactly for an unregistered name or an empty slot |
| `SocketFactory.GetEmit` | src/socket.js:284-298 | gives the `emit` slot of the entry `get` returns, and `null` when `get` gives no entry; so it is `null` exactly for an unregistered name or an empty slot |
| `SocketFactory.GetList` | src/socket.js:299-301 | the map's keys are exactly the registered names, and its values are what `get` and `socket` return; `hasSocket` accepts exactly those keys plus the inherited names |
| `FactoryProperties.LookupsAgree` | src/socket.js:180-196 | `hasSocket(n)` holds exactly when `n` is a key or an inherited name. A key gives its entry and socket; an inherited non-key gives the built-in member and an `undefined` socket; any other name gives `null` |
| `FactoryProperties.SlotLookups` | src/socket.js:269-298 | `getOn`/`getEmit` are `null` exactly for an unknown name or an empty slot, and do not depend on the event name |
| `FactoryProperties.EmptyRegistry` | test/socket.test.js:130-132 | a fresh registry has an empty list; its lookups miss, except for the inherited names (`toString` hits, `socket1` misses) |
| `SocketFactory.Registry.constructor` | src/socket.js:79 | the registry starts empty, with nothing logged |
| `SocketFactory.AddToListStep` | src/socket.js:95-105 | an undefined name stores nothing and returns undefined. Any other name stores a fresh `{socket, on: {}, emit: {}}` under its key and returns it, leaving every other entry as it was; under a new key it only adds that key |
| `SocketFactory.Registry.AddToList` | src/socket.js:95-105 | stores a fresh entry with empty slots under the name's key, unless the name is undefined, and returns it |
| `SocketFactory.AddStep` | src/socket.js:119-136 | existing entries are untouched, and at most the name's key is added. A name `hasSocket` accepts resolves with what `get` gives, with no change and no action. The only actions are connection attempts. `add` rejects exactly when the name is unknown and `create` fails, with `create`'s error, leaving the registry unchanged |
| `SocketFactory.Registry.Add` | src/socket.js:120-152 | updates the registry, result and log as `AddStep` says; a resolved entry is what `get` now returns |
| `SocketFactory.AddSettlementAsWritten` | src/socket.js:81-93 | as written, `add` for an unknown name whose `create` fails never settles, and in every other case (a name `hasSocket` accepts, or a successful `create`) it settles exactly as `AddStep` |
| `FactoryProperties.AddExistingIsIdempotent` | src/socket.js:134-136 | `add` on a name `hasSocket` accepts resolves with what `get` gives (the existing entry for a registered name), changes nothing, and makes no connection attempt |
| `FactoryProperties.AddInheritedName` | src/socket.js:124-136 | `add('toString', cfg)` on an empty registry resolves with the built-in `toString`, changes nothing and never calls `io.connect` |
| `FactoryProperties.AddNewName` | src/socket.js:124-133 | `add` on a new name with a valid config makes exactly one connect, stores `{socket, on: {}, emit: {}}` under the name, and resolves with it |
| `FactoryProperties.AddFailureLeavesRegistry` | src/socket.js:84-92 | a failed `create` leaves the registry unchanged and rejects with its error; a validation failure attempts no connection |
| `FactoryProperties.AddUndefinedName` | src/socket.js:96-104 | `add(undefined, cfg)` still connects, but stores nothing and resolves with undefined |
| `FactoryProperties.AddTwiceConnectsOnce` | src/socket.js:124-136 | a second `add` of a resolved name returns the first's entry and performs no action |
| `FactoryProperties.AddAsWrittenNeverSettles` | src/socket.js:84-92 | `add('s1', {})` fails validation with 'URL is undefined', yet as written its promise never settles; the corrected `AddStep` rejects |
| `SocketFactory.PushStep` | src/socket.js:154-174 | a refused `push` changes nothing; an accepted one leaves every existing entry as it was and adds only the pushed name, holding the returned entry; no action is performed |
| `SocketFactory.Registry.Push` | src/socket.js:154-174 | updates the registry as `PushStep` says; a returned entry is what `get` now returns and holds the given socket |
| `FactoryProperties.PushRules` | src/socket.js:156-173 | `push` returns false exactly for a non-string name, an undefined socket, or a name `hasSocket` accepts (registered or inherited), and then changes nothing. Otherwise it adds exactly that name, with a fresh entry for that socket, and leaves the others untouched |
| `FactoryProperties.PushNameExamples` | src/socket.js:156-166 | the empty string passes the name check; an inherited name such as `constructor` is refused |
| `SocketFactory.Registry.Remove` | src/socket.js:175-179 | `remove` returns true and modifies nothing |
| `SocketFactory.AddOnStep` | src/socket.js:197-230 | only the named entry's `on` slot may change: the other entries, the names, that entry's socket and its `emit` slot stay as they were. An unknown or inherited name, or a filled slot, changes nothing and attaches nothing; at most one listener is attached |
| `SocketFactory.Registry.AddOn` | src/socket.js:197-230 | updates the registry and log as `AddOnStep` says; a returned binding is what `getOn` returns for every event name |
| `FactoryProperties.AddOnUnknownName` | src/socket.js:201-203 | a name `hasSocket` rejects gives null, with no change and no action |
| `FactoryProperties.BindInheritedNameThrows` | src/socket.js:205-221 | `addOn` and `addEmit` on an inherited name that is not registered throw a `TypeError`, attach no listener and send nothing |
| `FactoryProperties.AddOnFirstCall` | src/socket.js:213-229 | an empty slot gets `{event_name, bc_name: getBcName(...), callback}`, with one `socket.on` on that entry's socket; nothing else changes |
| `FactoryProperties.AddOnIdempotent` | src/socket.js:209-211 | a filled slot is returned unchanged, with no second listener |
| `FactoryProperties.GetOnAfterAddOn` | src/socket.js:278-282 | after `addOn` on a known name, `getOn` returns that same binding for any event name |
| `FactoryProperties.OnSlotSharedByEvents` | src/socket.js:209-219 | after `addOn(n, a)`, `addOn(n, b)` returns the binding for `a` and attaches nothing for `b` |
| `SocketFactory.AddEmitStep` | src/socket.js:231-268 | only the named entry's `emit` slot may change: the other entries, the names, that entry's socket and its `on` slot stay as they were. An unknown or inherited name, or a filled slot, changes nothing and sends nothing; at most one emit is sent |
| `SocketFactory.Registry.AddEmit` | src/socket.js:231-268 | updates the registry and log as `AddEmitStep` says; a returned binding is what `getEmit` returns for every event name |
| `FactoryProperties.AddEmitUnknownName` | src/socket.js:236-238 | a name `hasSocket` rejects gives null, with no change and no action |
| `FactoryProperties.AddEmitFirstCall` | src/socket.js:248-257 | an empty slot gets `{event_name, bc_name, callback, emited: false}`, with one `socket.emit` on that entry's socket; nothing else changes |
| `FactoryProperties.AddEmitIdempotent` | src/socket.js:244-246 | a filled slot is returned unchanged, and nothing is sent again |
| `FactoryProperties.GetEmitAfterAddEmit` | src/socket.js:293-297 | after `addEmit` on a known name, `getEmit` returns that same binding for any event name |
| `FactoryProperties.AddEmitTwiceSendsOnce` | src/socket.js:244-255 | for a registered or an unknown name, a second `addEmit` returns what the first returned, sends nothing and changes nothing. For an inherited name the source's second call returns the binding the first stored on the built-in; the model does not capture that (see `AddEmitStep` under "Left out") |
| `SocketFactory.AcknowledgeStep` | src/socket.js:257-265 | the acknowledgement broadcasts once under the binding's topic, sets that binding's `emited` to true, and changes nothing else: the other entries, the names, and that entry's socket and `on` slot stay as they were |
| `SocketFactory.Registry.Acknowledge` | src/socket.js:257-265 | updates the registry and log as `AcknowledgeStep` says; afterwards `emited` is true |
| `FactoryProperties.AcknowledgeRepeats` | src/socket.js:258-264 | after an acknowledgement `getEmit` reports the binding as `emited` for any event name; a repeated acknowledgement broadcasts the same topic again and leaves the registry as the first left it |
| `SocketFactory.DeliverStep` | src/socket.js:221-227 | an incoming event changes no entry and broadcasts once under the `on` binding's topic |
| `SocketFactory.Registry.Deliver` | src/socket.js:221-227 | logs one broadcast under the `on` binding's topic, and changes no entry |
| `FactoryProperties.RunGrows` | src/socket.js:119-302 | along any sequence of operations and callbacks, no entry is lost, no socket is replaced, a filled slot keeps its binding, and `emited` never goes back to false |
| `FactoryProperties.EmitedNeverResets` | src/socket.js:248-264 | once `emited` is true it stays true after any further operations |
| `FactoryProperties.RunKeepsConsistent` | src/socket.js:197-268 | along any sequence, every filled `on` slot had its listener attached, every filled `emit` slot was sent, and every set `emited` had its broadcast |
| `FactoryProperties.RunAddsNoInherited` | src/socket.js:124-166 | along any sequence of operations, no entry is ever stored under an inherited name |
| `FactoryProperties.RegisteredStaysRegistered` | src/socket.js:175-179 | a name `hasSocket` accepts stays accepted, with the same `socket` answer, whatever follows |

## Left out

- The `$q` promise plumbing is not modelled. This covers the `chain` arrays and `while` loops (src/socket.js:46-55, 125-131) and the `success`/`error` helpers (59-71, 138-150). Each promise is an explicit outcome: `Result` for `create`, `Settlement` for `add`.
- `io.connect` and the socket.io transport are not modelled. Sockets are opaque ids, and the environment's answer to `io.connect` is a parameter.
- `$rootScope.$broadcast`: only the topic is logged, not the payload or the fan-out.
- Callback invocation (`typeof callback === 'function'`): the model records that a callback was stored, not that it was called. The model assumes the callback returns normally: in the acknowledgement, `callback(data)` (src/socket.js:261) runs before `emited = true` (line 264), so a callback that throws leaves `emited` false, which `AcknowledgeStep` does not capture.
- The asynchronous gap in `add` is not modelled; `add` is atomic. Two overlapping calls for the same pending name could both connect, and the later `addToList` would overwrite the earlier entry.
- `getList`, `get`, and the entries `add` and `push` resolve with or return are live objects of `socketList` in the source. A caller could mutate them, or keep references to entries and bindings and see later changes. The model works on values, so this aliasing is not captured.
- `typeof socketList[name].on === 'undefined'` (src/socket.js:205-207, 240-242, 274-276, 289-291) holds of an inherited name's built-in member. For `getOn`/`getEmit` the model returns `null`, as the source does. For a registered entry it never holds: every entry is created with both slots as empty objects, and only outside mutation through a returned reference (`getList`, `get`, or the entry `add` or `push` returns) could remove them.
- AddOnStep: on an inherited name, before throwing, the source stores `{}` and then the new binding on the built-in member (`Object.prototype.toString.on.event_name`, or `Object.prototype.on` itself for `__proto__`). The model records only the throw. So it does not capture that a repeated call on that name returns the stored binding without throwing, nor that `getOn` then finds it, nor that for `__proto__` every object, and so `hasSocket('on')`, inherits the new `on`.
- AddEmitStep: the same holds for `addEmit` on an inherited name and its `emit` slot.
- AddToListStep: under the key `__proto__` the source's assignment would replace the registry's prototype instead of adding an entry. No call reaches it: every `add` first tests `!hasSocket(name)`, and `socketList['__proto__']` is always `Object.prototype`, so `hasSocket('__proto__')` holds and `add` stops before connecting, overlapping calls included (`RunAddsNoInherited`).
- Values are simplified: numbers are integers, written in decimal by ToString; functions have no properties; objects print as `[object Object]`; arrays are not distinguished.
- The `TypeError` for a `null` config carries only its name, not an engine-specific message.
- `push` can also store `null` or any other defined non-socket value as the socket. The model only takes a socket id or `undefined`.
- karma.conf.js, socket_app.js and the timing-based parts of test/socket.test.js are outside the model.

## Findings

| source | as written | input that shows it | evidently intended | confidence | as-written member | corrected member |
|---|---|---|---|---|---|---|
| src/socket.js:84-92 | the inner `add` resolves its deferred only on success; its error handler returns `$q.reject(error)` into a promise nobody reads, so `add`'s promise never settles when `create` fails | `add('s1', {})` on an empty registry (lemma `AddAsWrittenNeverSettles`) | `add` rejects with `create`'s reason ('URL is undefined') and leaves the registry unchanged | not executed; high (follows from `$q` semantics) | `SocketFactory.AddSettlementAsWritten` | `SocketFactory.AddStep` |
