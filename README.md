# warshck core, modelled in Dafny

This project models four sequential parts of the warshck game client:

1. **Rules decoding** (`src/game.cpp`, records of `src/rules.h`). A JSON
   rules document becomes eight integer-keyed tables: weapons, armors,
   unit classes, terrain flags, terrains, movement types, unit flags and
   unit types.
2. **The text menu** (`src/textmenu.cpp`). An ordered multimap of
   entries, shown behind the 36 keys `1234567890a…z`. The i-th key
   selects the i-th entry.
3. **Promises** (`src/promise.h`). A one-shot cell with a callback list
   and a forward list.
4. **Streams** (`src/stream.h`). A synchronous multicast with a callback
   list and a forward list.

Files:

- `json.dfy`: the JSON values and the accessors the decoder uses.
- `rules.dfy`: the rule records.
- `game.dfy`:
  - the decoder, whose loops are methods held to the pure function
    `Tabulate`;
  - the `Game` record, as a class.
- `textmenu.dfy`: the menu, as a class over the sequence of its
  (order, entry) pairs.
- `signals.dfy`: what promises and streams share:
  - callback tokens;
  - payloads (`Unit` stands for the `void` specialisations);
  - the `Segmented` predicate, which states that a trace is made of
    consecutive parts, each starting with a given head.
- `stream.dfy`: streams.
  - All streams form a registry: a map from ids to cells.
  - Each push is recorded in an event trace.
  - Ghost functions (`AfterPush` …) specify what a push does.
  - Class `Streams` holds the registry in fields. Its methods are proved
    equal to those functions.
- `promise.dfy`: promises, organised like streams. Every copy of a promise
  is an id into one shared cell.
- `copies.dfy`: `Promise<void>` as its copy constructor really behaves,
  with one flag per copy. It backs the finding below.

**Callbacks.** A user callback is an opaque token. The closure that `on`
or `then` wraps around it is modelled explicitly, with one exception: the
stream or promise a `Chain` callback returns is fixed when the callback is
registered (see "## Left out"). `Notify`/`Settle`: run the
callback, then push or fulfil the derived stream or promise. `Chain`: run
the callback, then make the stream or promise it returned forward to the
derived one.

**Streams terminate by rank.** A stream has an integer rank, chosen by the
caller when the stream is made. Every stream a push reaches directly ranks
lower than its source, so the push cascade is finite. `forward` needs the
target to rank below the source. The stream `on` returns ranks below the
source for a callback returning nothing, and below the returned stream for
a stream-returning callback.

**A chained promise can stall.** When a promise-returning `then` callback
returns a promise that already holds a result, the source's `forward`
files the returned promise in a list that no `fulfill` runs again, so it
stays pending. The model keeps this behaviour (`ThenChainOnSettledStalls`).

**Promises terminate by fulfilment.** Every step of a fulfilment cascade
fulfils a pending promise, so the cascade ends.

## Model

| member | source | states |
|---|---|---|
| Game.ReadInt | src/game.cpp:97-98 | A member name read with `istringstream >> int` always gives a 32-bit value: leading spaces are skipped, then an optional sign and the longest digit run are read, and out-of-range values clamp |
| Game.ReadIntDecimal | src/game.cpp:95-100 | Every 32-bit key written in decimal reads back as itself |
| Game.ReadIntWithoutDigits | src/game.cpp:97-98 | A name with no digit reads as key 0. After a sign or other text, the failed extraction stores 0. For an empty or all-space name nothing is extracted, and `i` keeps its initial 0 |
| Game.TabulateLastWins | src/game.cpp:95-100 | A table filled by `result[key] = value` in order holds exactly the keys inserted; each key holds the value of the last item with that key |
| Game.ParseIntIntMap | src/game.cpp:91-103 | The loop yields the reference table: keys are the member names read as ints, values are the members' numbers, and on a key collision the later member wins |
| Game.ParseIntIntMapWithNulls | src/game.cpp:105-125 | The same, except a null member gives `nullValue` |
| Game.IntIntMapWithNullsContents | src/game.cpp:105-125 | The table of `parseIntIntMapWithNulls` has one key per member name read as an int. Under each key is the last such member's value: `nullValue` when that member is null, its number otherwise |
| Game.NumbersOfContents | src/game.cpp:220-228 | The set holds exactly the numbers of the array items, so it is never larger than the array |
| Game.ParseIntSet | src/game.cpp:220-228 | The loop yields that set: n is in it iff some item's number is n, and its size is at most the array length |
| Game.TabulateSelfKeyed | src/game.cpp:72 | When each item is inserted under its record's own id, every entry sits under that entry's id |
| Game.AllOfKeyedById | src/game.cpp:63-75 | The table of `parseAll` is keyed by each record's own `id`, not by member name; for duplicate ids the last record parsed wins |
| Game.ParseAll | src/game.cpp:63-75 | The loop yields that table |
| Game.RulesFromSections | src/game.cpp:205-218 | Each of the eight tables comes from its named section (terrains from "terrains", unit types from "units") and is keyed by id |
| Game.ParseIntOrNull | src/game.cpp:229-239 | A null value gives `nullValue`, a number gives that number, and any other value gives 0, the JSON accessor's number for a non-number. UnitTypeFields and MovementEffects state what this means for the weapon slots and the effect map |
| Game.ParseWeapon | src/game.cpp:77-89 | A weapon's id, name and `requireDeployed` are the number, string and boolean in the members of those names, whenever those members have those types; `requireDeployed` is false unless its member is a boolean |
| Game.WeaponMaps | src/game.cpp:85-86 | A weapon's range and power tables each have one key per member name read as an int, holding the number of the last member with that key |
| Game.ParseArmor | src/game.cpp:127-134 | An armor's id is the number in member "id", and its name the string in member "name", whenever those members have those types |
| Game.ParseUnitClass | src/game.cpp:135-142 | A unit class's id is the number in member "id", and its name the string in member "name", whenever those members have those types |
| Game.ParseTerrainFlag | src/game.cpp:144-151 | A terrain flag's id is the number in member "id", and its name the string in member "name", whenever those members have those types |
| Game.ParseTerrainType | src/game.cpp:153-163 | A terrain type's id is the number in member "id", and its name the string in member "name", whenever those members have those types |
| Game.IntSetOfContents | src/game.cpp:220-228 | The set `parseIntSet` returns holds exactly the numbers of the array's items, and is empty for a non-array |
| Game.TerrainTypeSets | src/game.cpp:159-161 | A terrain type's build, repair and flag sets each hold exactly the numbers listed in the member of the same name |
| Game.ParseUnitFlag | src/game.cpp:175-182 | A unit flag's id is the number in member "id", and its name the string in member "name", whenever those members have those types |
| Game.UnitTypeFields | src/game.cpp:184-203 | A unit type's `unitClass` equals its `id`. A null primary or secondary weapon becomes -1; a number is kept as is |
| Game.MovementEffects | src/game.cpp:165-173 | A movement type's effect map has one key per member name read as an int. The cost is the last such member's number, or -1 (impassable) when that member is null |
| Game.Game.constructor | src/game.cpp:39-44 | A new game has empty strings, every counter and `turnLength` at 0, `publicGame` false, no banned units and empty rules |
| Game.Game.SetRulesFromJson | src/game.cpp:51-54 | The rules become the decoded document; no other field changes |
| TextMenu.Insert | src/textmenu.cpp:14-17 | After an insert the orders still ascend and there is one more entry. Every entry after the new one has a greater order, so equal orders keep insertion order. Removing the new entry gives back the old sequence |
| TextMenu.FindFirstOf | src/textmenu.cpp:47 | Returns the first KEYS position whose character occurs in `c`, or none exactly when no KEYS character occurs in `c` (including empty `c`) |
| TextMenu.KeysDistinct | src/textmenu.cpp:4 | No key character occurs twice |
| TextMenu.FindOwnKey | src/textmenu.cpp:38 | The key shown on line i is found at position i |
| TextMenu.Menu.constructor | src/textmenu.cpp:5-7 | A new menu has no entries |
| TextMenu.Menu.AddOption | src/textmenu.cpp:14-17 | The entries become the insert of the new entry; existing entries keep their relative order |
| TextMenu.Menu.Clear | src/textmenu.cpp:19-22 | No entries remain, so by `Input`'s contract every later input finds nothing |
| TextMenu.Menu.Update | src/textmenu.cpp:24-43 | Line i is KEYS[i] + ": " + the i-th label in iteration order. Beyond 36 entries `KEYS.at` throws after 36 lines |
| TextMenu.Menu.Input | src/textmenu.cpp:45-63 | Finds an entry iff the first matching key position is below the entry count. On success the result is that entry's value; otherwise the result is untouched |
| TextMenu.Menu.InputKey | src/textmenu.cpp:65-70 | Behaves as `input` on the one-character string of the key's low 8 bits |
| Stream.AfterPush | src/stream.h:75-88 | A push adds no stream and changes no rank or callback list; forward lists only grow. Without stream-returning callbacks nothing changes. The trace starts with the stream's own arrival |
| Stream.AfterCallbacks | src/stream.h:77-80 | The callback loop of `push`, with the same frame |
| Stream.AfterDeliveries | src/stream.h:77-80 | Running a sequence of callbacks keeps the registry well formed and only lets it grow |
| Stream.AfterDelivery | src/stream.h:195-198 | One closure run keeps the registry well formed and only lets it grow. When no stream has a stream-returning callback, a notifying closure changes no list |
| Stream.AfterForwards | src/stream.h:82-85 | The forward loop of `push`, with the same frame |
| Stream.DeliveryOpens | src/stream.h:195-198 | A delivery starts with the user callback. For a nothing-returning callback, the derived stream's arrival follows directly |
| Stream.DeliveriesInOrder | src/stream.h:77-80 | Each callback is delivered once, in registration order, each delivery starting with that callback |
| Stream.ForwardsInOrder | src/stream.h:82-85 | Every forward target receives the same argument, in list order |
| Stream.PushInOrder | src/stream.h:75-88 | Trace order: the stream's arrival; then all callbacks in order; then the forward targets, each receiving the argument. The list walked starts with the forward list as it was |
| Stream.ListedForwardReceives | src/stream.h:82-85 | Every stream on the forward list receives the pushed value, after all the callbacks have run |
| Stream.ForwardReceives | src/stream.h:70-73 | After `forward(f)`, a push reaches f after the callbacks have run |
| Stream.ChainInCallbacks | src/stream.h:184-186 | For each `Chain(c, r, d)` callback of s, the callback loop of a push of s keeps r's forward list as a prefix and appends d after it |
| Stream.ChainForwards | src/stream.h:180-189 | After a push of s with a stream-returning callback that returns r, r's forward list keeps its entries and gains the derived stream d; a later push of r reaches d with the pushed value |
| Stream.NotifyThenDerived | src/stream.h:191-201 | The stream returned by a nothing-returning `on`, at any rank below the source, is pushed right after each run of its callback |
| Stream.WithStream | src/stream.h:32-35 | A new stream has fresh id and empty lists; nothing else changes |
| Stream.WithForward | src/stream.h:70-73 | `forward` appends one target; callbacks and other streams stay as they were |
| Stream.WithCallback | src/stream.h:184 | `on` appends one callback and removes none |
| Stream.Streams.constructor | src/stream.h:32-35 | Starts with no streams and an empty trace |
| Stream.Streams.NewStream | src/stream.h:32-35 | The state becomes `WithStream` |
| Stream.Streams.Forward | src/stream.h:70-73 | The state becomes `WithForward` |
| Stream.Streams.OnNotify | src/stream.h:191-201 | Creates a fresh derived stream, at a rank the caller picks below the source, and appends a `Notify` closure feeding it |
| Stream.Streams.OnChain | src/stream.h:180-189 | Creates a fresh derived stream, at a rank the caller picks below the returned stream, and appends a `Chain` closure for it |
| Stream.Streams.Deliver | src/stream.h:184-186 | The closure run equals `AfterDelivery` |
| Stream.Streams.Push | src/stream.h:75-88 | Returns true; the new state is `AfterPush` |
| Stream.Streams.RunCallbacks | src/stream.h:77-80 | The loop equals `AfterCallbacks` |
| Stream.Streams.PushForwards | src/stream.h:82-85 | The loop equals `AfterForwards` |
| Stream.Streams.PushTurn | src/stream.h:84 | One turn of that loop advances the state from the first i targets to the first i + 1 |
| Promise.AfterFulfil | src/promise.h:76-96 | On a fulfilled promise: returns false and changes nothing. Otherwise returns true, the promise holds `v`, and both lists are empty. No result changes once stored, and fewer promises are pending |
| Promise.AfterCallbacks | src/promise.h:81-85 | Stores the result, records the fulfilment, then runs the callbacks; the promise holds `v` |
| Promise.AfterDeliveries | src/promise.h:82-85 | Running a sequence of callbacks keeps the registry well formed; pending promises can only decrease |
| Promise.AfterDelivery | src/promise.h:229-232 | A closure run starts with the user callback and keeps the registry well formed |
| Promise.AfterForwards | src/promise.h:87-90 | Fulfilling the targets in turn keeps the registry well formed |
| Promise.FulfilAtMostOnce | src/promise.h:78-79 | A second `fulfill` returns false and changes nothing; the stored result is the first value |
| Promise.DeliveriesInOrder | src/promise.h:82-85 | Each callback runs once, in registration order, with the value |
| Promise.DeliveriesSettle | src/promise.h:229-232 | After the callbacks run, the derived promise of every nothing-returning callback is fulfilled |
| Promise.ForwardHeadsAt | src/promise.h:87-90 | The i-th target's stretch of the forward loop's trace opens with its fulfilment exactly when that target is still pending at its turn, and with nothing otherwise |
| Promise.FulfilOpens | src/promise.h:78-81 | A successful `fulfill` records the fulfilment before anything else |
| Promise.ForwardsPassValue | src/promise.h:87-90 | Every target still pending when the forward loop reaches it ends up holding the value passed on |
| Promise.ForwardsSettle | src/promise.h:87-90 | After the forward loop, every target holds a result, and every target pending at its turn holds the value passed on |
| Promise.ForwardsInOrder | src/promise.h:87-90 | The forward loop's trace is one stretch per target, in list order; a target pending at its turn opens its stretch with its fulfilment by the same value |
| Promise.CallbacksKeepForwards | src/promise.h:81-85 | The callback loop keeps the promise's own forward list as a prefix |
| Promise.FulfilInOrder | src/promise.h:76-96 | Trace order: the fulfilment; then all callbacks in order; then one stretch per forward target, in list order, a target pending at its turn opening with its fulfilment by the same value. The list walked starts with the forward list as it was |
| Promise.CallbacksSettle | src/promise.h:82-85 | After a successful `fulfill`, the derived promise of every nothing-returning callback holds a result |
| Promise.ForwardTargetsSettle | src/promise.h:87-93 | After a successful `fulfill`, every forward target holds a result, and every target pending at its turn holds the value |
| Promise.FulfilSettles | src/promise.h:82-90 | After a successful `fulfill`, every derived promise of a nothing-returning callback and every forward target holds a result, and every target pending at its turn holds the value |
| Promise.SoleForward | src/promise.h:87-90 | When a promise's only dependent is one pending forward target, that target receives exactly the source's value |
| Promise.WithPromise | src/promise.h:32-35 | A new promise is pending with empty lists; nothing else changes |
| Promise.WithForward | src/promise.h:71-74 | `forward` appends one target and touches nothing else |
| Promise.WithCallback | src/promise.h:229 | `then` appends one callback and removes none |
| Promise.LateForwardNeverFires | src/promise.h:71-79 | A forward added after fulfilment is never triggered: a later `fulfill` returns false |
| Promise.AfterThenSettle | src/promise.h:218-236 | Fulfilled source: the callback runs with the stored result, a fresh already-fulfilled promise is returned, and every other promise, the source included, is unchanged. Pending source: exactly one callback is appended, and a fresh pending promise is returned |
| Promise.AfterThenChain | src/promise.h:200-216 | Fulfilled source: the callback runs and its promise is returned. Pending source: one callback is appended and a fresh pending promise is returned |
| Promise.ThenSettleFollows | src/promise.h:228-233 | The promise that `then` returns for a pending source becomes fulfilled when the source does |
| Promise.ThenOnDerivedRuns | src/promise.h:218-236 | With shared state: once the source is fulfilled, `then` on the returned promise runs its callback at once, and `fulfill` on it returns false |
| Promise.ThenChainFollows | src/promise.h:208-213 | When neither the source nor the callback's promise has dependents: fulfilling the source makes the callback's promise forward to the returned one, and fulfilling the callback's promise then fulfils the returned one with the same value |
| Promise.ChainInDeliveries | src/promise.h:208-213 | After a run of callbacks that includes `Chain(c, r, d)`, d is a forward target of r whenever r is pending |
| Promise.ChainDelivered | src/promise.h:82-85 | After the callback loop of `fulfill`, each `Chain(c, r, d)` callback has made d a forward target of r, unless r holds a result |
| Promise.ChainReachesForwardList | src/promise.h:76-96 | After a whole successful `fulfill`, d is still a forward target of r whenever r is pending |
| Promise.ThenChainReaches | src/promise.h:200-216 | For every registry: after `then` with a promise-returning callback on a pending source and the source's fulfilment, the returned promise is a forward target of the callback's promise r whenever r is pending, and fulfilling r settles it |
| Promise.ThenChainOnSettledStalls | src/promise.h:208-213 | As written: when the callback's promise already holds a result, the returned promise is filed in its forward list and stays pending; a later `fulfill` of that promise returns false and runs nothing |
| Promise.Promises.constructor | src/promise.h:32-35 | Starts with no promises and an empty trace |
| Promise.Promises.NewPromise | src/promise.h:32-35 | The state becomes `WithPromise` |
| Promise.Promises.Forward | src/promise.h:71-74 | The state becomes `WithForward` |
| Promise.Promises.Fulfill | src/promise.h:76-96 | The new state and the answer are those of `AfterFulfil` |
| Promise.Promises.RunCallbacks | src/promise.h:81-85 | The store and the callback loop equal `AfterCallbacks` |
| Promise.Promises.Deliver | src/promise.h:229-232 | The closure run equals `AfterDelivery` |
| Promise.Promises.FulfilForwards | src/promise.h:87-90 | The loop equals `AfterForwards` |
| Promise.Promises.FulfilTurn | src/promise.h:89 | One turn of that loop advances the state from the first i targets to the first i + 1 |
| Promise.Promises.ThenSettle | src/promise.h:218-236 | Equals `AfterThenSettle` |
| Promise.Promises.ThenChain | src/promise.h:200-216 | Equals `AfterThenChain` |
| PromiseCopies.Fulfil | src/promise.h:160-181 | `fulfill` on one copy returns true iff that copy's own flag was unset; the flag is set afterwards |
| PromiseCopies.Then | src/promise.h:255-272 | Fulfilled copy: the callback runs and the returned copy is fulfilled. Otherwise nothing runs: the returned copy is unfulfilled with fresh empty lists, and a closure holding it joins the end of p's shared callback list, whose forward list is unchanged |
| PromiseCopies.TraceGrows | src/promise.h:160-181 | A fulfilment only adds to what has run |
| PromiseCopies.ThenOnDerivedIsLost | src/promise.h:255-272 | As written: after `q = p.then(f); p.fulfill(); q.then(g)`, g has not run, and a second `q.fulfill()` returns true |

## Left out

- The JSON library is not part of this model. Its numbers are doubles; here they are integers, and the double-to-int conversions are not modelled. Its accessors' behaviour on missing members and on values of another type is fixed as described at the top of `json.dfy`.
- `TerrainType.defense` is declared in `src/rules.h` but never assigned by the decoder, so the record leaves it out.
- Game.Game.SetGameDataFromJson: the source body is empty, so the method has no effect and no contract.
- Everything else in `Game` (the destructor, the game data) has no behaviour in the source.
- TextMenu.Menu.Update: the glhck text object, fonts and drawing are left out. The method returns the lines it would stash, and a `thrown` flag stands for the exception from `KEYS.at`.
- TextMenu.KeyChar: `s.at(0) = key` keeps the key's low 8 bits. Whether `char` is signed is not modelled; it cannot affect a match against the ASCII keys.
- Stream.Streams.Forward: requires the target to rank below the source. The source accepts any target, but on a cycle of forwards and derived streams a push recurses without end. Any program without such a cycle can be given ranks that meet this requirement and those of OnNotify and OnChain, by ordering its streams topologically.
- Stream.Streams.OnNotify: the caller picks the derived stream's rank, below the source's. The source has no ranks.
- Stream.Streams.OnChain: the caller picks the derived stream's rank, below that of the stream the callback returns.
- Stream.Streams.OnChain: the stream a callback returns is fixed when the callback is registered. The source's callback may return a different stream each time.
- Stream.Streams.Push: forwards are walked in the list as the callbacks left it. In the source, a callback that appends to the same stream's forward list during the range-for is undefined behaviour.
- Promise.Promises.ThenChain: the promise the callback returns is fixed when the callback is registered, and it must exist then. In the source, the callback builds or picks that promise only when it runs, and may return a different one each time.
- Promise.Promises.Fulfill: forwards are walked in the list as the callbacks left it, and both lists are then cleared. Suppose a forward target's promise-returning callback hands back the promise being fulfilled. It then appends to that promise's forward list during the range-for, which is undefined behaviour in the source. The model appends the entry and then drops it with the clearing, so that target is never fulfilled.
- Callback bodies are opaque tokens. Their other side effects are not modelled: pushing or fulfilling from inside a callback, or subscribing while a push is running.
- One registry carries one payload type `T`, plus `Unit` for the `void` specialisations. A `Stream<T>` whose callbacks return `Stream<R>` with a different `R` is modelled with a single `T`.
- Promise copies: the main model gives every promise one shared cell, which is the evidently intended behaviour. The source's per-copy `_result`/`_fulfilled` is modelled only in `copies.dfy`, for `Promise<void>` with callbacks that return nothing (see Findings).
- PromiseCopies.Fulfil: cuts a cascade off after `fuel` nested fulfilments, marking the copy fulfilled without running its lists.
- Promise.ThenChainReaches: promises that the returned promise settles once r is fulfilled, not that it holds r's value in every registry. That would need an invariant that no other list names the returned promise. The exact value is proved where nothing else depends on the source or on r (ThenChainFollows), and for every target pending at its turn (FulfilSettles).
- The registry does not record whether a promise is `void` or valued. A `Settle` derived promise is fulfilled with `Unit`; forward targets receive the value passed on.
- Promise.AfterThenChain: on a fulfilled source, the source builds a fresh promise and overwrites it with the callback's result. The model allocates none.
- The network client, rendering, themes and input wrapper are outside this model, as are the game engine calls made by the views. Stream copies share all their state, so they need no such treatment.

## Findings

| source | as written | input that shows it | evidently intended | confidence | as-written member | corrected member |
|---|---|---|---|---|---|---|
| src/promise.h:255-272 | Each copy of a `Promise<void>` has its own `_fulfilled` flag. The closure registered by `then` fulfils its own captured copy, so the promise `then` returned is never marked fulfilled | `Promise<void> p; auto q = p.then(f); p.fulfill(); q.then(g);` g does not run; a later `q.fulfill()` returns true and only then runs g | `q` counts as fulfilled once `p` is: `q.then(g)` runs g at once, and `q.fulfill()` returns false | high; not executed | PromiseCopies.ThenOnDerivedIsLost | Promise.ThenOnDerivedRuns |
