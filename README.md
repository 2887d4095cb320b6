# underscore-aop, modelled in Dafny

underscore-aop attaches *advice* to a method of a JavaScript object.
`before(target, name, f)`, `after(...)` and `around(...)` replace
`target[name]` by a *dispatcher*. Each call of that dispatcher does three things:

- it threads the arguments through the before advisors, newest first;
- it calls the outermost around layer, whose innermost layer is the
  function that was in the slot;
- it folds the result through the after advisors, oldest first.

Every attachment returns a *signal* whose `remove` detaches it. The
repository has two engines that share this design:

- `src/aop.js`:
  - a second `remove` of an advisor does nothing;
  - a call runs only the after advisors that existed when the call began,
    because the advisor counter is snapshotted on entry.
- `src/underscore-aop.js`:
  - `remove` has no such guard;
  - the after loop compares advisor ids with the live counter;
  - there is a registry from a function's tag (`_uaopId`) to its latest
    dispatcher. The library's `bind` is advised so that it returns a proxy
    that looks that registry up on every call. A function that was bound
    before it was advised still runs its advice.

The model has four modules:

- `Values` (values.dfy): argument and result values, and advice as opaque
  functions. Before advice may return a replacement argument list. After
  advice folds the result, or, with `receiveArguments`, observes the
  arguments. Around advice either returns or delegates once to the layer
  below. It also holds the two steps the dispatcher applies per advisor.
- `Dispatching` (dispatch.dfy): the code the two engines share.
  - The advisor objects, with their `previous`/`next` links, are tables keyed
    by advisor id inside a `Dispatcher` class.
  - `AddBefore`, `AddAfter`, `AddAround` and `Unlink` update the links in
    place.
  - The `while` loops of the dispatcher body are `RunBefore` and `RunAfter`.
    They are proved against the walks `Reach` and the folds `ThreadBefore` and
    `FoldAfter`. `Call` is proved against the specification function `Apply`.
  - The links are `Closed` in every state either engine reaches: each link
    leads to an advisor of the same phase, in id order. This is what makes
    the walks terminate, even after underscore-aop's stale removes.
    `Wf` adds that the links form the ghost chains `Before` and `After`.
- `Aop` (aop.dfy): the `src/aop.js` engine as a class `Engine` with the
  `nextId` counter. Its invariant keeps every installed dispatcher `Wf`.
  - An advisor is linked exactly when its `remove` has not run.
  - Every id is below `nextId`.
- `UnderscoreAop` (underscore_aop.dfy): the `src/underscore-aop.js` engine as
  a class `Library` with `dispatchers`, `dispatcherId`, `advisorId` and the
  load-time `remover`. It also holds `mixin`.
  - Its invariant keeps only `Closed` and the id bound.
  - The registry never holds the falsy tag 0, and each entry's key is its
    dispatcher's tag.

Where the prose description of the library and the code differ, the model
follows the code. Attaching advice to a missing method:

- `src/aop.js`:
  - succeeds;
  - in a later call the result starts as `undefined`, and the after
    advisors fold it as usual;
  - around advice in that dispatcher throws when it calls its delegate.
- `src/underscore-aop.js`:
  - puts the new dispatcher in the slot;
  - then throws while reading the tag of nothing (`src/underscore-aop.js:158`).
    `Aspect` returns no handle in that case.

A second `remove` in `src/underscore-aop.js` re-runs the unlinking with
stale neighbours. Two lemmas show what that does:

- `StaleRemoveDropsNewer`: a second `remove` of an advisor that was alone
  silently detaches an advisor attached after the first one;
- `StaleRemoveRevives`: a second `remove` can relink an advisor whose own
  handle was removed.

The after loop of `src/underscore-aop.js` compares ids with the live
counter. Every id is below that counter, so the bound never stops the loop
(`LiveBoundRunsAll`), and advisors attached during a call run in that same
call (`Library.CallAttaching`). `src/aop.js` excludes them (`Engine.CallAttaching`).

In `src/underscore-aop.js` advice on one object can reach another. A
dispatcher takes the tag of the function it replaces, and is registered
under it (`src/underscore-aop.js:158-162`). When the slot was inherited,
that function belongs to the prototype. So advising a method on one
descendant registers the prototype function's tag to that descendant's
dispatcher (`Library.Aspect`: the new tag is the old one or the next one).
A proxy that was bound to the prototype function, for instance on a sibling
object, looks the tag up on each call (`src/underscore-aop.js:183`), so it
runs the first descendant's advice (`Library.CallProxy`).

## Model

| member | source | states |
|---|---|---|
| Values.BeforeStep | src/aop.js:88 | A truthy return of before advice, a replacement argument list, becomes the arguments. A falsy return, or advice of another kind, keeps them. The result is always the old arguments or that replacement. |
| Values.AfterStep | src/aop.js:98-104 | The return of plain after advice becomes the result. With `receiveArguments` the advisor sees only the arguments, and its return replaces the result unless it is `undefined`. Advice of another kind leaves the result as it is. |
| Dispatching.Target.Lookup | src/aop.js:79 | `target[methodName]`: an own slot shadows whatever the prototype chain holds. |
| Dispatching.Target.LookupFound | src/aop.js:79 | What the lookup finds is the own slot of some object on the target's prototype chain. |
| Dispatching.Dispatcher.constructor | src/underscore-aop.js:124-156 | A new dispatcher has no advisors, no around layers, no owner and tag 0. What the slot held becomes its innermost layer (`original`). Its links are closed and well formed. |
| Dispatching.Dispatcher.AddBefore | src/underscore-aop.js:106-111 | Attaching a before advisor, in any closed state, makes it the first advisor the before walk visits, ahead of the old walk. The after walk is unchanged and the links stay closed. On a well-formed dispatcher the ghost chain `Before` becomes `[id] + Before`. |
| Dispatching.Dispatcher.Tail | src/underscore-aop.js:103 | The walk along `next` from the after slot stops at the last advisor the after walk visits, or finds none when there is none. |
| Dispatching.Dispatcher.AddAfter | src/underscore-aop.js:97-105 | Attaching an after advisor behind the tail makes it the last advisor the after walk visits, after the old walk in its order. The before walk is unchanged and the links stay closed. On a well-formed dispatcher `After` becomes `After + [id]`. |
| Dispatching.Dispatcher.LinkBefore | src/aop.js:64-72 | The link updates of a before attachment produce exactly `Prepend` of the old links. |
| Dispatching.Dispatcher.LinkAfter | src/aop.js:57-72 | The link updates of an after attachment produce exactly `Append` of the old links behind the given tail. |
| Dispatching.Dispatcher.AddAround | src/underscore-aop.js:55-70 | A new around layer becomes the outermost one. The advisor links are unchanged. |
| Dispatching.Dispatcher.Clear | src/aop.js:32-34 | `this.advice = null` marks the advisor removed and changes no link. |
| Dispatching.Dispatcher.Splice | src/underscore-aop.js:74-90 | The link updates of `remove` produce exactly `Unlinked` of the old links. The slot is deleted exactly when the advisor had neither neighbour. |
| Dispatching.Prepend | src/aop.js:56-72 | The new advisor joins the advisor table and becomes the before slot, with the old head as its `next` and no `previous`. The after slot is untouched, and so are the links of every advisor except the new one and the old head. |
| Dispatching.Append | src/aop.js:56-72 | The new advisor joins the advisor table with the tail `last` as its `previous` and no `next`. With no tail it becomes the after slot; otherwise the slot stays. The before slot is untouched, and so are the links of every advisor except the new one and the tail. |
| Dispatching.Unlinked | src/aop.js:35-47 | The advisor table is unchanged. The removed advisor keeps its own `previous` and `next` (unless it links to itself), which is what lets a second `remove` in src/underscore-aop.js act again. |
| Dispatching.Bypassed | src/aop.js:40-44 | The first half of unlinking changes only forward links: every `previous` link and the other phase's slot are untouched. |
| Dispatching.Dispatcher.Unlink | src/underscore-aop.js:74-90 | Unlinking keeps the links closed, even for a stale advisor. On a well-formed dispatcher, a linked advisor leaves its chain and the others keep their order. A lone advisor empties its phase's chain. |
| Dispatching.UnlinkedEffects | src/aop.js:35-47 | Unlinking changes only the phase's slot (when there is no previous advisor), the previous advisor's `next` and the next advisor's `previous`. |
| Dispatching.UnlinkedClosed | src/underscore-aop.js:74-90 | Unlinking any advisor, linked or stale, keeps every link closed and the advisor table intact. |
| Dispatching.PrependClosed | src/aop.js:64-69 | A before attachment with an id above all others keeps the links closed. |
| Dispatching.AppendClosed | src/aop.js:57-63 | An after attachment behind the tail with a fresh id keeps the links closed. |
| Dispatching.PrependWf | src/aop.js:64-69 | On well-formed chains, a before attachment gives the chains `[id] + B` and `A`. |
| Dispatching.AppendWf | src/aop.js:57-63 | On well-formed chains, the tail is the last of `A`, and appending behind it gives the chains `B` and `A + [id]`. |
| Dispatching.UnlinkWf | src/aop.js:35-47 | Unlinking a linked advisor leaves both chains equal to the old ones without it, in the same order. The other phase's chain is untouched. Removing the only advisor of a phase leaves that chain empty. |
| Dispatching.LoneUnlinkWf | src/underscore-aop.js:77-78 | Removing a stale advisor that has no neighbours deletes its phase's slot, whatever that chain held. |
| Dispatching.UnlinkCases | src/underscore-aop.js:74-90 | Both outcomes of `remove` that keep the chains well formed: a linked advisor leaves its chain, and a lone stale one empties its phase's chain. |
| Dispatching.PrependCases | src/aop.js:64-69 | A before attachment keeps the links closed, and keeps the chains well formed when they were. |
| Dispatching.AppendCases | src/aop.js:57-63 | An after attachment behind the walk's tail keeps the links closed, and keeps the chains well formed when they were. |
| Dispatching.AppendAll | src/underscore-aop.js:97-105 | Appending behind the walk's tail keeps the links closed, extends the after walk by the new id and leaves the before walk as it was. |
| Dispatching.Reach | src/underscore-aop.js:127-131 | A walk along `next` visits only ids in `Span` of its start: advisors of the same phase as the start, at or behind it in id order (older for the before phase, newer for the after phase). |
| Dispatching.ReachPrepend | src/underscore-aop.js:106-111 | In any closed state, after a before attachment the before walk is the new id followed by the old walk. The after walk is unchanged. |
| Dispatching.ReachAppend | src/underscore-aop.js:97-105 | In any closed state, after an after attachment behind the tail the after walk is the old walk followed by the new id. |
| Dispatching.ReachFrame | src/underscore-aop.js:127-131 | A walk depends only on the links of the advisors it visits. |
| Dispatching.ReachAppendFrom | src/underscore-aop.js:103-105 | Linking the new advisor behind the tail `p` extends every walk that ends at `p` by the new id. |
| Dispatching.WfReach | src/aop.js:86-106 | On well-formed links the dispatcher's walks are exactly the ghost chains `Before` and `After`. |
| Dispatching.WfOrder | src/aop.js:51 | On well-formed links the before walk visits ids in decreasing order (newest first). The after walk visits them in increasing order (oldest first). |
| Dispatching.IdsFrom | src/aop.js:51 | `k` consecutive advisor ids from `n`. |
| Dispatching.ThreadBefore | src/aop.js:86-90 | The arguments threaded through the before advisors in chain order. Without before advice among them they come out unchanged. |
| Dispatching.FoldAfter | src/aop.js:96-106 | The result folded through the after advisors in chain order. Without after advice among them it comes out unchanged. |
| Dispatching.Runnable | src/aop.js:97 | The ids the after loop reaches: a prefix of the chain whose ids are all below the bound. The first id left out is at or above the bound. |
| Dispatching.FoldAfterSnoc | src/aop.js:96-106 | Folding one more advisor onto the after chain applies one more after step to the folded result. |
| Dispatching.FoldAfterConcat | src/aop.js:96-106 | Folding over two chains one after the other is folding over their concatenation. |
| Dispatching.FoldAfterFrame | src/aop.js:96-106 | The fold depends only on the advice of the ids it visits. |
| Dispatching.FoldAfterLate | src/underscore-aop.js:138-149 | Once the advice table has gained late advisors, folding the old chain followed by the late ids is the old fold continued over the late ids. |
| Dispatching.RunnablePrefix | src/aop.js:97 | The after loop runs exactly the prefix of the chain up to the first advisor whose id is not below the bound. |
| Dispatching.RunnableAll | src/underscore-aop.js:140 | When every id of the chain is below the bound, the whole chain runs. |
| Dispatching.RunnableAppend | src/aop.js:97 | Advisors appended with ids at or above the bound do not run, and those before them all run. |
| Dispatching.ThreadBeforeKeeps | src/aop.js:88 | Before advisors that return a falsy value leave the arguments as they were. |
| Dispatching.FoldAfterKeeps | src/aop.js:98-101 | After advisors with `receiveArguments` that return `undefined` leave the result as it was. |
| Dispatching.SkipCancelled | src/aop.js:23-24 | A run of cancelled around layers is transparent: invoking its first layer is invoking the layer below it. |
| Dispatching.Restored | src/aop.js:19-24 | With no advisor on either walk and every around layer cancelled, a call of a dispatcher over a plain function `f` returns `f`'s result: the method behaves as before it was advised. |
| Dispatching.Dispatcher.SetTag | src/underscore-aop.js:158 | `dispatcher._uaopId = t` sets the tag and changes nothing else. |
| Dispatching.Dispatcher.SetOwner | src/underscore-aop.js:164 | `dispatcher.target = target` sets the owner and changes nothing else. |
| Dispatching.Dispatcher.Apply | src/aop.js:82-108 | The outcome of a call: the arguments threaded by `ThreadBefore`, the around phase by `Invoke`, then the result (`undefined` when there is no around phase) folded by `FoldAfter` over the runnable prefix of the after walk. With no around layer and no original the call returns. It throws only when the base layer is missing or is a nested dispatcher. |
| Dispatching.Dispatcher.Invoke | src/aop.js:15-26 | Around layer `i`: a cancelled layer forwards to the one below; an active one runs its advised function with the layer below as delegate; below the last layer is the original function. It throws only when the original is missing or is a nested dispatcher. |
| Dispatching.Dispatcher.RunBefore | src/underscore-aop.js:126-131 | The before loop visits exactly the before walk, and threads the arguments through it. |
| Dispatching.Dispatcher.RunAfter | src/underscore-aop.js:138-149 | The after loop visits exactly the prefix of the after walk whose ids are below the bound, and folds the result through it. |
| Dispatching.Dispatcher.RunAround | src/aop.js:15-26 | Invoking around layer `i` is `Invoke`. A cancelled layer forwards to the one below it. An active one runs its advised function with the layer below as its delegate. The base layer is the original function, or throws when there was none. |
| Dispatching.Dispatcher.Call | src/aop.js:82-108 | A call of the dispatcher produces `Apply`. The trace of advisors that ran is the before walk, then, unless the around phase threw, the runnable prefix of the after walk. With neither around nor original, the result starts as `undefined`. |
| Aop.KeptPrepend | src/aop.js:64-69 | A before attachment with the next id keeps the engine's per-dispatcher invariant, with the id in front of `Before`. |
| Aop.KeptAppend | src/aop.js:57-63 | An after attachment with the next id keeps the invariant, with the id behind `After`. |
| Aop.KeptUnlink | src/aop.js:31-49 | The first `remove` of an advisor keeps the invariant: it is erased from its chain and counted as removed. |
| Aop.KeptAllCleared | src/aop.js:31-38 | Once every advisor has been removed, both chains are empty. |
| Aop.PrependReady | src/aop.js:64-69 | On an installed dispatcher, a before attachment keeps it ready and puts the id in front of `Before`. |
| Aop.AppendReady | src/aop.js:57-63 | On an installed dispatcher, an after attachment keeps it ready and puts the id behind `After`. |
| Aop.Engine.constructor | src/aop.js:8 | The counter starts at 0 with no dispatchers. |
| Aop.Engine.CanCall | src/aop.js:82-108 | Every installed dispatcher, and every one it leads to, is sound and well formed, so it can be called. |
| Aop.Engine.AllRemovedRestores | src/aop.js:19-49 | On an installed dispatcher over a plain function `f`, once every advisor is marked removed and every around layer is cancelled, a call returns `f`'s result. |
| Aop.Engine.Install | src/aop.js:79-115 | A new dispatcher goes into the slot unless it holds a dispatcher owned by this object, which is reused. The new one's innermost layer is what the slot held, and it is owned by the object. |
| Aop.Engine.Create | src/aop.js:82-114 | A fresh dispatcher over what the slot held, with no advisors, owned by the target. |
| Aop.Engine.TakeId | src/aop.js:51 | `nextId++` returns the old value and keeps the invariant. |
| Aop.Engine.AttachAround | src/aop.js:14-27 | The new layer is outermost, and the links and chains are unchanged. |
| Aop.Engine.AttachBefore | src/aop.js:64-69 | The advisor heads `Before`, and the invariant is kept. |
| Aop.Engine.AttachAfter | src/aop.js:57-63 | The advisor ends `After`, and the invariant is kept. |
| Aop.Engine.Advise | src/aop.js:10-75 | Around advice becomes the outermost layer and draws no id. Before and after advice draws the next id and lands at the head of `Before` or the tail of `After`. The links change exactly as `Prepend` or `Append` say. |
| Aop.Engine.Aspect | src/aop.js:77-120 | `aspect` either reuses the object's own dispatcher, with the registry of installed dispatchers and the object's own slots unchanged, or puts a fresh dispatcher over what the slot held into the slot. The advice lands as `Advise` says relative to that dispatcher's old chains: around advice is the outermost layer and draws no id; before and after advice draws the next id, which heads `Before` or ends `After`, and `nextId` grows by one. It modifies only the engine, the object and, when reused, the object's own dispatcher: an inherited dispatcher is left alone. |
| Aop.Engine.Remove | src/aop.js:18-50 | An around remove only cancels its layer. The first advisor remove erases the advisor from its chain and marks it; the advice table, layers, owner and tag are kept, so a later `aspect` on the same object still reuses the dispatcher. Any later remove changes nothing. |
| Aop.Engine.RemoveAll | src/aop.js:18-50 | Removing a sequence of handles marks exactly their advisors removed (`cleared` grows by their ids and nothing else) and cancels each of their around layers; advice table, layers, owner and tag are kept. When the handles cover the dispatcher's advisors and layers, that is exactly the precondition of `AllRemovedRestores`. |
| Aop.Engine.RemoveEach | src/aop.js:18-50 | `remove` on each handle in turn: `cleared` becomes the old set plus the handles' advisor ids, every handle's layer is cancelled, and the rest of the dispatcher is kept. |
| Aop.RemovedCovers | src/aop.js:18-50 | Once the handles' advisors are marked and their layers cancelled, handles that cover every advisor and layer of the dispatcher leave all of them marked and cancelled. |
| Aop.Engine.Detach | src/aop.js:32-48 | Behind the guard, the advisor is unlinked, erased from its chain, marked, and the invariant is kept. |
| Aop.Engine.CallMethod | src/aop.js:82-108 | Calling a slot that holds a dispatcher gives `Apply` with the current counter. The trace is the whole of `Before`, then, unless the call threw, the whole of `After`. A plain function is just called; an empty slot throws. |
| Aop.Engine.RunEntry | src/aop.js:83-94 | The before and around phases produce the threaded arguments and the around outcome. The walks are the chains, every after id is below the counter and has advice. |
| Aop.Engine.RunAfterSnapshot | src/aop.js:96-106 | With the entry snapshot as bound, only the after advisors the call started with run. |
| Aop.Engine.AdviseAfter | src/aop.js:51-63 | One after attachment takes the next id, which is new to the advice table, ends `After` and leaves `Before`, the layers, owner and tag alone. |
| Aop.Engine.AttachAll | src/aop.js:57-63 | Attaching `k` after advisors appends the next `k` ids to `After`, only extends the advice table, and keeps the layers, owner and tag. |
| Aop.Engine.CallAttaching | src/aop.js:83-97 | After advice attached during a call is appended to `After`, but the call's after phase runs only the advisors it started with: the outcome is `Apply` of the state at entry, with the entry counter as bound. Layers, owner and tag are kept. |
| UnderscoreAop.PrependReady | src/underscore-aop.js:106-111 | A before attachment keeps a dispatcher ready and puts the id at the head of the before walk. |
| UnderscoreAop.AppendReady | src/underscore-aop.js:97-105 | An after attachment keeps a dispatcher ready and puts the id at the end of the after walk. |
| UnderscoreAop.LiveBoundRunsAll | src/underscore-aop.js:140 | When every advisor id is below the live counter, the bounded after loop runs the whole after walk. |
| UnderscoreAop.StaleRemoveDropsNewer | src/underscore-aop.js:77-78 | Removing a lone after advisor twice, with another attached in between, leaves the after walk empty. The advisor attached in between no longer runs. |
| UnderscoreAop.StaleRemoveRevives | src/underscore-aop.js:81-90 | With after advisors 0 and 1, removing 0, then 1, then 0 again makes the after walk `[1]`. Advisor 1 runs again although its handle was removed. |
| UnderscoreAop.Library.constructor | src/underscore-aop.js:173-203 | Loading advises `_.bind`: the dispatcher's innermost layer is the library's own `bind`, with no around layers and no after advisors. The function takes the falsy tag 0, so its dispatcher is not registered. The hook is advisor 0 and the only before advisor, in links and chains alike. Both counters end at 1. |
| UnderscoreAop.Library.Tag | src/underscore-aop.js:158-160 | A tagged function keeps its tag. An untagged one takes `dispatcherId`, which then increments. The tag is never 0 after load. |
| UnderscoreAop.Library.Create | src/underscore-aop.js:124-156 | A fresh dispatcher goes into the slot, over what the slot held, with no advisors: its chains are empty and consistent with its links. |
| UnderscoreAop.Library.Replace | src/underscore-aop.js:122-164 | A fresh dispatcher with empty chains goes into the slot. With nothing in the slot, tagging throws: the slot keeps the untagged, unowned dispatcher, and the registry and tag counter are unchanged. Otherwise the dispatcher takes what the slot held's tag, or the next one (and then the tag counter increments), and is registered under it. An inherited dispatcher that was in the slot keeps its links, layers and owner; only its tag may change. |
| UnderscoreAop.Library.Register | src/underscore-aop.js:161-164 | A non-zero tag maps to the dispatcher in the registry, and the dispatcher records its tag and target. |
| UnderscoreAop.Library.TakeId | src/underscore-aop.js:92 | `advisorId++` returns the old value and keeps the invariant. |
| UnderscoreAop.Library.AttachAround | src/underscore-aop.js:55-70 | The new layer is outermost, and the links are unchanged. |
| UnderscoreAop.Library.AttachBefore | src/underscore-aop.js:106-111 | The advisor heads the before walk, and the invariant is kept. |
| UnderscoreAop.Library.AttachAfter | src/underscore-aop.js:97-105 | The advisor ends the after walk, and the invariant is kept. |
| UnderscoreAop.Library.Advise | src/underscore-aop.js:51-117 | Around advice becomes the outermost layer. Before advice becomes the head of the before walk; after advice the end of the after walk. Each draws the next id. The registry and tag counter are untouched. A dispatcher whose chains matched its links still does, with the id added to the front of `Before` or the end of `After`. |
| UnderscoreAop.Library.Aspect | src/underscore-aop.js:119-170 | The slot ends up holding a dispatcher. With nothing in the slot, no advice is attached. Otherwise the advice is in place. An own dispatcher is reused, keeping its owner and tag, with the registry and tag counter unchanged and the id added to its chains, so the next `aspect` on the object reuses it again. Otherwise a fresh one is used, the registry gains it under its non-zero tag, and the tag counter increments when that tag was new; an inherited dispatcher that was in the slot keeps its links, layers and owner, only its tag may change. |
| UnderscoreAop.Library.AspectOwn | src/underscore-aop.js:166 | Advising the dispatcher in the slot keeps it there, keeps its owner and tag, leaves the registry and tag counter unchanged, and adds the id to its chains. |
| UnderscoreAop.Library.AspectNew | src/underscore-aop.js:121-166 | A fresh dispatcher replaces what the slot held and takes the advice, which is its only advisor. The tag counter increments exactly when what the slot held was untagged. An inherited dispatcher that was in the slot keeps everything but its tag. |
| UnderscoreAop.Library.Remove | src/underscore-aop.js:55-91 | An around remove cancels its layer and deletes the registry entry under the dispatcher's tag. An advisor remove unlinks without any guard, keeping the layers, owner and tag; when the advisor had no neighbours it also deletes the registry entry under that tag. A linked advisor leaves its chain in order. |
| UnderscoreAop.Library.Detach | src/underscore-aop.js:74-90 | The unlinking of `remove` keeps the invariant, and reports whether the slot was deleted. |
| UnderscoreAop.Library.HookBind | src/underscore-aop.js:175-188 | The bind hook gives the function a non-zero tag (reallocating the falsy 0), incrementing the tag counter exactly when it had none, leaves a dispatcher argument's links, layers and owner alone, and returns a proxy carrying that tag. |
| UnderscoreAop.Library.CallProxy | src/underscore-aop.js:182-184 | A proxy calls the dispatcher registered under its tag if there is one, and otherwise the function it was bound to. |
| UnderscoreAop.Library.BindThenAdvise | src/underscore-aop.js:158-184 | A function bound first and advised afterwards: its proxy's tag maps to the new dispatcher, so the proxy runs the advice. |
| UnderscoreAop.Library.WrapLib | src/underscore-aop.js:237-239 | Another library's `bind` gets a dispatcher with the bind hook in place, unless that library has no `bind`. The library's own dispatcher is reused; otherwise the new one wraps what the slot held, and the tag counter increments exactly when that was untagged. |
| UnderscoreAop.Library.UnwrapLib | src/underscore-aop.js:241-243 | The load-time hook is unlinked, keeping the dispatcher's layers, owner and tag and the tag counter, and the registry entry under that tag goes when the hook was alone. |
| UnderscoreAop.Library.CanCall | src/underscore-aop.js:124-151 | Every installed dispatcher, and every one it leads to, is sound, so it can be called. |
| UnderscoreAop.Library.CallMethod | src/underscore-aop.js:124-151 | Calling a slot that holds a dispatcher gives `Apply` with the live counter. The trace is the whole before walk, then, unless the call threw, the whole after walk. |
| UnderscoreAop.Library.RunEntry | src/underscore-aop.js:126-136 | The before and around phases produce the threaded arguments and the around outcome. Continued by the fold over the after walk, they give `Apply` with the live counter. |
| UnderscoreAop.Library.RunAfterLive | src/underscore-aop.js:138-149 | With the live counter as bound, the after loop runs the whole after walk. |
| UnderscoreAop.Library.RunAfterLate | src/underscore-aop.js:138-149 | After late advisors were attached, the live-bound after loop folds the result through the old after walk with the old advice, then through the late ids. |
| UnderscoreAop.Library.AdviseAfter | src/underscore-aop.js:92-105 | One after attachment takes the next id and ends the after walk; layers, owner, tag, registry and tag counter are kept. |
| UnderscoreAop.Library.AttachAll | src/underscore-aop.js:97-105 | Attaching `k` after advisors appends the next `k` ids to the after walk, only extends the advice table, and keeps the layers, owner, tag, registry and tag counter. |
| UnderscoreAop.Library.CallAttaching | src/underscore-aop.js:138-149 | After advice attached during a call runs in that same call, after the advisors the call started with: the outcome is `Apply` at entry, its result folded further through the late ids. Layers, owner, tag, registry and tag counter are kept. |
| UnderscoreAop.Mixin | src/underscore-aop.js:249-256 | `target` gains every own property of `src`, overriding its own of the same name, keeps its others, and is returned. |

## Left out

- The receiver `this`, the `arguments` object and `apply`/`call`: the
  receiver is not modelled, and arguments are a sequence of values.
- Exceptions thrown by user advice: the only error modelled is calling
  nothing (a missing base function), and no advice catches it.
- Around advice is modelled as calling its delegate at most once,
  possibly with new arguments, and mapping the result. Advice that calls
  it several times, or keeps it for later, is not modelled.
- Side effects of advice during a call are limited to attaching after
  advice between the around and the after phase (`CallAttaching`). Other
  effects of advice (removing handles, attaching before or around advice)
  during a call are not modelled.
- Advisor objects are modelled as rows of id-keyed tables in their
  dispatcher. Advisor ids are unique per engine, so the id stands for the
  object. A handle is `(dispatcher, id)`.
- Dispatching.Dispatcher.Unlink: the ghost chains `Before`/`After` are
  stated only while no handle is removed twice. After a stale remove in
  src/underscore-aop.js, the walks (`BeforeRun`/`AfterRun`) remain
  specified and the links stay `Closed`.
- UnderscoreAop.Library.Aspect: states the new chains (`Chained`), not the
  walk equations (`BeforeRun`/`AfterRun`) relative to the state before
  `aspect`. Those are stated by `Library.Advise`, which it calls.
- UnderscoreAop.Library.constructor: requires that `bind` is not yet
  tagged, as on a fresh load.
- UnderscoreAop.Library.Replace: the tagging of what the slot held is done
  before the new dispatcher is put in the slot. In the source it happens
  after. The two steps touch disjoint state, so the outcome is the same.
- The bind hook is modelled by `HookBind` and `CallProxy`. As advice
  inside the `bind` dispatcher (`BindHook`), it leaves the argument values
  unchanged. The third-party `bind`/`bindAll`, the receiver a proxy binds,
  and proxies stored in slots are not modelled.
- Nested dispatchers (a dispatcher whose base layer is another
  dispatcher, from an inherited slot) are called with the outer call's
  bound.
- The module loader and UMD shims, `unTypedAspect`, the `methods` table,
  `_dispatchers` and the unused `bindHandles` array are not modelled:
  they are plumbing.
- `mixin` is modelled on own slots only. Property enumeration order is
  not modelled: the keys are distinct, so the result does not depend on it.
