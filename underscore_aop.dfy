/** The engine of src/underscore-aop.js: the same dispatcher as src/aop.js,
    plus a registry of dispatchers by tag (`_uaopId`) that functions bound
    through the library's `bind` consult on every call, so that a function
    bound before it is advised still runs the advice. Its `remove` has no
    guard, and its after phase compares against the live advisor counter. */
module UnderscoreAop {
  import opened Values
  import opened Dispatching

  /** An installed dispatcher: its links are sound, its advisor ids were
      drawn from a counter now at `bound`, and it leads to others through
      `original` in a well-founded way. */
  ghost predicate Ready(d: Dispatcher, bound: nat)
    reads d
  {
    d.Sound() && IdsBelow(d.State(), bound) && d.Layered()
  }

  /** The object behind what a slot holds, whose `_uaopId` is its tag. */
  function ObjectOf(c: Callable): set<object> {
    match c
    case Plain(f) => {f}
    case Disp(d) => {d}
  }

  /** `_uaopId` of what a slot holds (0 when unset). */
  function TagOf(c: Callable): nat
    reads ObjectOf(c)
  {
    match c
    case Plain(f) => f.tag
    case Disp(d) => d.tag
  }

  /** What `bind` returns once wrapped: a function that calls the
      registered dispatcher with tag `id` if there is one, else `func`. */
  datatype Proxy = Proxy(id: nat, func: Callable)

  /** The before branch of `advise` on a ready dispatcher: in whatever
      state its links are, the new advisor is the first one a call runs. */
  method PrependReady(d: Dispatcher, id: nat, a: Advice, bound: nat)
    requires Ready(d, id) && id < bound && a.IsBefore()
    modifies d
    ensures Ready(d, bound)
    ensures d.State() == Prepend(old(d.State()), id, a)
    ensures d.BeforeRun() == [id] + old(d.BeforeRun()) && d.AfterRun() == old(d.AfterRun())
    ensures old(d.Valid()) ==> d.Valid() && d.Before == [id] + old(d.Before) && d.After == old(d.After)
    ensures d.around == old(d.around) && d.owner == old(d.owner) && d.tag == old(d.tag)
  {
    d.AddBefore(id, a);
  }

  /** The after branch of `advise` on a ready dispatcher: in whatever
      state its links are, the new advisor is the last one a call runs. */
  method AppendReady(d: Dispatcher, id: nat, a: Advice, bound: nat)
    requires Ready(d, id) && id < bound && a.IsAfter()
    modifies d
    ensures Ready(d, bound)
    ensures d.State() == Append(old(d.State()), id, a, LastOf(old(d.AfterRun())))
    ensures d.AfterRun() == old(d.AfterRun()) + [id] && d.BeforeRun() == old(d.BeforeRun())
    ensures old(d.Valid()) ==> d.Valid() && d.After == old(d.After) + [id] && d.Before == old(d.Before)
    ensures d.around == old(d.around) && d.owner == old(d.owner) && d.tag == old(d.tag)
  {
    d.AddAfter(id, a);
  }

  /** With the live counter as the bound, the after phase stops at no
      advisor: every id in the dispatcher was drawn before the call. */
  lemma LiveBoundRunsAll(L: Links, bound: nat)
    requires L.Closed() && IdsBelow(L, bound)
    ensures Runnable(Reach(L, L.after, false), bound) == Reach(L, L.after, false)
  {
    var s := Reach(L, L.after, false);
    forall k <- s ensures k < bound {
      assert k in L.advice;
    }
    RunnableAll(s, bound);
  }

  /** The links of a dispatcher with no advisors. */
  function NoLinks(): Links {
    Links(None, None, map[], map[], map[])
  }

  /** On a well-formed dispatcher, the ghost chains after `added` went to
      the head of the before chain (`isBefore`) or the end of the after
      chain, from the chains `B` and `A`. */
  ghost predicate Chained(d: Dispatcher, added: seq<nat>, isBefore: bool, B: seq<nat>, A: seq<nat>)
    reads d
  {
    d.Valid() &&
    d.Before == (if isBefore then added else []) + B &&
    d.After == A + (if isBefore then [] else added)
  }

  /** A dispatcher that `aspect` found inherited in the slot keeps its
      advisors, its around layers and its owner: only its tag may change. */
  twostate predicate Untouched(e: Dispatcher)
    reads e
  {
    e.State() == old(e.State()) && e.around == old(e.around) && e.owner == old(e.owner)
  }

  /** Handle `h` is the signal of advice `a` on `d`, and `a` is in place:
      the outermost around layer, the first advisor the before walk
      visits or the last one the after walk visits. */
  ghost predicate Placed(d: Dispatcher, h: Handle, a: Advice)
    reads d
  {
    d.Sound() && h.d == d &&
    if a.AroundAdvice? then
      h.AroundHandle? && d.around != [] && d.around[0] == h.layer
    else
      h.AdvisorHandle? && h.id in d.advice && d.advice[h.id] == a &&
      (a.IsBefore() ==> d.BeforeRun() != [] && d.BeforeRun()[0] == h.id) &&
      (a.IsAfter() ==> d.AfterRun() != [] && d.AfterRun()[|d.AfterRun()| - 1] == h.id)
  }

  /** Advisor `id` has neither neighbour (`!next && !previous`). */
  ghost predicate Lone(L: Links, id: nat) {
    id in L.prev && id in L.next && L.prev[id].None? && L.next[id].None?
  }

  /** Without a guard, a second `remove` of an after advisor that was alone
      deletes the after slot again, whatever was attached since: here the
      advisor with id 1, attached after the first `remove` of advisor 0,
      stops running. */
  lemma StaleRemoveDropsNewer(a: Advice, b: Advice)
    requires a.IsAfter() && b.IsAfter()
    ensures var L1 := Append(NoLinks(), 0, a, None);
            var L2 := Unlinked(L1, 0);
            var L3 := Append(L2, 1, b, None);
            var L4 := Unlinked(L3, 0);
            L2.Closed() && Reach(L2, L2.after, false) == [] &&
            L3.Closed() && Reach(L3, L3.after, false) == [1] &&
            L4.Closed() && Reach(L4, L4.after, false) == []
  {
    var L1 := Append(NoLinks(), 0, a, None);
    var L2 := Unlinked(L1, 0);
    var L3 := Append(L2, 1, b, None);
    var L4 := Unlinked(L3, 0);
    assert L1.Closed();
    UnlinkedClosed(L1, 0);
    AppendClosed(L2, 1, b, None);
    UnlinkedClosed(L3, 0);
    ReachStep(L3, 1, false);
  }

  /** Without a guard, a second `remove` of an advisor relinks its old
      neighbour: with after advisors 0 and 1, removing 0, then 1, then 0
      again makes 1 run again although its handle was removed. */
  lemma StaleRemoveRevives(a: Advice, b: Advice)
    requires a.IsAfter() && b.IsAfter()
    ensures var L1 := Append(Append(NoLinks(), 0, a, None), 1, b, Some(0));
            var L2 := Unlinked(Unlinked(L1, 0), 1);
            var L3 := Unlinked(L2, 0);
            L1.Closed() && Reach(L1, L1.after, false) == [0, 1] &&
            L2.Closed() && Reach(L2, L2.after, false) == [] &&
            L3.Closed() && Reach(L3, L3.after, false) == [1]
  {
    var L0 := Append(NoLinks(), 0, a, None);
    var L1 := Append(L0, 1, b, Some(0));
    var M := Unlinked(L1, 0);
    var L2 := Unlinked(M, 1);
    var L3 := Unlinked(L2, 0);
    assert L1.Closed();
    ReachStep(L1, 0, false);
    ReachStep(L1, 1, false);
    UnlinkedClosed(L1, 0);
    UnlinkedClosed(M, 1);
    UnlinkedClosed(L2, 0);
    ReachStep(L3, 1, false);
  }

  /** The module state of src/underscore-aop.js: the registry of
      dispatchers by tag, the tag and advisor counters, the handle of the
      `bind` advice installed at load, and the dispatchers it has installed
      (they are reachable only through the objects they were installed
      on). */
  class Library {
    /** `dispatchers`: tag to the latest dispatcher installed with it. */
    var dispatchers: map<nat, Dispatcher>
    /** `dispatcherId`: the next tag. */
    var dispatcherId: nat
    /** `advisorId`: the id the next before or after advisor gets. */
    var advisorId: nat
    /** `remover`: the handle of the `bind` advice attached at load. */
    var remover: Option<Handle>
    ghost var Installed: set<Dispatcher>

    /** Every installed dispatcher is ready; the registry holds installed
        dispatchers, each under its own tag, never the falsy 0; the
        load-time handle is an advisor of an installed dispatcher. */
    ghost predicate Inv()
      reads this, Installed, if remover.Some? then {remover.value.d} else {}
    {
      AllReady() && Registered() && Loaded()
    }

    ghost predicate AllReady()
      reads this, Installed
    {
      forall d <- Installed :: Ready(d, advisorId) && forall x <- d.Lower :: x in Installed
    }

    ghost predicate Registered()
      reads this, Installed
    {
      forall t <- dispatchers :: t != 0 && dispatchers[t] in Installed && dispatchers[t].tag == t
    }

    ghost predicate Loaded()
      reads this, if remover.Some? then {remover.value.d} else {}
    {
      dispatcherId >= 1 &&
      remover.Some? && remover.value.AdvisorHandle? && remover.value.d in Installed &&
      remover.value.id in remover.value.d.advice
    }

    /** The tag `c` ends up with: its own, or the next one if it has none. */
    ghost function NextTag(c: Callable): nat
      reads this, ObjectOf(c)
    {
      if TagOf(c) != 0 then TagOf(c) else dispatcherId
    }

    /** What a slot holds is a function or one of this library's
        dispatchers. */
    ghost predicate Seen(c: Option<Callable>)
      reads this
    {
      c.Some? && c.value.Disp? ==> c.value.d in Installed
    }

    /** Loading the library: the counters start at 0 and `wrapBind(_)`
        advises the `bind` of `lib`: a dispatcher replaces it, the function
        takes tag 0 (falsy, so the dispatcher is not registered), and the
        hook becomes advisor 0. */
    constructor (lib: Target)
      requires lib.LineageOk() && lib.Lookup("bind").Some? && lib.Lookup("bind").value.Plain?
      requires lib.Lookup("bind").value.f.tag == 0
      modifies lib
      ensures Inv() && advisorId == 1 && dispatcherId == 1 && dispatchers == map[]
      ensures remover.Some? && remover.value.id == 0 && remover.value.d.owner == lib
      ensures lib.Lookup("bind") == Some(Disp(remover.value.d))
      ensures remover.value.d.BeforeRun() == [0] && remover.value.d.advice[0] == BindHook
      ensures remover.value.d.original == old(lib.Lookup("bind")) && remover.value.d.around == []
      ensures remover.value.d.AfterRun() == [] && remover.value.d.tag == 0
      ensures remover.value.d.Valid() && remover.value.d.Before == [0] && remover.value.d.After == []
    {
      var d := new Dispatcher(lib.Lookup("bind"));
      lib.own := lib.own["bind" := Disp(d)];
      d.owner := lib;
      d.AddBefore(0, BindHook);
      dispatchers, dispatcherId, advisorId := map[], 1, 1;
      remover := Some(AdvisorHandle(d, 0));
      Installed := {d};
    }

    /** `existing._uaopId ? existing._uaopId : existing._uaopId =
        dispatcherId++`, also the tagging in the `bind` hook: an untagged
        function or dispatcher takes the next tag. After load that tag is
        never the falsy 0. */
    method Tag(c: Callable) returns (t: nat)
      requires Inv() && Seen(Some(c))
      modifies this, ObjectOf(c)
      ensures Inv() && Installed == old(Installed) && advisorId == old(advisorId)
      ensures dispatchers == old(dispatchers) && remover == old(remover)
      ensures t != 0 && TagOf(c) == t
      ensures t == if old(TagOf(c)) != 0 then old(TagOf(c)) else old(dispatcherId)
      ensures dispatcherId == old(dispatcherId) + (if old(TagOf(c)) == 0 then 1 else 0)
      ensures c.Disp? ==> c.d.State() == old(c.d.State()) && c.d.around == old(c.d.around) && c.d.owner == old(c.d.owner)
    {
      t := TagOf(c);
      if t == 0 {
        t := dispatcherId;
        dispatcherId := dispatcherId + 1;
        match c
        case Plain(f) =>
          f.tag := t;
        case Disp(d) =>
          d.SetTag(t);
          forall x <- Installed
            ensures Ready(x, advisorId) && forall y <- x.Lower :: y in Installed
          {
            assert old(Ready(x, advisorId));
          }
      }
    }

    /** A new dispatcher over what the slot held, put in the slot. */
    method Create(existing: Option<Callable>, target: Target, name: string) returns (d: Dispatcher)
      requires Inv() && Seen(existing)
      modifies this, target
      ensures Inv() && fresh(d) && Installed == old(Installed) + {d}
      ensures target.own == old(target.own)[name := Disp(d)]
      ensures advisorId == old(advisorId) && dispatcherId == old(dispatcherId)
      ensures dispatchers == old(dispatchers) && remover == old(remover)
      ensures d.original == existing && d.State() == NoLinks() && d.around == [] && d.owner == null && d.tag == 0
      ensures d.Valid() && d.Before == [] && d.After == []
    {
      if existing.Some? && existing.value.Disp? {
        assert Ready(existing.value.d, advisorId);
      }
      d := new Dispatcher(existing);
      target.own := target.own[name := Disp(d)];
      assert Ready(d, advisorId);
      Installed := Installed + {d};
      forall x <- Installed
        ensures Ready(x, advisorId) && forall y <- x.Lower :: y in Installed
      {
        if x != d {
          assert old(Ready(x, advisorId));
        }
      }
    }

    /** The branch of `aspect` that puts a new dispatcher in the slot. With
        nothing in the slot, reading the tag of nothing throws (`ok` is
        false): the slot keeps the new dispatcher, untagged and without an
        owner. Otherwise the dispatcher takes the tag of what the slot held
        (tagging it if needed), is registered under it, and gets its owner;
        what the slot held keeps everything but its tag. */
    method Replace(target: Target, name: string, existing: Option<Callable>) returns (d: Dispatcher, ok: bool)
      requires Inv() && target.LineageOk() && Seen(existing) && existing == target.Lookup(name)
      modifies this, target, if existing.Some? then ObjectOf(existing.value) else {}
      ensures Inv() && d in Installed && advisorId == old(advisorId) && remover == old(remover)
      ensures target.Lookup(name) == Some(Disp(d))
      ensures fresh(d) && d.original == existing && Installed == old(Installed) + {d}
      ensures target.own == old(target.own)[name := Disp(d)] && d.State() == NoLinks() && d.around == []
      ensures d.Valid() && d.Before == [] && d.After == []
      ensures existing.Some? && existing.value.Disp? ==> Untouched(existing.value.d)
      ensures existing.None? ==>
                !ok && d.owner == null && d.tag == 0 && dispatchers == old(dispatchers) && dispatcherId == old(dispatcherId)
      ensures existing.Some? ==>
                ok && d.owner == target && d.tag != 0 &&
                d.tag == (if old(TagOf(existing.value)) != 0 then old(TagOf(existing.value)) else old(dispatcherId)) &&
                dispatcherId == old(dispatcherId) + (if old(TagOf(existing.value)) == 0 then 1 else 0) &&
                dispatchers == old(dispatchers)[d.tag := d]
    {
      if existing.None? {
        d := Create(existing, target, name);
        ok := false;
        return;
      }
      // The tagging touches only what the slot held, so it can come first.
      ghost var own := target.own;
      var t := Tag(existing.value);
      assert target.own == own;
      d := Create(existing, target, name);
      Register(d, t, target);
      ok := true;
    }

    /** `dispatcher._uaopId = ...; if (dispatcher._uaopId) dispatchers[...]
        = dispatcher; dispatcher.target = target` for a tag that is not 0. */
    method Register(d: Dispatcher, t: nat, target: Target)
      requires Inv() && d in Installed && t != 0 && d.tag == 0
      modifies this, d
      ensures Inv() && Installed == old(Installed) && advisorId == old(advisorId) && remover == old(remover)
      ensures dispatcherId == old(dispatcherId) && dispatchers == old(dispatchers)[t := d]
      ensures d.tag == t && d.owner == target && d.State() == old(d.State()) && d.around == old(d.around)
      ensures d.Before == old(d.Before) && d.After == old(d.After) && target.own == old(target.own)
    {
      d.SetTag(t);
      d.SetOwner(target);
      dispatchers := dispatchers[t := d];
      forall x <- Installed
        ensures Ready(x, advisorId) && forall y <- x.Lower :: y in Installed
      {
        assert old(Ready(x, advisorId));
      }
    }

    /** `advise`: attach advice to dispatcher `d`. An around advice becomes
        the outermost layer; a before or after advisor takes the next id
        and is then the first advisor the before walk visits, or the last
        one the after walk visits, whatever state the links are in. */
    method Advise(d: Dispatcher, a: Advice) returns (h: Handle)
      requires Inv() && d in Installed
      modifies this, d
      ensures Inv() && Installed == old(Installed) && remover == old(remover)
      ensures dispatchers == old(dispatchers) && dispatcherId == old(dispatcherId)
      ensures h.d == d && d.owner == old(d.owner) && d.tag == old(d.tag) && Placed(d, h, a)
      ensures a.AroundAdvice? ==>
                h.AroundHandle? && fresh(h.layer) && h.layer.advised == a.advised && !h.layer.cancelled &&
                d.around == [h.layer] + old(d.around) && advisorId == old(advisorId) && d.State() == old(d.State())
      ensures !a.AroundAdvice? ==>
                h == AdvisorHandle(d, old(advisorId)) && advisorId == old(advisorId) + 1 &&
                d.around == old(d.around) && h.id in d.advice && d.advice[h.id] == a
      ensures a.IsBefore() ==>
                d.State() == Prepend(old(d.State()), h.id, a) &&
                d.BeforeRun() == [h.id] + old(d.BeforeRun()) && d.AfterRun() == old(d.AfterRun())
      ensures a.IsAfter() ==>
                d.State() == Append(old(d.State()), h.id, a, LastOf(old(d.AfterRun()))) &&
                d.AfterRun() == old(d.AfterRun()) + [h.id] && d.BeforeRun() == old(d.BeforeRun())
      ensures old(d.Valid()) ==>
                Chained(d, if h.AdvisorHandle? then [h.id] else [], a.IsBefore(), old(d.Before), old(d.After))
    {
      if a.AroundAdvice? {
        var layer := new AroundLayer(a.advised);
        AttachAround(d, layer);
        h := AroundHandle(d, layer);
      } else {
        assert Ready(d, advisorId);
        ghost var valid := d.Valid();
        var id := TakeId();
        assert d.Valid() == valid;
        if a.IsBefore() {
          AttachBefore(d, id, a);
        } else {
          AttachAfter(d, id, a);
        }
        h := AdvisorHandle(d, id);
      }
    }

    /** `advisorId++`. */
    method TakeId() returns (id: nat)
      requires Inv()
      modifies this
      ensures Inv() && Installed == old(Installed) && id == old(advisorId) && advisorId == id + 1
      ensures dispatchers == old(dispatchers) && dispatcherId == old(dispatcherId) && remover == old(remover)
    {
      id := advisorId;
      advisorId := advisorId + 1;
      forall x <- Installed
        ensures Ready(x, advisorId) && forall y <- x.Lower :: y in Installed
      {
        assert old(Ready(x, advisorId));
      }
    }

    method AttachAround(d: Dispatcher, layer: AroundLayer)
      requires Inv() && d in Installed
      modifies d
      ensures Inv()
      ensures d.around == [layer] + old(d.around) && d.State() == old(d.State())
      ensures old(d.Valid()) ==> Chained(d, [], false, old(d.Before), old(d.After))
      ensures d.owner == old(d.owner) && d.tag == old(d.tag)
    {
      d.AddAround(layer);
      assert Ready(d, advisorId);
      forall x <- Installed
        ensures Ready(x, advisorId) && forall y <- x.Lower :: y in Installed
      {
        if x != d {
          assert old(Ready(x, advisorId));
        }
      }
    }

    method AttachBefore(d: Dispatcher, id: nat, a: Advice)
      requires Inv() && d in Installed && IdsBelow(d.State(), id) && id < advisorId && a.IsBefore()
      modifies d
      ensures Inv()
      ensures d.State() == Prepend(old(d.State()), id, a) && Placed(d, AdvisorHandle(d, id), a)
      ensures d.BeforeRun() == [id] + old(d.BeforeRun()) && d.AfterRun() == old(d.AfterRun())
      ensures old(d.Valid()) ==> Chained(d, [id], true, old(d.Before), old(d.After))
      ensures d.around == old(d.around) && d.owner == old(d.owner) && d.tag == old(d.tag)
    {
      assert Ready(d, advisorId);
      PrependReady(d, id, a, advisorId);
      forall x <- Installed
        ensures Ready(x, advisorId) && forall y <- x.Lower :: y in Installed
      {
        if x != d {
          assert old(Ready(x, advisorId));
        }
      }
    }

    method AttachAfter(d: Dispatcher, id: nat, a: Advice)
      requires Inv() && d in Installed && IdsBelow(d.State(), id) && id < advisorId && a.IsAfter()
      modifies d
      ensures Inv()
      ensures d.State() == Append(old(d.State()), id, a, LastOf(old(d.AfterRun()))) && Placed(d, AdvisorHandle(d, id), a)
      ensures d.AfterRun() == old(d.AfterRun()) + [id] && d.BeforeRun() == old(d.BeforeRun())
      ensures old(d.Valid()) ==> Chained(d, [id], false, old(d.Before), old(d.After))
      ensures d.around == old(d.around) && d.owner == old(d.owner) && d.tag == old(d.tag)
    {
      assert Ready(d, advisorId);
      AppendReady(d, id, a, advisorId);
      forall x <- Installed
        ensures Ready(x, advisorId) && forall y <- x.Lower :: y in Installed
      {
        if x != d {
          assert old(Ready(x, advisorId));
        }
      }
    }

    /** `aspect(type)(target, methodName, advice)`. With nothing in the
        slot, no advice is attached (`h` is None: the tagging threw); the
        slot keeps a dispatcher regardless. */
    method Aspect(target: Target, name: string, a: Advice) returns (d: Dispatcher, h: Option<Handle>)
      requires Inv() && target.LineageOk() && Seen(target.Lookup(name))
      modifies this, target, if target.Lookup(name).Some? then ObjectOf(target.Lookup(name).value) else {}
      ensures Inv() && d in Installed && target.Lookup(name) == Some(Disp(d)) && remover == old(remover)
      ensures h.None? <==> old(target.Lookup(name)).None?
      ensures h.Some? ==> Placed(d, h.value, a)
      ensures advisorId == old(advisorId) + (if h.Some? && !a.AroundAdvice? then 1 else 0)
      ensures var existing := old(target.Lookup(name));
              if existing.Some? && existing.value.Disp? && old(existing.value.d.owner) == target then
                d == existing.value.d && d.owner == target && d.tag == old(d.tag) &&
                dispatchers == old(dispatchers) && dispatcherId == old(dispatcherId) &&
                (old(d.Valid()) && h.Some? ==>
                   Chained(d, if h.value.AdvisorHandle? then [h.value.id] else [], a.IsBefore(), old(d.Before), old(d.After)))
              else
                fresh(d) && d.original == existing &&
                (existing.Some? && existing.value.Disp? ==> Untouched(existing.value.d)) &&
                (h.Some? ==> Chained(d, if h.value.AdvisorHandle? then [h.value.id] else [], a.IsBefore(), [], [])) &&
                (existing.None? ==> dispatchers == old(dispatchers) && dispatcherId == old(dispatcherId) && d.owner == null) &&
                (existing.Some? ==>
                   d.tag != 0 && d.tag == old(NextTag(existing.value)) && d.owner == target &&
                   dispatcherId == old(dispatcherId) + (if old(TagOf(existing.value)) == 0 then 1 else 0) &&
                   dispatchers == old(dispatchers)[d.tag := d])
    {
      var existing := target.Lookup(name);
      if existing.Some? && existing.value.Disp? && existing.value.d.owner == target {
        d := existing.value.d;
        var signal := AspectOwn(target, name, d, a);
        h := Some(signal);
      } else {
        d, h := AspectNew(target, name, existing, a);
      }
    }

    /** `advise(dispatcher || existing, ...)` on the dispatcher in the slot:
        the one `target` already had, or the one `AspectNew` just put there. */
    method AspectOwn(target: Target, name: string, d: Dispatcher, a: Advice) returns (h: Handle)
      requires Inv() && target.LineageOk() && d in Installed && target.Lookup(name) == Some(Disp(d))
      modifies this, d
      ensures Inv() && d in Installed && target.Lookup(name) == Some(Disp(d)) && remover == old(remover)
      ensures Placed(d, h, a) && dispatchers == old(dispatchers) && dispatcherId == old(dispatcherId)
      ensures d.owner == old(d.owner) && d.tag == old(d.tag)
      ensures advisorId == old(advisorId) + (if a.AroundAdvice? then 0 else 1)
      ensures old(d.Valid()) ==>
                Chained(d, if h.AdvisorHandle? then [h.id] else [], a.IsBefore(), old(d.Before), old(d.After))
    {
      h := Advise(d, a);
    }

    /** `aspect` when the slot holds no dispatcher of `target`'s own: a new
        dispatcher replaces what the slot held, then takes the advice. */
    method AspectNew(target: Target, name: string, existing: Option<Callable>, a: Advice)
      returns (d: Dispatcher, h: Option<Handle>)
      requires Inv() && target.LineageOk() && Seen(existing) && existing == target.Lookup(name)
      modifies this, target, if existing.Some? then ObjectOf(existing.value) else {}
      ensures Inv() && d in Installed && target.Lookup(name) == Some(Disp(d)) && remover == old(remover)
      ensures h.None? <==> existing.None?
      ensures h.Some? ==> Placed(d, h.value, a)
      ensures advisorId == old(advisorId) + (if h.Some? && !a.AroundAdvice? then 1 else 0)
      ensures fresh(d) && d.original == existing
      ensures existing.Some? && existing.value.Disp? ==> Untouched(existing.value.d)
      ensures h.Some? ==> Chained(d, if h.value.AdvisorHandle? then [h.value.id] else [], a.IsBefore(), [], [])
      ensures existing.None? ==> dispatchers == old(dispatchers) && dispatcherId == old(dispatcherId) && d.owner == null
      ensures existing.Some? ==>
                d.tag != 0 && d.tag == old(NextTag(existing.value)) && d.owner == target &&
                dispatcherId == old(dispatcherId) + (if old(TagOf(existing.value)) == 0 then 1 else 0) &&
                dispatchers == old(dispatchers)[d.tag := d]
    {
      var ok;
      d, ok := Replace(target, name, existing);
      if !ok {
        h := None;
        return;
      }
      var signal := AspectOwn(target, name, d, a);
      h := Some(signal);
    }

    /** The `remove` of a signal. An around signal sets `cancelled`; an
        advisor signal unlinks its advisor, with no guard against a second
        call. Both delete the registry entry under the dispatcher's tag:
        the around one always, the advisor one when the advisor had no
        neighbours. */
    method Remove(h: Handle)
      requires Inv() && h.d in Installed
      requires h.AdvisorHandle? ==> h.id in h.d.advice
      modifies this, h.d, if h.AroundHandle? then {h.layer} else {}
      ensures Inv() && Installed == old(Installed) && remover == old(remover)
      ensures advisorId == old(advisorId) && dispatcherId == old(dispatcherId)
      ensures h.AroundHandle? ==> h.layer.cancelled && unchanged(h.d) && dispatchers == old(dispatchers) - {h.d.tag}
      ensures h.AdvisorHandle? ==>
                h.d.State() == Unlinked(old(h.d.State()), h.id) && h.d.around == old(h.d.around) &&
                h.d.owner == old(h.d.owner) && h.d.tag == old(h.d.tag) &&
                dispatchers == if Lone(old(h.d.State()), h.id) then old(dispatchers) - {old(h.d.tag)} else old(dispatchers)
      ensures h.AdvisorHandle? && old(h.d.Valid()) && (h.id in old(h.d.Before) || h.id in old(h.d.After)) ==>
                h.d.Valid() && h.d.Before == Erase(old(h.d.Before), h.id) && h.d.After == Erase(old(h.d.After), h.id)
    {
      match h
      case AroundHandle(d, layer) =>
        layer.cancelled := true;
        dispatchers := dispatchers - {d.tag};
      case AdvisorHandle(d, id) =>
        var slotDeleted := Detach(d, id);
        if slotDeleted {
          dispatchers := dispatchers - {d.tag};
        }
    }

    /** The unlinking in an advisor's `remove`. */
    method Detach(d: Dispatcher, id: nat) returns (slotDeleted: bool)
      requires Inv() && d in Installed && id in d.advice
      modifies d
      ensures Inv()
      ensures d.State() == Unlinked(old(d.State()), id) && (slotDeleted <==> Lone(old(d.State()), id))
      ensures d.around == old(d.around) && d.owner == old(d.owner) && d.tag == old(d.tag)
      ensures old(d.Valid()) && (id in old(d.Before) || id in old(d.After)) ==>
                d.Valid() && d.Before == Erase(old(d.Before), id) && d.After == Erase(old(d.After), id)
    {
      assert Ready(d, advisorId);
      slotDeleted := d.Unlink(id);
      assert Ready(d, advisorId);
      forall x <- Installed
        ensures Ready(x, advisorId) && forall y <- x.Lower :: y in Installed
      {
        if x != d {
          assert old(Ready(x, advisorId));
        }
      }
    }

    /** The `bind` hook: the function being bound takes a tag if it has
        none, and is replaced by a proxy carrying that tag. */
    method HookBind(func: Callable) returns (p: Proxy)
      requires Inv() && Seen(Some(func))
      modifies this, ObjectOf(func)
      ensures Inv() && Installed == old(Installed) && advisorId == old(advisorId)
      ensures dispatchers == old(dispatchers) && remover == old(remover)
      ensures p.func == func && p.id != 0 && p.id == TagOf(func)
      ensures p.id == if old(TagOf(func)) != 0 then old(TagOf(func)) else old(dispatcherId)
      ensures dispatcherId == old(dispatcherId) + (if old(TagOf(func)) == 0 then 1 else 0)
      ensures func.Disp? ==> Untouched(func.d)
    {
      var id := Tag(func);
      p := Proxy(id, func);
    }

    /** Calling a proxy: `(dispatchers[id] || func).apply(this, arguments)`. */
    method CallProxy(p: Proxy, args: Args) returns (o: Outcome)
      requires Inv() && Seen(Some(p.func))
      ensures p.id in dispatchers ==> dispatchers[p.id].DeepSound() && o == dispatchers[p.id].Apply(args, advisorId)
      ensures p.id !in dispatchers && p.func.Plain? ==> o == Returned(p.func.f.body(args))
      ensures p.id !in dispatchers && p.func.Disp? ==> p.func.d.DeepSound() && o == p.func.d.Apply(args, advisorId)
    {
      var target: Callable := if p.id in dispatchers then Disp(dispatchers[p.id]) else p.func;
      match target
      case Plain(f) =>
        o := Returned(f.body(args));
      case Disp(d) =>
        CanCall(d);
        var ran;
        o, ran := d.Call(args, advisorId);
    }

    /** A function bound through the wrapped `bind` and then advised on an
        object: the proxy finds the new dispatcher in the registry. */
    method BindThenAdvise(f: Func, target: Target, name: string, a: Advice)
        returns (p: Proxy, d: Dispatcher, h: Option<Handle>)
      requires Inv() && target.LineageOk() && target.Lookup(name) == Some(Plain(f))
      modifies this, f, target
      ensures Inv() && d in Installed && target.Lookup(name) == Some(Disp(d))
      ensures p.func == Plain(f) && h.Some? && Placed(d, h.value, a)
      ensures p.id in dispatchers && dispatchers[p.id] == d
    {
      p := HookBind(Plain(f));
      d, h := Aspect(target, name, a);
    }

    /** `wrapLib(lib)`: advise the `bind` of another library. */
    method WrapLib(lib: Target) returns (d: Dispatcher, h: Option<Handle>)
      requires Inv() && lib.LineageOk() && Seen(lib.Lookup("bind"))
      modifies this, lib, if lib.Lookup("bind").Some? then ObjectOf(lib.Lookup("bind").value) else {}
      ensures Inv() && d in Installed && lib.Lookup("bind") == Some(Disp(d)) && remover == old(remover)
      ensures h.None? <==> old(lib.Lookup("bind")).None?
      ensures h.Some? ==> Placed(d, h.value, BindHook)
      ensures var existing := old(lib.Lookup("bind"));
              if existing.Some? && existing.value.Disp? && old(existing.value.d.owner) == lib then
                d == existing.value.d && dispatcherId == old(dispatcherId)
              else
                fresh(d) && d.original == existing &&
                dispatcherId == old(dispatcherId) + (if existing.Some? && old(TagOf(existing.value)) == 0 then 1 else 0)
    {
      d, h := Aspect(lib, "bind", BindHook);
    }

    /** `unwrapLib()`: remove the `bind` advice attached at load. */
    method UnwrapLib()
      requires Inv()
      modifies this, remover.value.d
      ensures Inv() && remover == old(remover) && advisorId == old(advisorId) && dispatcherId == old(dispatcherId)
      ensures var d, id := remover.value.d, remover.value.id;
              d.State() == Unlinked(old(d.State()), id) &&
              d.around == old(d.around) && d.owner == old(d.owner) && d.tag == old(d.tag) &&
              dispatchers == if Lone(old(d.State()), id) then old(dispatchers) - {old(d.tag)} else old(dispatchers)
    {
      Remove(remover.value);
    }

    /** Calling `target[methodName](...args)`. The after phase compares ids
        with the live counter, so with nothing attached during the call
        every advisor runs: the before chain newest first, then, unless the
        around phase threw, the after chain oldest first. */
    method CallMethod(target: Target, name: string, args: Args) returns (o: Outcome, ran: seq<nat>)
      requires Inv() && target.LineageOk() && Seen(target.Lookup(name))
      ensures var c := target.Lookup(name);
              if c.None? then o == Threw(NotCallable) && ran == []
              else if c.value.Plain? then o == Returned(c.value.f.body(args)) && ran == []
              else
                c.value.d.DeepSound() && o == c.value.d.Apply(args, advisorId) &&
                ran == c.value.d.BeforeRun() + (if o.Threw? then [] else c.value.d.AfterRun())
    {
      var existing := target.Lookup(name);
      match existing
      case None =>
        o, ran := Threw(NotCallable), [];
      case Some(Plain(f)) =>
        o, ran := Returned(f.body(args)), [];
      case Some(Disp(d)) =>
        CanCall(d);
        assert Ready(d, advisorId);
        LiveBoundRunsAll(d.State(), advisorId);
        o, ran := d.Call(args, advisorId);
    }

    /** A call of dispatcher `d` during which before or around advice
        attaches the after advice `late`. The after loop reads `advisorId`
        afresh, so the new advisors run in this same call, after the ones
        the call started with. */
    method CallAttaching(d: Dispatcher, args: Args, late: seq<Advice>) returns (o: Outcome, ran: seq<nat>)
      requires Inv() && d in Installed && forall a <- late :: a.IsAfter()
      modifies this, d
      ensures d.around == old(d.around) && d.owner == old(d.owner) && d.tag == old(d.tag)
      ensures dispatchers == old(dispatchers) && dispatcherId == old(dispatcherId)
      ensures Inv() && Installed == old(Installed) && advisorId == old(advisorId) + |late|
      ensures d.AfterRun() == old(d.AfterRun()) + IdsFrom(old(advisorId), |late|) && d.BeforeRun() == old(d.BeforeRun())
      ensures ran == old(d.BeforeRun()) + (if o.Threw? then [] else d.AfterRun())
      ensures old(d.DeepSound()) &&
              var o0, a := old(d.Apply(args, advisorId)), old(ThreadBefore(d.advice, d.BeforeRun(), args));
              o == if o0.Threw? then o0 else Returned(FoldAfter(d.advice, IdsFrom(old(advisorId), |late|), o0.value, a))
    {
      ghost var advice0, after0 := d.advice, d.AfterRun();
      var a, ranBefore, mid := RunEntry(d, args);
      AttachAll(d, late);
      var ranAfter;
      o, ranAfter := RunAfterLate(d, a, mid, advice0, after0, old(advisorId), |late|);
      ran := ranBefore + ranAfter;
    }

    /** The after phase of `CallAttaching`, unless the around phase threw:
        the whole after walk runs, the chain `A0` the call started with
        and then the `k` advisors attached since. */
    method RunAfterLate(d: Dispatcher, a: Args, mid: Outcome, ghost advice0: map<nat, Advice>, ghost A0: seq<nat>, ghost n: nat, ghost k: nat)
        returns (o: Outcome, ran: seq<nat>)
      requires Inv() && d in Installed && d.Sound() && d.AfterRun() == A0 + IdsFrom(n, k)
      requires Extends(advice0, d.advice) && forall x <- A0 :: x in advice0
      ensures o == if mid.Threw? then mid else Returned(FoldAfter(d.advice, IdsFrom(n, k), FoldAfter(advice0, A0, mid.value, a), a))
      ensures ran == if mid.Threw? then [] else d.AfterRun()
    {
      o, ran := mid, [];
      if !mid.Threw? {
        var results;
        results, ran := RunAfterLive(d, a, mid.value);
        FoldAfterLate(advice0, d.advice, A0, IdsFrom(n, k), mid.value, a);
        o := Returned(results);
      }
    }

    /** The before and around phases of a call of `d`. */
    method RunEntry(d: Dispatcher, args: Args) returns (a: Args, ran: seq<nat>, mid: Outcome)
      requires Inv() && d in Installed
      ensures d.Sound() && ran == d.BeforeRun() && a == ThreadBefore(d.advice, d.BeforeRun(), args)
      ensures d.DeepSound() && mid == if |d.around| > 0 || d.original.Some? then d.Invoke(0, a, advisorId) else Returned(Undefined)
      ensures d.Apply(args, advisorId) == if mid.Threw? then mid else Returned(FoldAfter(d.advice, d.AfterRun(), mid.value, a))
    {
      CanCall(d);
      assert Ready(d, advisorId);
      LiveBoundRunsAll(d.State(), advisorId);
      a, ran := d.RunBefore(args);
      mid := Returned(Undefined);
      if |d.around| > 0 || d.original.Some? {
        mid := d.RunAround(0, a, advisorId);
      }
    }

    /** The after phase with the live counter as the bound: the whole
        after chain runs. */
    method RunAfterLive(d: Dispatcher, a: Args, results: Value) returns (r: Value, ran: seq<nat>)
      requires Inv() && d in Installed
      ensures d.Sound() && ran == d.AfterRun() && r == FoldAfter(d.advice, d.AfterRun(), results, a)
    {
      assert Ready(d, advisorId);
      LiveBoundRunsAll(d.State(), advisorId);
      r, ran := d.RunAfter(a, results, advisorId);
    }

    /** Attach the after advice `late` to `d`, one `advise` each, in
        order. */
    method AttachAll(d: Dispatcher, late: seq<Advice>)
      requires Inv() && d in Installed && forall a <- late :: a.IsAfter()
      modifies this, d
      ensures d.around == old(d.around) && d.owner == old(d.owner) && d.tag == old(d.tag)
      ensures dispatchers == old(dispatchers) && dispatcherId == old(dispatcherId)
      ensures Inv() && Installed == old(Installed) && advisorId == old(advisorId) + |late|
      ensures d.Sound() && d.AfterRun() == old(d.AfterRun()) + IdsFrom(old(advisorId), |late|)
      ensures d.BeforeRun() == old(d.BeforeRun()) && Extends(old(d.advice), d.advice)
      decreases |late|
    {
      if late == [] {
        assert Ready(d, advisorId);
        return;
      }
      var n := |late| - 1;
      AttachAll(d, late[..n]);
      ghost var prefix, advice1 := d.AfterRun(), d.advice;
      var id := AdviseAfter(d, late[n]);
      ExtendsFresh(old(d.advice), advice1, id, late[n]);
      IdsFromNext(old(d.AfterRun()), old(advisorId), n, prefix, id);
    }

    /** `advise(d, 'after', a)`, as `AttachAll` uses it. */
    method AdviseAfter(d: Dispatcher, a: Advice) returns (id: nat)
      requires Inv() && d in Installed && a.IsAfter()
      modifies this, d
      ensures d.around == old(d.around) && d.owner == old(d.owner) && d.tag == old(d.tag)
      ensures dispatchers == old(dispatchers) && dispatcherId == old(dispatcherId)
      ensures Inv() && Installed == old(Installed) && id == old(advisorId) && advisorId == id + 1
      ensures d.Sound() && d.AfterRun() == old(d.AfterRun()) + [id] && d.BeforeRun() == old(d.BeforeRun())
      ensures id !in old(d.advice) && d.advice == old(d.advice)[id := a]
    {
      assert Ready(d, advisorId);
      id := TakeId();
      AttachAfter(d, id, a);
      assert d.advice == d.State().advice;
    }

    /** An installed dispatcher can be called. */
    lemma CanCall(d: Dispatcher)
      requires Inv() && d in Installed
      ensures d.DeepSound()
    {
      forall x <- d.Lower ensures x.Sound() {
        assert Ready(x, advisorId);
      }
    }
  }

  /** `mixin(target, src)`: copy every own property of `src` onto
      `target`, which is returned. */
  method Mixin(target: Target, src: Target) returns (r: Target)
    modifies target
    ensures r == target && target.own == old(target.own) + old(src.own)
  {
    var from := src.own;
    var rest := from.Keys;
    while rest != {}
      invariant rest <= from.Keys
      invariant target.own == old(target.own) + (from - rest)
      decreases rest
    {
      var name :| name in rest;
      target.own := target.own[name := from[name]];
      rest := rest - {name};
    }
    r := target;
  }
}
