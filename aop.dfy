/** The engine of src/aop.js: `before`, `after` and `around` attach advice
    to a method of an object through a dispatcher, `remove` detaches it,
    and the dispatcher bounds its after phase by the advisor id counter as
    it was when the call began. */
module Aop {
  import opened Values
  import opened Dispatching

  /** The linking state `L` is well formed with chains `B` and `A`, its ids
      were drawn from a counter now at `bound`, and an advisor is linked
      exactly when its `remove` has not yet run (`C` are the advisors whose
      `advice` field is null). */
  ghost predicate Kept(L: Links, B: seq<nat>, A: seq<nat>, C: set<nat>, bound: nat) {
    Wf(L, B, A) && IdsBelow(L, bound) && C <= L.advice.Keys &&
    forall k <- L.advice :: (k in B || k in A) <==> k !in C
  }

  /** An installed dispatcher keeps `Kept` and leads to others through
      `original` in a well-founded way. */
  ghost predicate Ready(d: Dispatcher, bound: nat)
    reads d
  {
    Kept(d.State(), d.Before, d.After, d.cleared, bound) && d.Layered()
  }

  /** The before branch of `advise` keeps `Kept`. */
  lemma KeptPrepend(L: Links, B: seq<nat>, A: seq<nat>, C: set<nat>, id: nat, a: Advice, bound: nat)
    requires Kept(L, B, A, C, id) && id < bound && a.IsBefore()
    ensures Kept(Prepend(L, id, a), [id] + B, A, C, bound)
  {
    PrependCases(L, B, A, id, a);
  }

  /** The after branch of `advise` keeps `Kept`. */
  lemma KeptAppend(L: Links, B: seq<nat>, A: seq<nat>, C: set<nat>, id: nat, a: Advice, bound: nat)
    requires Kept(L, B, A, C, id) && id < bound && a.IsAfter()
    ensures Kept(Append(L, id, a, LastOf(A)), B, A + [id], C, bound)
  {
    AppendCases(L, B, A, id, a);
    WfReach(L, B, A);
  }

  /** The first `remove` of an advisor keeps `Kept`. */
  lemma KeptUnlink(L: Links, B: seq<nat>, A: seq<nat>, C: set<nat>, id: nat, bound: nat)
    requires Kept(L, B, A, C, bound) && id in L.advice && id !in C
    ensures Kept(Unlinked(L, id), Erase(B, id), Erase(A, id), C + {id}, bound)
  {
    UnlinkedClosed(L, id);
    UnlinkCases(L, B, A, id);
  }

  /** Once every advisor has been removed, both chains are empty. */
  lemma KeptAllCleared(L: Links, B: seq<nat>, A: seq<nat>, C: set<nat>, bound: nat)
    requires Kept(L, B, A, C, bound) && L.advice.Keys <= C
    ensures B == [] && A == []
  {
    assert forall k <- L.advice :: k !in B && k !in A;
  }

  /** The before branch of `advise` on a dispatcher that keeps `Kept`. */
  method PrependReady(d: Dispatcher, id: nat, a: Advice, bound: nat)
    requires Ready(d, id) && id < bound && a.IsBefore()
    modifies d
    ensures Ready(d, bound)
    ensures d.State() == Prepend(old(d.State()), id, a) && d.Before == [id] + old(d.Before) && d.After == old(d.After)
    ensures d.cleared == old(d.cleared) && d.around == old(d.around) && d.owner == old(d.owner) && d.tag == old(d.tag)
  {
    KeptPrepend(d.State(), d.Before, d.After, d.cleared, id, a, bound);
    d.AddBefore(id, a);
  }

  /** The after branch of `advise` on a dispatcher that keeps `Kept`. */
  method AppendReady(d: Dispatcher, id: nat, a: Advice, bound: nat)
    requires Ready(d, id) && id < bound && a.IsAfter()
    modifies d
    ensures Ready(d, bound)
    ensures d.State() == Append(old(d.State()), id, a, LastOf(old(d.After))) && d.After == old(d.After) + [id] && d.Before == old(d.Before)
    ensures d.cleared == old(d.cleared) && d.around == old(d.around) && d.owner == old(d.owner) && d.tag == old(d.tag)
  {
    WfReach(d.State(), d.Before, d.After);
    KeptAppend(d.State(), d.Before, d.After, d.cleared, id, a, bound);
    d.AddAfter(id, a);
  }

  /** Handle `h` is the signal of advice `a` on `d`, and `a` is in place:
      the outermost around layer, the head of the before chain or the tail
      of the after chain. */
  ghost predicate Attached(d: Dispatcher, h: Handle, a: Advice)
    reads d
  {
    h.d == d &&
    if a.AroundAdvice? then
      h.AroundHandle? && d.around != [] && d.around[0] == h.layer
    else
      h.AdvisorHandle? && h.id in d.advice && d.advice[h.id] == a &&
      (a.IsBefore() ==> d.Before != [] && d.Before[0] == h.id) &&
      (a.IsAfter() ==> d.After != [] && d.After[|d.After| - 1] == h.id)
  }

  /** After `advise` of `a` with signal `h`, the around layers and the
      two chains of `d` are `R`, `B` and `A` with the new advice in place:
      an around layer outermost, a before advisor at the head, an after
      advisor at the tail. */
  ghost predicate Advised(d: Dispatcher, h: Handle, a: Advice, R: seq<AroundLayer>, B: seq<nat>, A: seq<nat>)
    reads d
  {
    (a.AroundAdvice? <==> h.AroundHandle?) &&
    d.around == (if h.AroundHandle? then [h.layer] else []) + R &&
    d.Before == (if h.AdvisorHandle? && a.IsBefore() then [h.id] else []) + B &&
    d.After == A + (if h.AdvisorHandle? && a.IsAfter() then [h.id] else [])
  }

  /** The dispatcher `aspect` reuses: what the slot holds, when that is a
      dispatcher installed on `target` itself. */
  function OwnDispatcher(c: Option<Callable>, target: Target): set<object>
    reads if c.Some? && c.value.Disp? then {c.value.d} else {}
  {
    if c.Some? && c.value.Disp? && c.value.d.owner == target then {c.value.d} else {}
  }

  /** The module state of src/aop.js: the advisor id counter, and the
      dispatchers it has installed (they are reachable only through the
      objects they were installed on). */
  /** The advisor ids and the around layers a sequence of handles names. */
  function AdvisorIds(hs: seq<Handle>): set<nat> {
    set h <- hs | h.AdvisorHandle? :: h.id
  }

  function LayersOf(hs: seq<Handle>): set<AroundLayer> {
    set h <- hs | h.AroundHandle? :: h.layer
  }

  /** What the first handle adds to the ids and layers of the rest. */
  lemma HandlesCons(hs: seq<Handle>)
    requires hs != []
    ensures AdvisorIds(hs) == (if hs[0].AdvisorHandle? then {hs[0].id} else {}) + AdvisorIds(hs[1..])
    ensures LayersOf(hs) == (if hs[0].AroundHandle? then {hs[0].layer} else {}) + LayersOf(hs[1..])
  {
  }

  /** Handles of `d` whose advisors are all marked and whose layers are
      all cancelled: when they cover the advisors and the layers of `d`,
      every advisor is marked and every layer cancelled. */
  lemma RemovedCovers(d: Dispatcher, hs: seq<Handle>)
    requires forall h <- hs :: h.d == d
    requires AdvisorIds(hs) <= d.cleared && forall l <- LayersOf(hs) :: l.cancelled
    ensures forall h <- hs :: (h.AdvisorHandle? ==> h.id in d.cleared) && (h.AroundHandle? ==> h.layer.cancelled)
    ensures (forall k <- d.advice :: AdvisorHandle(d, k) in hs) ==> d.advice.Keys <= d.cleared
    ensures (forall i | 0 <= i < |d.around| :: AroundHandle(d, d.around[i]) in hs) ==>
              forall i | 0 <= i < |d.around| :: d.around[i].cancelled
  {
  }

  class Engine {
    /** `nextId`: the id the next before or after advisor gets. */
    var nextId: nat
    ghost var Installed: set<Dispatcher>

    ghost predicate Inv()
      reads this, Installed
    {
      forall d <- Installed :: Ready(d, nextId) && forall x <- d.Lower :: x in Installed
    }

    /** What a slot holds is a function or one of this engine's
        dispatchers. */
    ghost predicate Seen(c: Option<Callable>)
      reads this
    {
      c.Some? && c.value.Disp? ==> c.value.d in Installed
    }

    constructor ()
      ensures Inv() && nextId == 0 && Installed == {}
    {
      nextId := 0;
      Installed := {};
    }

    /** An installed dispatcher can be called. */
    lemma CanCall(d: Dispatcher)
      requires Inv() && d in Installed
      ensures d.DeepSound() && d.Valid()
    {
      forall x <- d.Lower ensures x.Sound() {
        assert Ready(x, nextId);
      }
    }

    /** Removing every signal restores the method: once each advisor of
        an installed dispatcher over `f` has been removed (its `advice`
        field is null) and each around layer cancelled, a call is a call of
        `f` alone. */
    lemma AllRemovedRestores(d: Dispatcher, f: Func, args: Args)
      requires Inv() && d in Installed && d.original == Some(Plain(f))
      requires d.advice.Keys <= d.cleared
      requires forall k :: 0 <= k < |d.around| ==> d.around[k].cancelled
      ensures d.DeepSound() && d.Apply(args, nextId) == Returned(f.body(args))
    {
      CanCall(d);
      assert Ready(d, nextId);
      KeptAllCleared(d.State(), d.Before, d.After, d.cleared, nextId);
      WfReach(d.State(), d.Before, d.After);
      Restored(d, f, args, nextId);
    }

    /** The dispatcher half of `aspect`: install a new dispatcher when the
        slot is empty or holds something that is not this object's own
        dispatcher (a plain function, or a dispatcher inherited from a
        prototype), with what the slot held as its innermost around layer;
        otherwise reuse the object's own dispatcher. */
    method Install(target: Target, name: string) returns (d: Dispatcher)
      requires Inv() && target.LineageOk() && Seen(target.Lookup(name))
      modifies this, target
      ensures Inv() && d in Installed && nextId == old(nextId)
      ensures target.Lookup(name) == Some(Disp(d)) && d.owner == target
      ensures var existing := old(target.Lookup(name));
              if existing.Some? && existing.value.Disp? && existing.value.d.owner == target then
                d == existing.value.d && Installed == old(Installed) && target.own == old(target.own) &&
                unchanged(d)
              else
                fresh(d) && d.original == existing && Installed == old(Installed) + {d} &&
                target.own == old(target.own)[name := Disp(d)] &&
                d.State() == Links(None, None, map[], map[], map[]) && d.around == [] &&
                d.Before == [] && d.After == []
    {
      var existing := target.Lookup(name);
      if existing.Some? && existing.value.Disp? && existing.value.d.owner == target {
        d := existing.value.d;
      } else {
        d := Create(existing, target);
        target.own := target.own[name := Disp(d)];
      }
    }

    /** A new dispatcher over what the slot held, installed on `target`. */
    method Create(existing: Option<Callable>, target: Target) returns (d: Dispatcher)
      requires Inv() && Seen(existing)
      modifies this
      ensures Inv() && fresh(d) && Installed == old(Installed) + {d} && nextId == old(nextId)
      ensures d.original == existing && d.owner == target
      ensures d.State() == Links(None, None, map[], map[], map[]) && d.around == []
      ensures d.Before == [] && d.After == []
    {
      if existing.Some? && existing.value.Disp? {
        assert Ready(existing.value.d, nextId);
      }
      d := new Dispatcher(existing);
      d.owner := target;
      assert Ready(d, nextId);
      Installed := Installed + {d};
      forall x <- Installed
        ensures Ready(x, nextId) && forall y <- x.Lower :: y in Installed
      {
        if x != d {
          assert old(Ready(x, nextId));
        }
      }
    }

    /** `advise`: attach advice to dispatcher `d`. An around advice becomes
        the outermost layer; a before or after advisor takes the next id
        and goes to the head of the before chain or the tail of the after
        chain. */
    method Advise(d: Dispatcher, a: Advice) returns (h: Handle)
      requires Inv() && d in Installed
      modifies this, d
      ensures Inv() && Installed == old(Installed) && Attached(d, h, a)
      ensures Advised(d, h, a, old(d.around), old(d.Before), old(d.After))
      ensures d.owner == old(d.owner) && d.tag == old(d.tag)
      ensures a.AroundAdvice? ==>
                h.AroundHandle? && fresh(h.layer) && h.layer.advised == a.advised && !h.layer.cancelled &&
                d.around == [h.layer] + old(d.around) && nextId == old(nextId) &&
                d.State() == old(d.State()) && d.Before == old(d.Before) && d.After == old(d.After)
      ensures !a.AroundAdvice? ==>
                h == AdvisorHandle(d, old(nextId)) && nextId == old(nextId) + 1 && d.around == old(d.around)
      ensures a.IsBefore() ==>
                d.State() == Prepend(old(d.State()), h.id, a) &&
                d.Before == [h.id] + old(d.Before) && d.After == old(d.After)
      ensures a.IsAfter() ==>
                d.State() == Append(old(d.State()), h.id, a, LastOf(old(d.After))) &&
                d.Before == old(d.Before) && d.After == old(d.After) + [h.id]
    {
      if a.AroundAdvice? {
        var layer := new AroundLayer(a.advised);
        AttachAround(d, layer);
        h := AroundHandle(d, layer);
      } else {
        assert Ready(d, nextId);
        var id := TakeId();
        if a.IsBefore() {
          AttachBefore(d, id, a);
        } else {
          AttachAfter(d, id, a);
        }
        h := AdvisorHandle(d, id);
      }
    }

    /** `nextId++`. */
    method TakeId() returns (id: nat)
      requires Inv()
      modifies this
      ensures Inv() && Installed == old(Installed) && id == old(nextId) && nextId == id + 1
    {
      id := nextId;
      nextId := nextId + 1;
      forall x <- Installed
        ensures Ready(x, nextId) && forall y <- x.Lower :: y in Installed
      {
        assert old(Ready(x, nextId));
      }
    }

    method AttachAround(d: Dispatcher, layer: AroundLayer)
      requires Inv() && d in Installed
      modifies d
      ensures Inv()
      ensures d.around == [layer] + old(d.around) && d.State() == old(d.State())
      ensures Attached(d, AroundHandle(d, layer), AroundAdvice(layer.advised))
      ensures Advised(d, AroundHandle(d, layer), AroundAdvice(layer.advised), old(d.around), old(d.Before), old(d.After))
      ensures d.Before == old(d.Before) && d.After == old(d.After) && d.owner == old(d.owner) && d.tag == old(d.tag)
    {
      d.AddAround(layer);
      assert Ready(d, nextId);
      forall x <- Installed
        ensures Ready(x, nextId) && forall y <- x.Lower :: y in Installed
      {
        if x != d {
          assert old(Ready(x, nextId));
        }
      }
    }

    method AttachBefore(d: Dispatcher, id: nat, a: Advice)
      requires Inv() && d in Installed && IdsBelow(d.State(), id) && id < nextId && a.IsBefore()
      modifies d
      ensures Inv()
      ensures d.State() == Prepend(old(d.State()), id, a) && d.Before == [id] + old(d.Before)
      ensures Attached(d, AdvisorHandle(d, id), a)
      ensures Advised(d, AdvisorHandle(d, id), a, old(d.around), old(d.Before), old(d.After))
      ensures d.After == old(d.After) && d.around == old(d.around) && d.owner == old(d.owner) && d.tag == old(d.tag)
    {
      assert Ready(d, nextId);
      PrependReady(d, id, a, nextId);
      forall x <- Installed
        ensures Ready(x, nextId) && forall y <- x.Lower :: y in Installed
      {
        if x != d {
          assert old(Ready(x, nextId));
        }
      }
    }

    method AttachAfter(d: Dispatcher, id: nat, a: Advice)
      requires Inv() && d in Installed && IdsBelow(d.State(), id) && id < nextId && a.IsAfter()
      modifies d
      ensures Inv()
      ensures d.State() == Append(old(d.State()), id, a, LastOf(old(d.After))) && d.After == old(d.After) + [id]
      ensures Attached(d, AdvisorHandle(d, id), a)
      ensures Advised(d, AdvisorHandle(d, id), a, old(d.around), old(d.Before), old(d.After))
      ensures d.Before == old(d.Before) && d.around == old(d.around) && d.owner == old(d.owner) && d.tag == old(d.tag)
    {
      assert Ready(d, nextId);
      AppendReady(d, id, a, nextId);
      forall x <- Installed
        ensures Ready(x, nextId) && forall y <- x.Lower :: y in Installed
      {
        if x != d {
          assert old(Ready(x, nextId));
        }
      }
    }

    /** `aspect(type)(target, methodName, advice)`: find or install the
        dispatcher, then advise it. Only the object's own dispatcher, if the
        slot holds it, can change; a dispatcher inherited from a prototype
        is left alone. */
    method Aspect(target: Target, name: string, a: Advice) returns (d: Dispatcher, h: Handle)
      requires Inv() && target.LineageOk() && Seen(target.Lookup(name))
      modifies this, target, OwnDispatcher(target.Lookup(name), target)
      ensures Inv() && d in Installed && h.d == d
      ensures target.Lookup(name) == Some(Disp(d)) && d.owner == target
      ensures Attached(d, h, a)
      ensures a.AroundAdvice? ==> h.AroundHandle? && nextId == old(nextId)
      ensures !a.AroundAdvice? ==> h == AdvisorHandle(d, old(nextId)) && nextId == old(nextId) + 1
      ensures var existing := old(target.Lookup(name));
              if existing.Some? && existing.value.Disp? && existing.value.d.owner == target then
                d == existing.value.d && Installed == old(Installed) && target.own == old(target.own) &&
                Advised(d, h, a, old(existing.value.d.around), old(existing.value.d.Before), old(existing.value.d.After))
              else
                fresh(d) && d.original == existing && Installed == old(Installed) + {d} &&
                target.own == old(target.own)[name := Disp(d)] && Advised(d, h, a, [], [], [])
    {
      d := Install(target, name);
      h := Advise(d, a);
    }

    /** The `remove` of a signal. An around signal sets `cancelled`. An
        advisor signal does its work only while its `advice` field is set:
        it nulls the field and unlinks the advisor, so a second `remove`
        changes nothing. */
    method Remove(h: Handle)
      requires Inv() && h.d in Installed
      requires h.AdvisorHandle? ==> h.id in h.d.advice
      modifies h.d, if h.AroundHandle? then {h.layer} else {}
      ensures Inv() && Installed == old(Installed) && nextId == old(nextId)
      ensures h.AroundHandle? ==> h.layer.cancelled && unchanged(h.d)
      ensures h.AdvisorHandle? ==>
                h.d.cleared == old(h.d.cleared) + {h.id} && h.d.around == old(h.d.around) && h.d.advice == old(h.d.advice) &&
                h.d.owner == old(h.d.owner) && h.d.tag == old(h.d.tag)
      ensures h.AdvisorHandle? && h.id in old(h.d.cleared) ==> unchanged(h.d)
      ensures h.AdvisorHandle? && h.id !in old(h.d.cleared) ==>
                h.d.State() == Unlinked(old(h.d.State()), h.id) &&
                h.d.Before == Erase(old(h.d.Before), h.id) && h.d.After == Erase(old(h.d.After), h.id)
    {
      match h
      case AroundHandle(_, layer) =>
        layer.cancelled := true;
      case AdvisorHandle(d, id) =>
        if id !in d.cleared {
          Detach(d, id);
        }
    }

    /** Calling `remove` on each of `hs`, in order. Once the handles cover
        every advisor and every around layer of `d`, the state is the one
        `AllRemovedRestores` speaks of: every advisor marked removed and
        every layer cancelled. */
    method RemoveAll(d: Dispatcher, hs: seq<Handle>)
      requires Inv() && d in Installed
      requires forall h <- hs :: h.d == d && (h.AdvisorHandle? ==> h.id in d.advice)
      modifies d, LayersOf(hs)
      ensures Inv() && Installed == old(Installed) && nextId == old(nextId)
      ensures d.advice == old(d.advice) && d.around == old(d.around) && d.owner == old(d.owner) && d.tag == old(d.tag)
      ensures d.cleared == old(d.cleared) + AdvisorIds(hs) && forall l <- LayersOf(hs) :: l.cancelled
      ensures forall h <- hs :: (h.AdvisorHandle? ==> h.id in d.cleared) && (h.AroundHandle? ==> h.layer.cancelled)
      ensures (forall k <- d.advice :: AdvisorHandle(d, k) in hs) ==> d.advice.Keys <= d.cleared
      ensures (forall i | 0 <= i < |d.around| :: AroundHandle(d, d.around[i]) in hs) ==>
                forall i | 0 <= i < |d.around| :: d.around[i].cancelled
    {
      RemoveEach(d, hs);
      RemovedCovers(d, hs);
    }

    /** `remove` on each handle in turn: each handle's advisor is marked
        and each handle's layer cancelled, and nothing else is. */
    method RemoveEach(d: Dispatcher, hs: seq<Handle>)
      requires Inv() && d in Installed
      requires forall h <- hs :: h.d == d && (h.AdvisorHandle? ==> h.id in d.advice)
      modifies d, LayersOf(hs)
      ensures Inv() && Installed == old(Installed) && nextId == old(nextId)
      ensures d.advice == old(d.advice) && d.around == old(d.around) && d.owner == old(d.owner) && d.tag == old(d.tag)
      ensures d.cleared == old(d.cleared) + AdvisorIds(hs) && forall l <- LayersOf(hs) :: l.cancelled
      decreases |hs|
    {
      if hs == [] {
        return;
      }
      assert hs[0] in hs;
      RemoveOne(d, hs[0]);
      RemoveEach(d, hs[1..]);
      HandlesCons(hs);
    }

    /** One step of `RemoveAll`: `Remove`, seen only for what it marks. */
    method RemoveOne(d: Dispatcher, h: Handle)
      requires Inv() && d in Installed && h.d == d
      requires h.AdvisorHandle? ==> h.id in d.advice
      modifies d, if h.AroundHandle? then {h.layer} else {}
      ensures Inv() && Installed == old(Installed) && nextId == old(nextId)
      ensures d.advice == old(d.advice) && d.around == old(d.around) && d.owner == old(d.owner) && d.tag == old(d.tag)
      ensures d.cleared == old(d.cleared) + (if h.AdvisorHandle? then {h.id} else {})
      ensures (h.AdvisorHandle? ==> h.id in d.cleared) && (h.AroundHandle? ==> h.layer.cancelled)
    {
      Remove(h);
    }

    /** The body of an advisor's `remove` behind its `advice` guard. */
    method Detach(d: Dispatcher, id: nat)
      requires Inv() && d in Installed && id in d.advice && id !in d.cleared
      modifies d
      ensures Inv()
      ensures d.State() == Unlinked(old(d.State()), id) && d.cleared == old(d.cleared) + {id}
      ensures d.Before == Erase(old(d.Before), id) && d.After == Erase(old(d.After), id)
      ensures d.around == old(d.around) && d.owner == old(d.owner) && d.tag == old(d.tag)
    {
      assert Ready(d, nextId);
      KeptUnlink(d.State(), d.Before, d.After, d.cleared, id, nextId);
      d.Clear(id);
      var slotDeleted := d.Unlink(id);
      assert Ready(d, nextId);
      forall x <- Installed
        ensures Ready(x, nextId) && forall y <- x.Lower :: y in Installed
      {
        if x != d {
          assert old(Ready(x, nextId));
        }
      }
    }

    /** Calling `target[methodName](...args)`. A dispatcher snapshots
        `nextId` on entry; with nothing attached during the call, every
        advisor it has runs: the before chain newest first, then, unless
        the around phase threw, the after chain oldest first. */
    method CallMethod(target: Target, name: string, args: Args) returns (o: Outcome, ran: seq<nat>)
      requires Inv() && target.LineageOk() && Seen(target.Lookup(name))
      ensures var c := target.Lookup(name);
              if c.None? then o == Threw(NotCallable) && ran == []
              else if c.value.Plain? then o == Returned(c.value.f.body(args)) && ran == []
              else
                c.value.d.DeepSound() && o == c.value.d.Apply(args, nextId) &&
                ran == c.value.d.Before + (if o.Threw? then [] else c.value.d.After)
    {
      var existing := target.Lookup(name);
      match existing
      case None =>
        o, ran := Threw(NotCallable), [];
      case Some(Plain(f)) =>
        o, ran := Returned(f.body(args)), [];
      case Some(Disp(d)) =>
        CanCall(d);
        assert Ready(d, nextId);
        WfReach(d.State(), d.Before, d.After);
        RunnableAll(d.After, nextId);
        o, ran := d.Call(args, nextId);
    }

    /** A call of dispatcher `d` during which before or around advice
        attaches the after advice `late`. The entry snapshot `executionId`
        keeps the new advisors out of this call: the after phase runs
        exactly the after chain the call started with. */
    method CallAttaching(d: Dispatcher, args: Args, late: seq<Advice>) returns (o: Outcome, ran: seq<nat>)
      requires Inv() && d in Installed && forall a <- late :: a.IsAfter()
      modifies this, d
      ensures d.around == old(d.around) && d.owner == old(d.owner) && d.tag == old(d.tag)
      ensures Inv() && Installed == old(Installed) && nextId == old(nextId) + |late|
      ensures d.After == old(d.After) + IdsFrom(old(nextId), |late|) && d.Before == old(d.Before)
      ensures ran == old(d.Before) + (if o.Threw? then [] else old(d.After))
      ensures old(d.DeepSound()) && o == old(d.Apply(args, nextId))
    {
      ghost var expected := d.Apply(args, nextId);
      ghost var advice0 := d.advice;
      var executionId := nextId;
      var a, ranBefore, mid := RunEntry(d, args, executionId);
      RunnableAll(d.After, executionId);
      assert expected == if mid.Threw? then mid else Returned(FoldAfter(advice0, d.After, mid.value, a));
      AttachAll(d, late);
      o, ran := mid, ranBefore;
      if !mid.Threw? {
        var results, ranAfter := RunAfterSnapshot(d, a, mid.value, executionId, old(d.After), |late|);
        FoldAfterFrame(advice0, d.advice, old(d.After), mid.value, a);
        o, ran := Returned(results), ranBefore + ranAfter;
      }
    }

    /** The before and around phases of a call of `d`. */
    method RunEntry(d: Dispatcher, args: Args, bound: nat) returns (a: Args, ran: seq<nat>, mid: Outcome)
      requires Inv() && d in Installed
      ensures ran == d.Before && a == ThreadBefore(d.advice, d.Before, args)
      ensures forall x <- d.After :: x < nextId && x in d.advice
      ensures d.DeepSound() && d.BeforeRun() == d.Before && d.AfterRun() == d.After
      ensures mid == if |d.around| > 0 || d.original.Some? then d.Invoke(0, a, bound) else Returned(Undefined)
    {
      CanCall(d);
      assert Ready(d, nextId);
      WfReach(d.State(), d.Before, d.After);
      a, ran := d.RunBefore(args);
      mid := Returned(Undefined);
      if |d.around| > 0 || d.original.Some? {
        mid := d.RunAround(0, a, bound);
      }
    }

    /** The after phase bounded by the entry snapshot `executionId`, when
        the advisors `A0` the call started with were followed by `k` more
        attached during the call: only `A0` runs. */
    method RunAfterSnapshot(d: Dispatcher, a: Args, results: Value, executionId: nat, ghost A0: seq<nat>, k: nat)
        returns (r: Value, ran: seq<nat>)
      requires Inv() && d in Installed
      requires d.After == A0 + IdsFrom(executionId, k) && forall x <- A0 :: x < executionId
      ensures ran == A0 && r == FoldAfter(d.advice, A0, results, a)
    {
      CanCall(d);
      assert Ready(d, nextId);
      WfReach(d.State(), d.Before, d.After);
      RunnableAppend(A0, IdsFrom(executionId, k), executionId);
      r, ran := d.RunAfter(a, results, executionId);
    }

    /** Attach the after advice `late` to `d`, one `advise` each, in
        order. */
    method AttachAll(d: Dispatcher, late: seq<Advice>)
      requires Inv() && d in Installed && forall a <- late :: a.IsAfter()
      modifies this, d
      ensures d.around == old(d.around) && d.owner == old(d.owner) && d.tag == old(d.tag)
      ensures Inv() && Installed == old(Installed) && nextId == old(nextId) + |late|
      ensures d.After == old(d.After) + IdsFrom(old(nextId), |late|) && d.Before == old(d.Before)
      ensures Extends(old(d.advice), d.advice)
      decreases |late|
    {
      if late == [] {
        return;
      }
      var n := |late| - 1;
      AttachAll(d, late[..n]);
      ghost var prefix := d.After;
      var id := AdviseAfter(d, late[n]);
      IdsFromNext(old(d.After), old(nextId), n, prefix, id);
    }

    /** `advise(d, 'after', a)`, as `AttachAll` uses it. */
    method AdviseAfter(d: Dispatcher, a: Advice) returns (id: nat)
      requires Inv() && d in Installed && a.IsAfter()
      modifies this, d
      ensures d.around == old(d.around) && d.owner == old(d.owner) && d.tag == old(d.tag)
      ensures Inv() && Installed == old(Installed) && id == old(nextId) && nextId == id + 1
      ensures d.After == old(d.After) + [id] && d.Before == old(d.Before)
      ensures id !in old(d.advice) && d.advice == old(d.advice)[id := a]
    {
      assert Ready(d, nextId);
      id := TakeId();
      AttachAfter(d, id, a);
      assert d.advice == d.State().advice;
    }
  }
}
