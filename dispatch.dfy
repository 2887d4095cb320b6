/** The advice dispatcher shared by both variants of the library: the
    advisor objects and their two chains, the around layers, the dispatcher
    that replaces a method, and the object whose method slot it occupies.
    The linking code (insert at the head, append at the tail, unlink) is
    written identically in src/aop.js and src/underscore-aop.js, so it is
    modelled once here; what differs between the two lives in the Aop and
    UnderscoreAop modules. */
module Dispatching {
  import opened Values

  /** A function that was never advised. `tag` is its `_uaopId`; 0 stands
      for both "absent" and the falsy tag 0. */
  class Func {
    const body: Args -> Value
    var tag: nat

    constructor (body: Args -> Value)
      ensures this.body == body && tag == 0
    {
      this.body := body;
      tag := 0;
    }
  }

  /** What a method slot can hold: a plain function or a dispatcher. */
  datatype Callable = Plain(f: Func) | Disp(d: Dispatcher)

  /** An object with method slots. `own` are its own slots; `proto` is the
      object it inherits the others from. */
  class Target {
    var own: map<string, Callable>
    const proto: Target?
    /** This object and those it inherits from. */
    ghost const Lineage: set<Target>
    ghost const depth: nat

    ghost predicate LineageOk()
      decreases depth
    {
      this in Lineage &&
      (proto != null ==> proto.depth < depth && proto.Lineage <= Lineage && proto.LineageOk())
    }

    constructor (proto: Target?)
      requires proto != null ==> proto.LineageOk()
      ensures LineageOk() && this.proto == proto && own == map[]
    {
      this.proto := proto;
      Lineage := {this} + (if proto == null then {} else proto.Lineage);
      depth := if proto == null then 0 else proto.depth + 1;
      own := map[];
    }

    /** `target[methodName]`: the own slot, else the inherited one. */
    function Lookup(name: string): (r: Option<Callable>)
      requires LineageOk()
      reads Lineage
      ensures name in own ==> r == Some(own[name])
      decreases depth
    {
      if name in own then Some(own[name])
      else if proto == null then None
      else proto.Lookup(name)
    }

    /** What `target[methodName]` finds is the own slot of an object on the
        prototype chain. */
    lemma {:induction false} LookupFound(name: string)
      requires LineageOk()
      ensures Lookup(name).Some? ==>
                exists t :: t in Lineage && name in t.own && t.own[name] == Lookup(name).value
      decreases depth
    {
      if name !in own && proto != null {
        proto.LookupFound(name);
      }
    }
  }

  /** The linking state of a dispatcher: the heads of its before and after
      chains (`dispatcher.before`, `dispatcher.after`) and the fields of its
      advisor objects ("signals"), each a table keyed by the advisor's id:
      its advice and the ids of its `previous` and `next` neighbours. */
  datatype Links = Links(
    before: Option<nat>,
    after: Option<nat>,
    advice: map<nat, Advice>,
    prev: map<nat, Option<nat>>,
    next: map<nat, Option<nat>>)
  {
    /** `dispatcher[type]` for the before (true) or after (false) phase. */
    function Slot(isBefore: bool): Option<nat> {
      if isBefore then before else after
    }

    /** `dispatcher[type] = v`, or `delete dispatcher[type]` for None. */
    function WithSlot(isBefore: bool, v: Option<nat>): (r: Links)
      ensures r.Slot(isBefore) == v && r.Slot(!isBefore) == Slot(!isBefore)
      ensures r.advice == advice && r.prev == prev && r.next == next
    {
      if isBefore then this.(before := v) else this.(after := v)
    }

    /** `v` is absent or names an advisor of this dispatcher. */
    predicate Known(v: Option<nat>) {
      v.None? || (v.value in advice && v.value in prev && v.value in next)
    }

    /** `v` is absent or names an advisor of the before (true) or after
        (false) phase. */
    predicate Heads(v: Option<nat>, isBefore: bool) {
      Known(v) && (v.Some? ==> advice[v.value].IsBefore() == isBefore)
    }

    /** `v` is absent or names an advisor of `k`'s phase that lies behind
        `k` (forward) or in front of it (not forward) in that phase's
        order: before advisors run newest first, after advisors oldest
        first. */
    predicate Follows(v: Option<nat>, k: nat, forward: bool)
      requires k in advice
    {
      Known(v) &&
      (v.Some? ==>
         advice[v.value].IsBefore() == advice[k].IsBefore() &&
         if advice[k].IsBefore() == forward then v.value < k else v.value > k)
    }

    /** Every link leads to an advisor of the same phase, in that phase's
        order. This holds whatever order handles are removed in, stale ones
        included, and it is what makes every walk along `next` end. */
    predicate Closed() {
      Heads(before, true) && Heads(after, false) &&
      forall k <- advice :: k in prev && k in next && Follows(prev[k], k, false) && Follows(next[k], k, true)
    }
  }

  /** `s` is the chain of `L` that starts at `start` and whose first advisor
      points back to `pred`: each advisor's `next` is the one after it (none
      after the last) and its `previous` the one before it. */
  ghost predicate Chain(L: Links, pred: Option<nat>, start: Option<nat>, s: seq<nat>)
    decreases |s|
  {
    if s == [] then start == None
    else
      start == Some(s[0]) && s[0] in L.prev && s[0] in L.next && L.prev[s[0]] == pred &&
      Chain(L, Some(s[0]), L.next[s[0]], s[1..])
  }

  /** Ids along `s` strictly decrease (the before chain: newest first) or
      strictly increase (the after chain: oldest first). */
  ghost predicate Ordered(s: seq<nat>, isBefore: bool) {
    |s| < 2 || ((if isBefore then s[0] > s[1] else s[0] < s[1]) && Ordered(s[1..], isBefore))
  }

  /** The linking state is well formed with before chain `B` and after
      chain `A`. */
  ghost predicate Wf(L: Links, B: seq<nat>, A: seq<nat>) {
    match L
    case Links(before, after, advice, _, _) =>
      L.Closed() &&
      (forall k <- B :: k in advice && advice[k].IsBefore()) &&
      (forall k <- A :: k in advice && advice[k].IsAfter()) &&
      Chain(L, None, before, B) && Chain(L, None, after, A) &&
      Ordered(B, true) && Ordered(A, false)
  }

  /** Advisor `k` has the same links in `L` and in `M`. */
  predicate SameLinks(L: Links, M: Links, k: nat) {
    k in L.prev && k in L.next && k in M.prev && k in M.next &&
    M.prev[k] == L.prev[k] && M.next[k] == L.next[k]
  }

  /** In an ordered chain every advisor is newer (before chain) or older
      (after chain) than every advisor behind it. */
  lemma {:induction false} OrderedPairs(s: seq<nat>, isBefore: bool, i: nat, j: nat)
    requires Ordered(s, isBefore) && i < j < |s|
    ensures if isBefore then s[i] > s[j] else s[i] < s[j]
    decreases |s|, j - i
  {
    if i == 0 {
      if j > 1 {
        OrderedPairs(s, isBefore, 1, j);
      }
    } else {
      OrderedPairs(s[1..], isBefore, i - 1, j - 1);
    }
  }

  /** The head of an ordered chain does not occur again behind it. */
  lemma {:induction false} OrderedHeadFresh(s: seq<nat>, isBefore: bool)
    requires Ordered(s, isBefore) && s != []
    ensures s[0] !in s[1..]
  {
    forall j | 0 <= j < |s[1..]|
      ensures s[1..][j] != s[0]
    {
      OrderedPairs(s, isBefore, 0, j + 1);
    }
  }

  /** Taking one advisor out keeps a chain ordered. */
  lemma {:induction false} OrderedWithout(s: seq<nat>, isBefore: bool, k: nat)
    requires Ordered(s, isBefore) && k < |s|
    ensures Ordered(s[..k] + s[k + 1..], isBefore)
  {
    if k == 0 {
      assert s[..0] + s[1..] == s[1..];
    } else {
      var r := s[..k] + s[k + 1..];
      assert r[1..] == s[1..][..k - 1] + s[1..][k..];
      OrderedWithout(s[1..], isBefore, k - 1);
      if |r| >= 2 {
        OrderedPairs(s, isBefore, 0, if k == 1 then 2 else 1);
      }
    }
  }

  /** Appending an advisor newer than the tail keeps the after chain ordered. */
  lemma {:induction false} OrderedSnoc(s: seq<nat>, id: nat)
    requires Ordered(s, false) && (s != [] ==> s[|s| - 1] < id)
    ensures Ordered(s + [id], false)
  {
    if |s| >= 2 {
      assert (s + [id])[1..] == s[1..] + [id];
      OrderedSnoc(s[1..], id);
    }
  }

  /** The advisor at position `k` of a chain is linked to its neighbours. */
  lemma {:induction false} ChainAt(L: Links, pred: Option<nat>, start: Option<nat>, s: seq<nat>, k: nat)
    requires Chain(L, pred, start, s) && k < |s|
    ensures s[k] in L.prev && s[k] in L.next
    ensures L.prev[s[k]] == (if k == 0 then pred else Some(s[k - 1]))
    ensures L.next[s[k]] == (if k == |s| - 1 then None else Some(s[k + 1]))
    decreases k
  {
    if k > 0 {
      ChainAt(L, Some(s[0]), L.next[s[0]], s[1..], k - 1);
    }
  }

  /** A chain whose advisors kept their links in `M` is a chain of `M`. */
  lemma {:induction false} ChainFrame(L: Links, M: Links, pred: Option<nat>, start: Option<nat>, s: seq<nat>)
    requires Chain(L, pred, start, s)
    requires forall k <- s :: SameLinks(L, M, k)
    ensures Chain(M, pred, start, s)
    decreases |s|
  {
    if s != [] {
      assert SameLinks(L, M, s[0]);
      ChainFrame(L, M, Some(s[0]), L.next[s[0]], s[1..]);
    }
  }

  /** Linking `id` behind the tail of an after chain gives a chain that ends
      at `id`. */
  lemma {:induction false} ChainSnoc(L: Links, M: Links, pred: Option<nat>, start: Option<nat>, s: seq<nat>, id: nat)
    requires Chain(L, pred, start, s) && s != [] && Ordered(s, false) && id !in s
    requires forall k <- s :: k != s[|s| - 1] ==> SameLinks(L, M, k)
    requires var last := s[|s| - 1];
             last in L.prev && last in M.prev && last in M.next &&
             M.prev[last] == L.prev[last] && M.next[last] == Some(id)
    requires id in M.prev && id in M.next && M.prev[id] == Some(s[|s| - 1]) && M.next[id] == None
    ensures Chain(M, pred, start, s + [id])
    decreases |s|
  {
    if |s| > 1 {
      OrderedPairs(s, false, 0, |s| - 1);
      assert SameLinks(L, M, s[0]);
      assert s[1..][|s[1..]| - 1] == s[|s| - 1];
      assert (s + [id])[1..] == s[1..] + [id];
      ChainSnoc(L, M, Some(s[0]), L.next[s[0]], s[1..], id);
    }
  }

  /** Unlinking the first advisor of a chain (the slot, or the advisor
      `pred`, now leads to the second one, which points back to `pred`)
      leaves the rest of the chain. */
  lemma {:induction false} ChainEraseHead(L: Links, M: Links, pred: Option<nat>, start: Option<nat>, s: seq<nat>, isBefore: bool)
    requires Chain(L, pred, start, s) && Ordered(s, isBefore) && s != []
    requires forall x <- s :: x != s[0] && (|s| > 1 ==> x != s[1]) ==> SameLinks(L, M, x)
    requires |s| > 1 ==> s[1] in L.next && s[1] in M.prev && s[1] in M.next &&
                         M.next[s[1]] == L.next[s[1]] && M.prev[s[1]] == pred
    ensures Chain(M, pred, if |s| > 1 then Some(s[1]) else None, s[1..])
  {
    if |s| > 1 {
      var r := s[1..];
      assert Chain(L, Some(r[0]), L.next[r[0]], r[1..]);
      OrderedHeadFresh(s, isBefore);
      OrderedHeadFresh(r, isBefore);
      assert forall x <- r[1..] :: x in s && x != s[0] && x != s[1];
      ChainFrame(L, M, Some(r[0]), L.next[r[0]], r[1..]);
    }
  }

  /** `s` without position `k` is its head followed by its tail without
      position `k - 1`. */
  lemma {:induction false} SpliceCons(s: seq<nat>, k: nat)
    requires 0 < k < |s|
    ensures s[..k] + s[k + 1..] == [s[0]] + (s[1..][..k - 1] + s[1..][k..])
  {
    assert s[1..][..k - 1] == s[1..k];
    assert s[1..][k..] == s[k + 1..];
  }

  /** Unlinking the advisor at position `k` (the previous advisor, or the
      slot, now leads to the next one and the next one points back to the
      previous one) leaves the chain without it. */
  lemma {:induction false} ChainErase(L: Links, M: Links, pred: Option<nat>, start: Option<nat>, s: seq<nat>, isBefore: bool, k: nat)
    requires Chain(L, pred, start, s) && Ordered(s, isBefore) && k < |s|
    requires pred.Some? ==> pred.value !in s
    requires var l, f := (if k == 0 then pred else Some(s[k - 1])), (if k + 1 < |s| then Some(s[k + 1]) else None);
             (forall x <- s :: x != s[k] && Some(x) != l && Some(x) != f ==> SameLinks(L, M, x)) &&
             (k > 0 ==> s[k - 1] in L.prev && s[k - 1] in M.prev && s[k - 1] in M.next &&
                        M.prev[s[k - 1]] == L.prev[s[k - 1]] && M.next[s[k - 1]] == f) &&
             (k + 1 < |s| ==> s[k + 1] in L.next && s[k + 1] in M.prev && s[k + 1] in M.next &&
                              M.next[s[k + 1]] == L.next[s[k + 1]] && M.prev[s[k + 1]] == l)
    ensures Chain(M, pred, if k > 0 then start else if k + 1 < |s| then Some(s[k + 1]) else None, s[..k] + s[k + 1..])
    decreases k
  {
    if k == 0 {
      assert s[..0] + s[1..] == s[1..];
      ChainEraseHead(L, M, pred, start, s, isBefore);
    } else {
      var r := s[1..];
      OrderedHeadFresh(s, isBefore);
      assert r[k - 1] == s[k];
      assert k + 1 < |s| ==> r[k] == s[k + 1];
      assert k > 1 ==> r[k - 2] == s[k - 1];
      ChainErase(L, M, Some(s[0]), L.next[s[0]], r, isBefore, k - 1);
      SpliceCons(s, k);
    }
  }

  /** The last id of `s`, or none. */
  function LastOf(s: seq<nat>): (r: Option<nat>)
    ensures r.None? <==> s == []
    ensures r.Some? ==> r.value in s
  {
    if s == [] then None else Some(s[|s| - 1])
  }

  /** `s` with `x` taken out, the other ids in their order. */
  function Erase(s: seq<nat>, x: nat): (r: seq<nat>)
    ensures |r| <= |s|
    ensures forall y :: y in r <==> y in s && y != x
  {
    if s == [] then [] else (if s[0] == x then [] else [s[0]]) + Erase(s[1..], x)
  }

  /** Erasing an id that is not there changes nothing. */
  lemma {:induction false} EraseAbsent(s: seq<nat>, x: nat)
    requires x !in s
    ensures Erase(s, x) == s
  {
    if s != [] {
      EraseAbsent(s[1..], x);
      assert s == [s[0]] + s[1..];
    }
  }

  /** In an ordered chain, whose ids are distinct, erasing the id at `k`
      removes exactly that position. */
  lemma {:induction false} EraseAt(s: seq<nat>, isBefore: bool, k: nat)
    requires Ordered(s, isBefore) && k < |s|
    ensures Erase(s, s[k]) == s[..k] + s[k + 1..]
  {
    if k == 0 {
      OrderedHeadFresh(s, isBefore);
      EraseAbsent(s[1..], s[0]);
    } else {
      OrderedPairs(s, isBefore, 0, k);
      EraseAt(s[1..], isBefore, k - 1);
      SpliceCons(s, k);
    }
  }

  /** The before branch of `advise`: a new advisor object is made, becomes
      the head, gets the old head as its `next`, and the old head points
      back to it. */
  function Prepend(L: Links, id: nat, advice: Advice): (r: Links)
    ensures r.advice == L.advice[id := advice] && r.before == Some(id) && r.after == L.after
    ensures id in r.prev && id in r.next && r.next[id] == L.before && (L.before != Some(id) ==> r.prev[id] == None)
    ensures forall x <- L.advice :: x != id && Some(x) != L.before && x in L.prev && x in L.next ==> SameLinks(L, r, x)
  {
    var made := L.(advice := L.advice[id := advice], prev := L.prev[id := None], next := L.next[id := None]);
    match L.before
    case None => made.(before := Some(id))
    case Some(h) => made.(before := Some(id), next := made.next[id := Some(h)], prev := made.prev[h := Some(id)])
  }

  /** The after branch of `advise`: a new advisor object is made; with no
      after chain it becomes the slot's value, otherwise the tail `last`
      gets it as its `next` and it gets the tail as its `previous`. */
  function Append(L: Links, id: nat, advice: Advice, last: Option<nat>): (r: Links)
    ensures r.advice == L.advice[id := advice] && r.before == L.before
    ensures r.after == (if last.None? then Some(id) else L.after)
    ensures id in r.prev && id in r.next && r.prev[id] == last && (last != Some(id) ==> r.next[id] == None)
    ensures forall x <- L.advice :: x != id && Some(x) != last && x in L.prev && x in L.next ==> SameLinks(L, r, x)
  {
    var made := L.(advice := L.advice[id := advice], prev := L.prev[id := None], next := L.next[id := None]);
    match last
    case None => made.(after := Some(id))
    case Some(p) => made.(next := made.next[p := Some(id)], prev := made.prev[id := Some(p)])
  }

  /** The unlinking part of `remove`: with no neighbour the phase's slot is
      deleted; otherwise the previous advisor's `next` (or, at the head, the
      slot) becomes the next advisor, and the next advisor's `previous`
      becomes the previous one. The advisor's own links stay as they were. */
  function Unlinked(L: Links, id: nat): (r: Links)
    requires id in L.advice && id in L.prev && id in L.next
    ensures r.advice == L.advice
    ensures L.prev[id] != Some(id) && L.next[id] != Some(id) ==> SameLinks(L, r, id)
  {
    var previous, next := L.prev[id], L.next[id];
    if next.None? && previous.None? then
      L.WithSlot(L.advice[id].IsBefore(), None)
    else
      var L1 := Bypassed(L, id);
      if next.Some? then L1.(prev := L1.prev[next.value := previous]) else L1
  }

  /** The first half of unlinking: whatever led forward to `id` (the
      previous advisor's `next`, or the slot) now leads to `id`'s next. */
  function Bypassed(L: Links, id: nat): (r: Links)
    requires id in L.advice && id in L.prev && id in L.next
    ensures r.advice == L.advice && r.prev == L.prev
    ensures r.Slot(!L.advice[id].IsBefore()) == L.Slot(!L.advice[id].IsBefore())
  {
    var previous, next := L.prev[id], L.next[id];
    if previous.Some? then L.(next := L.next[previous.value := next])
    else L.WithSlot(L.advice[id].IsBefore(), next)
  }

  lemma BypassedClosed(L: Links, id: nat)
    requires L.Closed() && id in L.advice
    requires L.prev[id].Some? || L.next[id].Some?
    ensures Bypassed(L, id).Closed() && Bypassed(L, id).advice == L.advice
  {
    var L1 := Bypassed(L, id);
    assert L.Follows(L.prev[id], id, false) && L.Follows(L.next[id], id, true);
    forall k <- L1.advice
      ensures k in L1.prev && k in L1.next && L1.Follows(L1.prev[k], k, false) && L1.Follows(L1.next[k], k, true)
    {
      assert L.Follows(L.prev[k], k, false) && L.Follows(L.next[k], k, true);
    }
  }

  /** Unlinking keeps every advisor and its advice, and keeps every link
      leading to an advisor, whatever state the advisor was in: a stale
      `remove` cannot make a link dangle. */
  lemma UnlinkedClosed(L: Links, id: nat)
    requires L.Closed() && id in L.advice
    ensures Unlinked(L, id).Closed() && Unlinked(L, id).advice == L.advice
  {
    var previous, next := L.prev[id], L.next[id];
    if previous.Some? || next.Some? {
      BypassedClosed(L, id);
      var L1 := Bypassed(L, id);
      assert L.Follows(previous, id, false) && L.Follows(next, id, true);
      if next.Some? {
        var r := L1.(prev := L1.prev[next.value := previous]);
        forall k <- r.advice
          ensures k in r.prev && k in r.next && r.Follows(r.prev[k], k, false) && r.Follows(r.next[k], k, true)
        {
          assert L1.Follows(L1.prev[k], k, false) && L1.Follows(L1.next[k], k, true);
        }
      }
    }
  }

  /** What `Unlinked` changes: the slot of the advisor's phase (only when
      it has no previous advisor), the previous advisor's `next` and the
      next advisor's `previous`; nothing else. */
  lemma UnlinkedEffects(L: Links, id: nat)
    requires L.Closed() && id in L.advice
    ensures var previous, next, r := L.prev[id], L.next[id], Unlinked(L, id);
            var isBefore := L.advice[id].IsBefore();
            r.Slot(!isBefore) == L.Slot(!isBefore) &&
            r.Slot(isBefore) == (if previous.None? then next else L.Slot(isBefore)) &&
            (forall x <- L.advice :: Some(x) != previous && Some(x) != next ==> SameLinks(L, r, x)) &&
            (previous.Some? && previous != next ==>
               r.prev[previous.value] == L.prev[previous.value] && r.next[previous.value] == next) &&
            (next.Some? && previous != next ==>
               r.next[next.value] == L.next[next.value] && r.prev[next.value] == previous)
  {
  }

  /** The advice table `m` keeps every entry of `m0`. */
  ghost predicate Extends(m0: map<nat, Advice>, m: map<nat, Advice>) {
    forall k <- m0 :: k in m && m[k] == m0[k]
  }

  /** Adding an advisor under a new id keeps every entry. */
  lemma ExtendsFresh(m0: map<nat, Advice>, m: map<nat, Advice>, id: nat, a: Advice)
    requires Extends(m0, m) && id !in m
    ensures Extends(m0, m[id := a])
  {
  }

  /** Every advisor id of `L` is below `bound`. */
  ghost predicate IdsBelow(L: Links, bound: nat) {
    forall k <- L.advice :: k < bound
  }

  /** Attaching a before advisor with a fresh id keeps every link pointing
      to an advisor of the same phase, in order. */
  lemma PrependClosed(L: Links, id: nat, advice: Advice)
    requires L.Closed() && IdsBelow(L, id) && advice.IsBefore()
    ensures Prepend(L, id, advice).Closed()
  {
    var r := Prepend(L, id, advice);
    forall k <- r.advice
      ensures k in r.prev && k in r.next && r.Follows(r.prev[k], k, false) && r.Follows(r.next[k], k, true)
    {
      if k != id {
        assert k in L.advice && k < id;
        assert L.Follows(L.prev[k], k, false) && L.Follows(L.next[k], k, true);
      }
    }
  }

  /** Attaching an after advisor with a fresh id behind an after advisor
      `last` (or as the only one) keeps every link pointing to an advisor
      of the same phase, in order. */
  lemma AppendClosed(L: Links, id: nat, advice: Advice, last: Option<nat>)
    requires L.Closed() && IdsBelow(L, id) && advice.IsAfter() && L.Heads(last, false)
    ensures Append(L, id, advice, last).Closed()
  {
    var r := Append(L, id, advice, last);
    forall k <- r.advice
      ensures k in r.prev && k in r.next && r.Follows(r.prev[k], k, false) && r.Follows(r.next[k], k, true)
    {
      if k != id {
        assert k in L.advice && k < id;
        assert L.Follows(L.prev[k], k, false) && L.Follows(L.next[k], k, true);
      }
    }
  }

  /** Attaching a before advisor with a fresh id above every other puts it
      at the head of the before chain, in front of the old chain, and
      leaves the after chain as it was. */
  lemma {:induction false} PrependWf(L: Links, B: seq<nat>, A: seq<nat>, id: nat, advice: Advice)
    requires Wf(L, B, A) && IdsBelow(L, id) && advice.IsBefore()
    ensures Wf(Prepend(L, id, advice), [id] + B, A)
  {
    PrependClosed(L, id, advice);
    PrependChains(L, B, A, id, advice);
    assert Ordered([id] + B, true) by {
      assert ([id] + B)[1..] == B;
    }
  }

  /** The chain part of `PrependWf`. */
  lemma {:induction false} PrependChains(L: Links, B: seq<nat>, A: seq<nat>, id: nat, advice: Advice)
    requires Wf(L, B, A) && IdsBelow(L, id)
    ensures var r := Prepend(L, id, advice);
            Chain(r, None, r.before, [id] + B) && Chain(r, None, r.after, A)
  {
    var r := Prepend(L, id, advice);
    forall x <- A
      ensures SameLinks(L, r, x)
    {
      assert x in L.advice && L.advice[x].IsAfter();
      assert B != [] ==> L.advice[B[0]].IsBefore();
    }
    ChainFrame(L, r, None, L.after, A);
    assert ([id] + B)[1..] == B;
    if B != [] {
      OrderedHeadFresh(B, true);
      forall x <- B[1..]
        ensures SameLinks(L, r, x)
      {
        assert x in B && x in L.advice;
      }
      ChainFrame(L, r, Some(B[0]), L.next[B[0]], B[1..]);
    }
  }

  /** Attaching an after advisor with a fresh id above every other appends
      it at the tail of the after chain, behind the old chain, and leaves
      the before chain as it was. */
  lemma {:induction false} AppendWf(L: Links, B: seq<nat>, A: seq<nat>, id: nat, advice: Advice)
    requires Wf(L, B, A) && IdsBelow(L, id) && advice.IsAfter()
    ensures L.Heads(LastOf(A), false)
    ensures Wf(Append(L, id, advice, LastOf(A)), B, A + [id])
  {
    AppendClosed(L, id, advice, LastOf(A));
    AppendChains(L, B, A, id, advice);
    if A != [] {
      OrderedSnoc(A, id);
    }
  }

  /** The chain part of `AppendWf`. */
  lemma {:induction false} AppendChains(L: Links, B: seq<nat>, A: seq<nat>, id: nat, advice: Advice)
    requires Wf(L, B, A) && IdsBelow(L, id)
    ensures var r := Append(L, id, advice, LastOf(A));
            Chain(r, None, r.before, B) && Chain(r, None, r.after, A + [id])
  {
    var r := Append(L, id, advice, LastOf(A));
    forall x <- B
      ensures SameLinks(L, r, x)
    {
      assert x in L.advice && L.advice[x].IsBefore();
      assert A != [] ==> L.advice[A[|A| - 1]].IsAfter();
    }
    ChainFrame(L, r, None, L.before, B);
    if A == [] {
      assert Chain(r, Some(id), None, []);
    } else {
      forall x <- A | x != A[|A| - 1]
        ensures SameLinks(L, r, x)
      {
        assert x in L.advice;
      }
      ChainSnoc(L, r, None, L.after, A, id);
    }
  }

  /** Attaching a before advisor keeps every state sound, and a well-formed
      one well formed with the advisor at the head of the before chain. */
  lemma PrependCases(L: Links, B: seq<nat>, A: seq<nat>, id: nat, advice: Advice)
    requires L.Closed() && IdsBelow(L, id) && advice.IsBefore()
    ensures Prepend(L, id, advice).Closed()
    ensures Wf(L, B, A) ==> Wf(Prepend(L, id, advice), [id] + B, A)
  {
    PrependClosed(L, id, advice);
    if Wf(L, B, A) {
      PrependWf(L, B, A, id, advice);
    }
  }

  /** Attaching an after advisor behind the end of the walk along the
      after chain keeps every state sound, and a well-formed one well formed
      with the advisor at the tail of the after chain. */
  lemma AppendCases(L: Links, B: seq<nat>, A: seq<nat>, id: nat, advice: Advice)
    requires L.Closed() && IdsBelow(L, id) && advice.IsAfter()
    ensures L.Heads(LastOf(Reach(L, L.after, false)), false)
    ensures Append(L, id, advice, LastOf(Reach(L, L.after, false))).Closed()
    ensures Wf(L, B, A) ==> Wf(Append(L, id, advice, LastOf(Reach(L, L.after, false))), B, A + [id])
  {
    AppendClosed(L, id, advice, LastOf(Reach(L, L.after, false)));
    if Wf(L, B, A) {
      WfReach(L, B, A);
      AppendWf(L, B, A, id, advice);
    }
  }

  /** `AppendCases` and `ReachAppend` together. */
  lemma AppendAll(L: Links, B: seq<nat>, A: seq<nat>, id: nat, advice: Advice)
    requires L.Closed() && IdsBelow(L, id) && advice.IsAfter()
    ensures var M := Append(L, id, advice, LastOf(Reach(L, L.after, false)));
            M.Closed() &&
            Reach(M, M.after, false) == Reach(L, L.after, false) + [id] &&
            Reach(M, M.before, true) == Reach(L, L.before, true) &&
            (Wf(L, B, A) ==> Wf(M, B, A + [id]))
  {
    AppendCases(L, B, A, id, advice);
    ReachAppend(L, id, advice);
  }

  /** Unlinking the advisor at position `k` of its phase's chain `s`
      leaves that chain without it and the other phase's chain as it was. */
  lemma {:induction false} UnlinkChains(L: Links, s: seq<nat>, other: seq<nat>, isBefore: bool, k: nat)
    requires L.Closed() && k < |s| && s[k] in L.advice && L.advice[s[k]].IsBefore() == isBefore
    requires Chain(L, None, L.Slot(isBefore), s) && Ordered(s, isBefore)
    requires Chain(L, None, L.Slot(!isBefore), other)
    requires forall x <- s :: x in L.advice && L.advice[x].IsBefore() == isBefore
    requires forall x <- other :: x in L.advice && L.advice[x].IsBefore() != isBefore
    ensures var r := Unlinked(L, s[k]);
            s[k] !in other &&
            Chain(r, None, r.Slot(!isBefore), other) &&
            Chain(r, None, r.Slot(isBefore), s[..k] + s[k + 1..])
  {
    var id := s[k];
    ChainAt(L, None, L.Slot(isBefore), s, k);
    if k > 0 && k + 1 < |s| {
      OrderedPairs(s, isBefore, k - 1, k + 1);
    }
    UnlinkedEffects(L, id);
    var r := Unlinked(L, id);
    forall x <- other
      ensures SameLinks(L, r, x)
    {
      assert x in L.advice && L.advice[x].IsBefore() != isBefore;
      assert k > 0 ==> s[k - 1] in s && x != s[k - 1];
      assert k + 1 < |s| ==> s[k + 1] in s && x != s[k + 1];
    }
    ChainFrame(L, r, None, L.Slot(!isBefore), other);
    ChainErase(L, r, None, L.Slot(isBefore), s, isBefore, k);
  }

  /** Removing a linked advisor (once) leaves both chains equal to the old
      ones without it, in the same order; when it was the only advisor of
      its phase, that chain is now empty. */
  lemma {:induction false} UnlinkWf(L: Links, B: seq<nat>, A: seq<nat>, id: nat)
    requires Wf(L, B, A) && (id in B || id in A)
    ensures id in L.advice && id in L.prev && id in L.next
    ensures Wf(Unlinked(L, id), Erase(B, id), Erase(A, id))
    ensures if L.advice[id].IsBefore() then Erase(A, id) == A else Erase(B, id) == B
    ensures L.prev[id].None? && L.next[id].None? ==>
              if L.advice[id].IsBefore() then Erase(B, id) == [] else Erase(A, id) == []
  {
    assert id in L.advice;
    var isBefore := L.advice[id].IsBefore();
    var s, other := if isBefore then B else A, if isBefore then A else B;
    assert id in s by {
      if id in A {
        assert L.advice[id].IsAfter();
      }
    }
    var k :| 0 <= k < |s| && s[k] == id;
    UnlinkChains(L, s, other, isBefore, k);
    UnlinkedClosed(L, id);
    EraseAbsent(other, id);
    OrderedWithout(s, isBefore, k);
    EraseAt(s, isBefore, k);
    if L.prev[id].None? && L.next[id].None? {
      ChainAt(L, None, L.Slot(isBefore), s, k);
      assert s[..k] + s[k + 1..] == [];
    }
  }

  /** The lone-advisor branch of `remove` on an advisor that is no longer
      linked (a stale handle): the slot of its phase is deleted, so that
      phase's chain is now empty whatever it held. */
  lemma {:induction false} LoneUnlinkWf(L: Links, B: seq<nat>, A: seq<nat>, id: nat)
    requires Wf(L, B, A) && id in L.advice && L.prev[id].None? && L.next[id].None?
    ensures var isBefore := L.advice[id].IsBefore();
            Wf(Unlinked(L, id), if isBefore then [] else B, if isBefore then A else [])
  {
    var isBefore := L.advice[id].IsBefore();
    ChainFrame(L, Unlinked(L, id), None, L.Slot(!isBefore), if isBefore then A else B);
  }

  /** Both outcomes of `remove` that keep the chains well formed: a linked
      advisor leaves its chain, and a lone stale one empties its phase's
      chain. */
  lemma UnlinkCases(L: Links, B: seq<nat>, A: seq<nat>, id: nat)
    requires L.Closed() && id in L.advice
    ensures Wf(L, B, A) && (id in B || id in A) ==>
              Wf(Unlinked(L, id), Erase(B, id), Erase(A, id)) &&
              (if L.advice[id].IsBefore() then Erase(A, id) == A else Erase(B, id) == B) &&
              (L.prev[id].None? && L.next[id].None? ==>
                 if L.advice[id].IsBefore() then Erase(B, id) == [] else Erase(A, id) == [])
    ensures Wf(L, B, A) && !(id in B || id in A) && L.prev[id].None? && L.next[id].None? ==>
              var isBefore := L.advice[id].IsBefore();
              Wf(Unlinked(L, id), if isBefore then [] else B, if isBefore then A else [])
  {
    if Wf(L, B, A) {
      if id in B || id in A {
        UnlinkWf(L, B, A, id);
      } else if L.prev[id].None? && L.next[id].None? {
        LoneUnlinkWf(L, B, A, id);
      }
    }
  }

  /** An around layer. Its inner delegate is the stack of layers that was
      current when it was attached; removing it only sets `cancelled`. */
  class AroundLayer {
    const advised: Args -> Step
    var cancelled: bool

    constructor (advised: Args -> Step)
      ensures this.advised == advised && !cancelled
    {
      this.advised := advised;
      cancelled := false;
    }
  }

  /** What `advise` returns: the signal whose `remove` undoes it. */
  datatype Handle = AdvisorHandle(d: Dispatcher, id: nat) | AroundHandle(d: Dispatcher, layer: AroundLayer)

  /** The advisors of the phase that lie at or behind `v` in its order. */
  ghost function Span(L: Links, v: Option<nat>, isBefore: bool): set<nat> {
    if v.None? then {}
    else set j | j in L.advice && L.advice[j].IsBefore() == isBefore && (if isBefore then j <= v.value else j >= v.value)
  }

  /** One step along `next` leaves fewer advisors behind. */
  lemma SpanShrinks(L: Links, k: nat, isBefore: bool)
    requires L.Closed() && k in L.advice && L.advice[k].IsBefore() == isBefore
    ensures L.Heads(L.next[k], isBefore)
    ensures Span(L, L.next[k], isBefore) < Span(L, Some(k), isBefore)
  {
    assert L.Follows(L.next[k], k, true);
    assert k in Span(L, Some(k), isBefore);
  }

  /** The advisors a walk along `next` from `start` visits, in order: what
      the dispatcher's loops and the tail walk of `advise` traverse. */
  ghost function Reach(L: Links, start: Option<nat>, isBefore: bool): (r: seq<nat>)
    requires L.Closed() && L.Heads(start, isBefore)
    ensures forall k <- r :: k in L.advice && L.advice[k].IsBefore() == isBefore
    ensures forall k <- r :: k in Span(L, start, isBefore)
    decreases Span(L, start, isBefore)
  {
    if start.None? then []
    else
      SpanShrinks(L, start.value, isBefore);
      [start.value] + Reach(L, L.next[start.value], isBefore)
  }

  /** One step of a walk: the advisor, then the walk from its `next`. */
  lemma ReachStep(L: Links, k: nat, isBefore: bool)
    requires L.Closed() && k in L.advice && L.advice[k].IsBefore() == isBefore
    ensures L.Heads(L.next[k], isBefore)
    ensures Span(L, L.next[k], isBefore) < Span(L, Some(k), isBefore)
    ensures Reach(L, Some(k), isBefore) == [k] + Reach(L, L.next[k], isBefore)
  {
    SpanShrinks(L, k, isBefore);
  }

  /** One step of the before loop: `k` moves from the rest of the walk to
      the advisors that ran. */
  lemma BeforeLoopStep(L: Links, k: nat, ran: seq<nat>, a: Args)
    requires L.Closed() && k in L.advice && L.advice[k].IsBefore()
    ensures L.Heads(L.next[k], true)
    ensures Span(L, L.next[k], true) < Span(L, Some(k), true)
    ensures ran + Reach(L, Some(k), true) == (ran + [k]) + Reach(L, L.next[k], true)
    ensures ThreadBefore(L.advice, Reach(L, Some(k), true), a)
         == ThreadBefore(L.advice, Reach(L, L.next[k], true), BeforeStep(L.advice[k], a))
  {
    ReachStep(L, k, true);
    var s := Reach(L, Some(k), true);
    assert s[0] == k && s[1..] == Reach(L, L.next[k], true);
  }

  /** One step of the after loop, for an advisor below the bound. */
  lemma AfterLoopStep(L: Links, k: nat, ran: seq<nat>, bound: nat)
    requires L.Closed() && k in L.advice && !L.advice[k].IsBefore() && k < bound
    ensures L.Heads(L.next[k], false)
    ensures Span(L, L.next[k], false) < Span(L, Some(k), false)
    ensures ran + Runnable(Reach(L, Some(k), false), bound)
         == (ran + [k]) + Runnable(Reach(L, L.next[k], false), bound)
  {
    ReachStep(L, k, false);
    var s := Reach(L, Some(k), false);
    assert s[0] == k && s[1..] == Reach(L, L.next[k], false);
  }

  /** A walk depends only on the advice and the `next` links of the
      advisors it can reach. */
  lemma ReachFrame(L: Links, M: Links, start: Option<nat>, isBefore: bool)
    requires L.Closed() && M.Closed() && L.Heads(start, isBefore) && M.Heads(start, isBefore)
    requires forall k <- Span(L, start, isBefore) ::
               k in M.advice && M.advice[k] == L.advice[k] && k in M.next && M.next[k] == L.next[k]
    ensures Reach(M, start, isBefore) == Reach(L, start, isBefore)
    decreases Span(L, start, isBefore)
  {
    if start.Some? {
      var s := start.value;
      assert s in Span(L, start, isBefore);
      ReachStep(L, s, isBefore);
      ReachStep(M, s, isBefore);
      ReachFrame(L, M, L.next[s], isBefore);
    }
  }

  /** Whatever state the chains are in, the before branch of `advise`
      puts the new advisor in front of everything a call already ran in
      the before phase, and leaves the after phase as it was. */
  lemma ReachPrepend(L: Links, id: nat, advice: Advice)
    requires L.Closed() && IdsBelow(L, id) && advice.IsBefore()
    ensures Prepend(L, id, advice).Closed()
    ensures Reach(Prepend(L, id, advice), Some(id), true) == [id] + Reach(L, L.before, true)
    ensures Reach(Prepend(L, id, advice), L.after, false) == Reach(L, L.after, false)
  {
    var M := Prepend(L, id, advice);
    PrependClosed(L, id, advice);
    ReachStep(M, id, true);
    ReachFrame(L, M, L.before, true);
    ReachFrame(L, M, L.after, false);
  }

  /** Whatever state the chains are in, the after branch of `advise` puts
      the new advisor behind everything a call already ran in the after
      phase, and leaves the before phase as it was. */
  lemma ReachAppend(L: Links, id: nat, advice: Advice)
    requires L.Closed() && IdsBelow(L, id) && advice.IsAfter()
    ensures var M := Append(L, id, advice, LastOf(Reach(L, L.after, false)));
            M.Closed() &&
            Reach(M, M.after, false) == Reach(L, L.after, false) + [id] &&
            Reach(M, M.before, true) == Reach(L, L.before, true)
  {
    var last := LastOf(Reach(L, L.after, false));
    var M := Append(L, id, advice, last);
    AppendCases(L, [], [], id, advice);
    ReachFrame(L, M, L.before, true);
    if last.None? {
      ReachFirstAfter(L, id, advice);
    } else {
      ReachBehindTail(L, id, advice, last.value);
    }
  }

  /** `ReachAppend` when the walk along the after chain is empty: the
      new advisor becomes the whole after chain. */
  lemma ReachFirstAfter(L: Links, id: nat, advice: Advice)
    requires L.Closed() && IdsBelow(L, id) && advice.IsAfter()
    requires Reach(L, L.after, false) == []
    ensures var M := Append(L, id, advice, None);
            M.Closed() && Reach(M, M.after, false) == [id]
  {
    var M := Append(L, id, advice, None);
    AppendClosed(L, id, advice, None);
    ReachStep(M, id, false);
  }

  /** `ReachAppend` when the walk along the after chain ends at `p`: every
      advisor it visits keeps its links but `p`, which now leads to the new
      advisor. */
  lemma ReachBehindTail(L: Links, id: nat, advice: Advice, p: nat)
    requires L.Closed() && IdsBelow(L, id) && advice.IsAfter()
    requires LastOf(Reach(L, L.after, false)) == Some(p)
    ensures var M := Append(L, id, advice, Some(p));
            M.Closed() && Reach(M, M.after, false) == Reach(L, L.after, false) + [id]
  {
    var M := Append(L, id, advice, Some(p));
    AppendClosed(L, id, advice, Some(p));
    var S := Span(L, L.after, false);
    forall k <- S
      ensures k in L.advice && k in L.next &&
              k in M.advice && M.advice[k] == L.advice[k] && k in M.next && (k != p ==> M.next[k] == L.next[k])
    {
      assert k in L.advice;
    }
    ReachAppendFrom(L, M, S, L.after, id, p);
  }

  /** A walk of two after advisors. */
  lemma ReachPair(M: Links, s: nat, id: nat)
    requires M.Closed() && s in M.advice && !M.advice[s].IsBefore() && M.next[s] == Some(id)
    requires id in M.advice && M.next[id] == None
    ensures Reach(M, Some(s), false) == [s, id]
  {
    ReachStep(M, s, false);
    ReachStep(M, id, false);
  }

  /** A walk from `s` that goes on past `s` ends where the walk from its
      `next` ends. */
  lemma WalkOn(L: Links, s: nat, p: nat)
    requires L.Closed() && s in L.advice && !L.advice[s].IsBefore()
    requires LastOf(Reach(L, Some(s), false)) == Some(p)
    requires Reach(L, L.next[s], false) != []
    ensures L.Heads(L.next[s], false)
    ensures LastOf(Reach(L, L.next[s], false)) == Some(p) && s != p
    ensures Span(L, L.next[s], false) < Span(L, Some(s), false)
  {
    ReachStep(L, s, false);
    var rest := Reach(L, L.next[s], false);
    var walk := Reach(L, Some(s), false);
    assert walk == [s] + rest && walk[|walk| - 1] == rest[|rest| - 1];
    assert p in Span(L, L.next[s], false);
  }

  /** The walk of `ReachAppend` from any advisor of the after chain; `S`
      holds the advisors whose links agree. */
  lemma ReachAppendFrom(L: Links, M: Links, S: set<nat>, start: Option<nat>, id: nat, p: nat)
    requires L.Closed() && M.Closed()
    requires L.Heads(start, false) && M.Heads(start, false)
    requires Span(L, start, false) <= S
    requires forall k <- S :: k in L.advice && k in L.next &&
               k in M.advice && M.advice[k] == L.advice[k] && k in M.next && (k != p ==> M.next[k] == L.next[k])
    requires LastOf(Reach(L, start, false)) == Some(p)
    requires M.next[p] == Some(id) && id in M.advice && M.next[id] == None
    ensures Reach(M, start, false) == Reach(L, start, false) + [id]
    decreases Span(L, start, false)
  {
    var s := start.value;
    ReachStep(L, s, false);
    var rest := Reach(L, L.next[s], false);
    if rest == [] {
      assert s == p;
      ReachPair(M, s, id);
    } else {
      WalkOn(L, s, p);
      ReachStep(M, s, false);
      assert M.next[s] == L.next[s];
      ReachAppendFrom(L, M, S, L.next[s], id, p);
      assert Reach(M, start, false) == [s] + (rest + [id]);
    }
  }

  /** In a well-formed chain the walk along `next` visits exactly the
      chain. */
  lemma {:induction false} ChainReach(L: Links, pred: Option<nat>, start: Option<nat>, s: seq<nat>, isBefore: bool)
    requires L.Closed() && L.Heads(start, isBefore) && Chain(L, pred, start, s)
    ensures Reach(L, start, isBefore) == s
    decreases |s|
  {
    if s != [] {
      SpanShrinks(L, s[0], isBefore);
      ChainReach(L, Some(s[0]), L.next[s[0]], s[1..], isBefore);
    }
  }

  /** In a well-formed state the walks from the two slots visit exactly the
      before chain and the after chain. */
  lemma WfReach(L: Links, B: seq<nat>, A: seq<nat>)
    requires Wf(L, B, A)
    ensures Reach(L, L.before, true) == B && Reach(L, L.after, false) == A
  {
    ChainReach(L, None, L.before, B, true);
    ChainReach(L, None, L.after, A, false);
  }

  /** The arguments after the before advisors `s` have run, head first. */
  function ThreadBefore(advice: map<nat, Advice>, s: seq<nat>, args: Args): (r: Args)
    ensures (forall k <- s :: k in advice ==> !advice[k].BeforeAdvice?) ==> r == args
  {
    if s == [] then args
    else ThreadBefore(advice, s[1..], if s[0] in advice then BeforeStep(advice[s[0]], args) else args)
  }

  /** The result after the after advisors `s` have run, head first. */
  function FoldAfter(advice: map<nat, Advice>, s: seq<nat>, results: Value, args: Args): (r: Value)
    ensures (forall k <- s :: k in advice ==> !advice[k].IsAfter()) ==> r == results
  {
    if s == [] then results
    else FoldAfter(advice, s[1..], if s[0] in advice then AfterStep(advice[s[0]], results, args) else results, args)
  }

  /** The after advisors that run for the id bound `bound`: the traversal
      stops at the first advisor whose id is not below the bound. */
  function Runnable(s: seq<nat>, bound: nat): (r: seq<nat>)
    ensures |r| <= |s| && r == s[..|r|]
    ensures forall k <- r :: k < bound
    ensures |r| < |s| ==> s[|r|] >= bound
  {
    if s == [] || s[0] >= bound then [] else [s[0]] + Runnable(s[1..], bound)
  }

  /** The ids `n`, `n + 1`, ..., `n + k - 1`. */
  function IdsFrom(n: nat, k: nat): (r: seq<nat>)
    ensures |r| == k && forall i :: 0 <= i < k ==> r[i] == n + i
  {
    if k == 0 then [] else IdsFrom(n, k - 1) + [n + k - 1]
  }

  /** Appending id `n + k` behind `A` + the first `k` ids from `n`. */
  lemma IdsFromNext(A: seq<nat>, n: nat, k: nat, prefix: seq<nat>, id: nat)
    requires prefix == A + IdsFrom(n, k) && id == n + k
    ensures prefix + [id] == A + IdsFrom(n, k + 1)
  {
    assert IdsFrom(n, k + 1) == IdsFrom(n, k) + [id];
  }

  /** Folding one more advisor onto a chain is one more after step. */
  lemma {:induction false} FoldAfterSnoc(advice: map<nat, Advice>, s: seq<nat>, x: nat, results: Value, args: Args)
    requires x in advice
    ensures FoldAfter(advice, s + [x], results, args) == AfterStep(advice[x], FoldAfter(advice, s, results, args), args)
  {
    if s != [] {
      assert (s + [x])[1..] == s[1..] + [x];
      FoldAfterSnoc(advice, s[1..], x, if s[0] in advice then AfterStep(advice[s[0]], results, args) else results, args);
    }
  }

  /** Folding `s` then `t` is folding `s + t`: the after loop carries the
      result from one advisor to the next. */
  lemma {:induction false} FoldAfterConcat(advice: map<nat, Advice>, s: seq<nat>, t: seq<nat>, results: Value, args: Args)
    ensures FoldAfter(advice, s + t, results, args) == FoldAfter(advice, t, FoldAfter(advice, s, results, args), args)
  {
    if s != [] {
      assert (s + t)[1..] == s[1..] + t;
      FoldAfterConcat(advice, s[1..], t, if s[0] in advice then AfterStep(advice[s[0]], results, args) else results, args);
    } else {
      assert s + t == t;
    }
  }

  /** The fold over `s` reads only the advice of the advisors in `s`. */
  lemma {:induction false} FoldAfterFrame(advice: map<nat, Advice>, other: map<nat, Advice>, s: seq<nat>, results: Value, args: Args)
    requires forall k <- s :: k in advice && k in other && other[k] == advice[k]
    ensures FoldAfter(other, s, results, args) == FoldAfter(advice, s, results, args)
  {
    if s != [] {
      assert s[0] in s;
      FoldAfterFrame(advice, other, s[1..], AfterStep(advice[s[0]], results, args), args);
    }
  }

  /** The after phase over the chain `s` a call started with followed by
      advisors `t` attached since: the result the call would have had
      without them, folded through `t`. The advice table may have grown
      meanwhile. */
  lemma FoldAfterLate(advice0: map<nat, Advice>, advice: map<nat, Advice>, s: seq<nat>, t: seq<nat>, results: Value, args: Args)
    requires Extends(advice0, advice) && forall k <- s :: k in advice0
    ensures FoldAfter(advice, s + t, results, args) == FoldAfter(advice, t, FoldAfter(advice0, s, results, args), args)
  {
    FoldAfterConcat(advice, s, t, results, args);
    FoldAfterFrame(advice0, advice, s, results, args);
  }

  /** When the first `i` advisors are below the bound, they all run, and the
      rest runs only if the advisor at `i` is below the bound too. */
  lemma {:induction false} RunnablePrefix(s: seq<nat>, i: nat, bound: nat)
    requires i <= |s| && forall j :: 0 <= j < i ==> s[j] < bound
    requires i == |s| || s[i] >= bound
    ensures Runnable(s, bound) == s[..i]
  {
    if i > 0 {
      RunnablePrefix(s[1..], i - 1, bound);
      assert s[1..][..i - 1] == s[1..i];
      assert s[..i] == [s[0]] + s[1..i];
    }
  }

  /** When every id of `s` is below the bound, the whole of `s` runs. */
  lemma RunnableAll(s: seq<nat>, bound: nat)
    requires forall k <- s :: k < bound
    ensures Runnable(s, bound) == s
  {
    assert forall j :: 0 <= j < |s| ==> s[j] in s;
    RunnablePrefix(s, |s|, bound);
    assert s[..|s|] == s;
  }

  /** Advisors appended with ids at or above the bound do not run. */
  lemma RunnableAppend(s: seq<nat>, t: seq<nat>, bound: nat)
    requires forall k <- s :: k < bound
    requires t == [] || t[0] >= bound
    ensures Runnable(s + t, bound) == s
  {
    var u := s + t;
    assert forall j :: 0 <= j < |s| ==> u[j] == s[j] && s[j] in s;
    RunnablePrefix(u, |s|, bound);
    assert u[..|s|] == s;
  }

  /** In a well-formed state a call visits exactly the two chains: the
      before advisors newest first, the after advisors oldest first. */
  lemma WfOrder(L: Links, B: seq<nat>, A: seq<nat>)
    requires Wf(L, B, A)
    ensures Reach(L, L.before, true) == B && Reach(L, L.after, false) == A
    ensures forall i, j :: 0 <= i < j < |B| ==> B[i] > B[j]
    ensures forall i, j :: 0 <= i < j < |A| ==> A[i] < A[j]
  {
    WfReach(L, B, A);
    forall i, j | 0 <= i < j < |B| ensures B[i] > B[j] {
      OrderedPairs(B, true, i, j);
    }
    forall i, j | 0 <= i < j < |A| ensures A[i] < A[j] {
      OrderedPairs(A, false, i, j);
    }
  }

  /** Before advisors whose advice keeps the arguments they are given (a
      falsy return) leave the arguments as they were. */
  lemma {:induction false} ThreadBeforeKeeps(advice: map<nat, Advice>, s: seq<nat>, args: Args)
    requires forall k <- s :: k in advice && BeforeStep(advice[k], args) == args
    ensures ThreadBefore(advice, s, args) == args
  {
    if s != [] {
      assert s[0] in s;
      ThreadBeforeKeeps(advice, s[1..], args);
    }
  }

  /** After advisors registered with `receiveArguments` that return
      `undefined` leave the result as it was. */
  lemma {:induction false} FoldAfterKeeps(advice: map<nat, Advice>, s: seq<nat>, results: Value, args: Args)
    requires forall k <- s :: k in advice && advice[k].AfterReceivingArgs? && advice[k].observe(args) == Undefined
    ensures FoldAfter(advice, s, results, args) == results
  {
    if s != [] {
      assert s[0] in s;
      FoldAfterKeeps(advice, s[1..], results, args);
    }
  }

  /** Cancelled around layers are transparent: invoking the first of a run
      of cancelled layers is invoking the layer below the run. */
  lemma {:induction false} SkipCancelled(d: Dispatcher, i: nat, j: nat, args: Args, bound: nat)
    requires d.DeepSound() && i <= j <= |d.around|
    requires forall k :: i <= k < j ==> d.around[k].cancelled
    ensures d.Invoke(i, args, bound) == d.Invoke(j, args, bound)
    decreases j - i
  {
    if i < j {
      SkipCancelled(d, i + 1, j, args, bound);
    }
  }

  /** Removing advice restores the method: once the dispatcher over
      function `f` has no before or after advisor left to run and every
      around layer is cancelled, a call is a call of `f`. */
  lemma Restored(d: Dispatcher, f: Func, args: Args, bound: nat)
    requires d.DeepSound() && d.original == Some(Plain(f))
    requires d.BeforeRun() == [] && d.AfterRun() == []
    requires forall k :: 0 <= k < |d.around| ==> d.around[k].cancelled
    ensures d.Apply(args, bound) == Returned(f.body(args))
  {
    SkipCancelled(d, 0, |d.around|, args, bound);
  }

  /** The function that replaces an advised method. */
  class Dispatcher {
    /** The function the slot held when this dispatcher was installed; it is
        the innermost around layer. It may be the dispatcher of an object
        this one inherits from. */
    const original: Option<Callable>
    /** How many dispatchers `original` leads through. */
    const level: nat
    ghost const Lower: seq<Dispatcher>

    var before: Option<nat>
    var after: Option<nat>
    /** The fields of this dispatcher's advisor objects, by advisor id. */
    var advice: map<nat, Advice>
    var prev: map<nat, Option<nat>>
    var next: map<nat, Option<nat>>
    /** The advisors whose `advice` field src/aop.js has set to null. */
    var cleared: set<nat>
    /** The around layers, newest first. */
    var around: seq<AroundLayer>
    /** `dispatcher.target`: the object it is installed on (null until set). */
    var owner: Target?
    /** `dispatcher._uaopId` (src/underscore-aop.js only; 0 when unset). */
    var tag: nat

    /** The before chain, newest first, and the after chain, oldest first,
        as long as every handle has been removed at most once. */
    ghost var Before: seq<nat>
    ghost var After: seq<nat>

    ghost predicate Layered()
      decreases level
    {
      if original.Some? && original.value.Disp? then
        var d := original.value.d;
        d.level < level && Lower == [d] + d.Lower && d.Layered()
      else
        Lower == []
    }

    function State(): Links
      reads this`before, this`after, this`advice, this`prev, this`next
    {
      Links(before, after, advice, prev, next)
    }

    /** Every link leads to an advisor of the same phase, in order. */
    ghost predicate Sound()
      reads this
    {
      State().Closed()
    }

    /** The chains are well formed and are `Before` and `After`. */
    ghost predicate Valid()
      reads this
    {
      Wf(State(), Before, After)
    }

    /** This dispatcher and those it leads to through `original` are sound. */
    ghost predicate DeepSound()
      reads this, Lower
    {
      Sound() && Layered() && forall x <- Lower :: x.Sound()
    }

    /** The before advisors a call runs, in order. */
    ghost function BeforeRun(): seq<nat>
      requires Sound()
      reads this
    {
      Reach(State(), before, true)
    }

    /** The after advisors a call visits, in order. */
    ghost function AfterRun(): seq<nat>
      requires Sound()
      reads this
    {
      Reach(State(), after, false)
    }

    constructor (original: Option<Callable>)
      requires original.Some? && original.value.Disp? ==> original.value.d.Layered()
      ensures this.original == original && Layered()
      ensures State() == Links(None, None, map[], map[], map[]) && cleared == {}
      ensures around == [] && owner == null && tag == 0
      ensures Before == [] && After == [] && Valid() && Sound()
    {
      this.original := original;
      level := if original.Some? && original.value.Disp? then original.value.d.level + 1 else 0;
      Lower := if original.Some? && original.value.Disp? then [original.value.d] + original.value.d.Lower else [];
      before, after, advice, prev, next, cleared := None, None, map[], map[], map[], {};
      around, owner, tag := [], null, 0;
      Before, After := [], [];
    }

    /** The before branch of `advise`: the new advisor becomes the head of
        the chain and the old head becomes its `next`. */
    method AddBefore(id: nat, a: Advice)
      requires Sound() && IdsBelow(State(), id) && a.IsBefore()
      modifies this
      ensures State() == Prepend(old(State()), id, a) && Sound()
      ensures BeforeRun() == [id] + old(BeforeRun()) && AfterRun() == old(AfterRun())
      ensures old(Valid()) ==> Valid() && Before == [id] + old(Before) && After == old(After)
      ensures cleared == old(cleared) && around == old(around) && owner == old(owner) && tag == old(tag)
    {
      PrependCases(State(), Before, After, id, a);
      ReachPrepend(State(), id, a);
      LinkBefore(id, a);
      Before := [id] + Before;
    }

    /** The link updates of `AddBefore`. */
    method LinkBefore(id: nat, a: Advice)
      modifies this
      ensures State() == Prepend(old(State()), id, a)
      ensures Before == old(Before) && After == old(After)
      ensures cleared == old(cleared) && around == old(around) && owner == old(owner) && tag == old(tag)
    {
      advice, prev, next := advice[id := a], prev[id := None], next[id := None];
      var previous := before;
      before := Some(id);
      if previous.Some? {
        next := next[id := previous];
        prev := prev[previous.value := Some(id)];
      }
    }

    /** The walk of the after branch of `advise` to the tail of the chain. */
    method Tail() returns (tail: Option<nat>)
      requires Sound()
      ensures tail == LastOf(AfterRun())
    {
      if after.None? {
        return None;
      }
      var last := after.value;
      assert State().Heads(Some(last), false);
      while next[last].Some?
        invariant last in advice && !advice[last].IsBefore()
        invariant LastOf(Reach(State(), Some(last), false)) == LastOf(AfterRun())
        decreases Span(State(), Some(last), false)
      {
        SpanShrinks(State(), last, false);
        last := next[last].value;
      }
      tail := Some(last);
    }

    /** The after branch of `advise`: walk to the tail and append the new
        advisor there. */
    method AddAfter(id: nat, a: Advice)
      requires Sound() && IdsBelow(State(), id) && a.IsAfter()
      modifies this
      ensures State() == Append(old(State()), id, a, LastOf(old(AfterRun()))) && Sound()
      ensures AfterRun() == old(AfterRun()) + [id] && BeforeRun() == old(BeforeRun())
      ensures old(Valid()) ==> Valid() && After == old(After) + [id] && Before == old(Before)
      ensures cleared == old(cleared) && around == old(around) && owner == old(owner) && tag == old(tag)
    {
      AppendAll(State(), Before, After, id, a);
      var last := Tail();
      LinkAfter(id, a, last);
      After := After + [id];
    }

    /** The link updates of `AddAfter`, behind the tail `last`. */
    method LinkAfter(id: nat, a: Advice, last: Option<nat>)
      modifies this
      ensures State() == Append(old(State()), id, a, last)
      ensures Before == old(Before) && After == old(After)
      ensures cleared == old(cleared) && around == old(around) && owner == old(owner) && tag == old(tag)
    {
      advice, prev, next := advice[id := a], prev[id := None], next[id := None];
      if last.Some? {
        next := next[last.value := Some(id)];
        prev := prev[id := last];
      } else {
        after := Some(id);
      }
    }

    /** The around branch of `advise`: the new layer becomes the outermost
        one, with the previous outermost layer as its inner delegate. */
    method AddAround(l: AroundLayer)
      modifies this
      ensures around == [l] + old(around)
      ensures State() == old(State()) && cleared == old(cleared) && Before == old(Before) && After == old(After)
      ensures owner == old(owner) && tag == old(tag)
    {
      around := [l] + around;
    }

    /** `dispatcher._uaopId = t` (src/underscore-aop.js). */
    method SetTag(t: nat)
      modifies this
      ensures tag == t && State() == old(State()) && cleared == old(cleared) && Before == old(Before) && After == old(After)
      ensures around == old(around) && owner == old(owner)
    {
      tag := t;
    }

    /** `dispatcher.target = target`. */
    method SetOwner(target: Target?)
      modifies this
      ensures owner == target && State() == old(State()) && cleared == old(cleared) && Before == old(Before) && After == old(After)
      ensures around == old(around) && tag == old(tag)
    {
      owner := target;
    }

    /** `this.advice = null` in the `remove` of src/aop.js. */
    method Clear(id: nat)
      modifies this
      ensures cleared == old(cleared) + {id}
      ensures State() == old(State()) && Before == old(Before) && After == old(After)
      ensures around == old(around) && owner == old(owner) && tag == old(tag)
    {
      cleared := cleared + {id};
    }

    /** The unlinking part of an advisor's `remove`. A linked advisor leaves
        its chain; a stale one with no neighbours empties its phase's chain;
        a stale one with neighbours rewrites their links, which keeps only
        `Closed`. */
    method Unlink(id: nat) returns (slotDeleted: bool)
      requires Sound() && id in advice
      modifies this
      ensures State() == Unlinked(old(State()), id) && Sound()
      ensures slotDeleted <==> old(prev[id]).None? && old(next[id]).None?
      ensures cleared == old(cleared) && around == old(around) && owner == old(owner) && tag == old(tag)
      ensures old(Valid()) && (id in old(Before) || id in old(After)) ==>
                Valid() && Before == Erase(old(Before), id) && After == Erase(old(After), id)
      ensures old(Valid()) && slotDeleted ==>
                Valid() && (if old(advice[id]).IsBefore() then Before == [] && After == old(After)
                            else After == [] && Before == old(Before))
    {
      ghost var L, B, A := State(), Before, After;
      UnlinkedClosed(L, id);
      slotDeleted := Splice(id);
      UnlinkCases(L, B, A, id);
      if id in B || id in A {
        Before, After := Erase(B, id), Erase(A, id);
      } else if slotDeleted {
        if L.advice[id].IsBefore() {
          Before := [];
        } else {
          After := [];
        }
      }
    }

    /** The link updates of `Unlink`. */
    method Splice(id: nat) returns (slotDeleted: bool)
      requires id in advice && id in prev && id in next
      modifies this
      ensures State() == Unlinked(old(State()), id)
      ensures slotDeleted <==> old(prev[id]).None? && old(next[id]).None?
      ensures Before == old(Before) && After == old(After)
      ensures cleared == old(cleared) && around == old(around) && owner == old(owner) && tag == old(tag)
    {
      var previous := prev[id];
      var following := next[id];
      var isBefore := advice[id].IsBefore();
      if following.None? && previous.None? {
        if isBefore {
          before := None;
        } else {
          after := None;
        }
        slotDeleted := true;
      } else {
        if previous.Some? {
          next := next[previous.value := following];
        } else if isBefore {
          before := following;
        } else {
          after := following;
        }
        if following.Some? {
          prev := prev[following.value := previous];
        }
        slotDeleted := false;
      }
    }

    /** What a call with arguments `args` produces when the after phase
        stops at the first advisor whose id is not below `bound`. */
    ghost function Apply(args: Args, bound: nat): (r: Outcome)
      requires DeepSound()
      reads *
      ensures around == [] && original.None? ==> r.Returned?
      ensures r.Threw? ==> original.None? || original.value.Disp?
      decreases level, |around| + 1
    {
      var a := ThreadBefore(advice, BeforeRun(), args);
      if around == [] && original.None? then
        Returned(FoldAfter(advice, Runnable(AfterRun(), bound), Undefined, a))
      else
        match Invoke(0, a, bound)
        case Threw(e) => Threw(e)
        case Returned(v) => Returned(FoldAfter(advice, Runnable(AfterRun(), bound), v, a))
    }

    /** What around layer `i` produces (layer |around| is `original`). */
    ghost function Invoke(i: nat, args: Args, bound: nat): (r: Outcome)
      requires DeepSound() && i <= |around|
      reads *
      ensures r.Threw? ==> original.None? || original.value.Disp?
      decreases level, |around| - i
    {
      if i == |around| then
        match original
        case None => Threw(NotCallable)
        case Some(Plain(f)) => Returned(f.body(args))
        case Some(Disp(d)) => d.Apply(args, bound)
      else if around[i].cancelled then
        Invoke(i + 1, args, bound)
      else
        match around[i].advised(args)
        case Return(v) => Returned(v)
        case Delegate(inner, andThen) =>
          match Invoke(i + 1, inner, bound)
          case Threw(e) => Threw(e)
          case Returned(v) => Returned(andThen(v))
    }

    /** The before phase: thread the arguments through the chain. `ran` is
        the ids of the advisors that ran, in order. */
    method RunBefore(args: Args) returns (a: Args, ran: seq<nat>)
      requires Sound()
      ensures a == ThreadBefore(advice, BeforeRun(), args)
      ensures ran == BeforeRun()
    {
      a, ran := args, [];
      ghost var L := State();
      var cur: Option<nat> := before;
      while cur.Some?
        invariant L.Heads(cur, true)
        invariant ThreadBefore(advice, Reach(L, cur, true), a) == ThreadBefore(advice, BeforeRun(), args)
        invariant ran + Reach(L, cur, true) == BeforeRun()
        decreases Span(L, cur, true)
      {
        BeforeLoopStep(L, cur.value, ran, a);
        a := BeforeStep(advice[cur.value], a);
        ran := ran + [cur.value];
        cur := next[cur.value];
      }
    }

    /** The after phase: fold the result through the chain, stopping at the
        first advisor whose id is not below `bound`. */
    method RunAfter(args: Args, results: Value, bound: nat) returns (r: Value, ran: seq<nat>)
      requires Sound()
      ensures r == FoldAfter(advice, Runnable(AfterRun(), bound), results, args)
      ensures ran == Runnable(AfterRun(), bound)
    {
      r, ran := results, [];
      ghost var L := State();
      var cur: Option<nat> := after;
      while cur.Some? && cur.value < bound
        invariant L.Heads(cur, false)
        invariant Runnable(AfterRun(), bound) == ran + Runnable(Reach(L, cur, false), bound)
        invariant r == FoldAfter(advice, ran, results, args)
        decreases Span(L, cur, false)
      {
        AfterLoopStep(L, cur.value, ran, bound);
        FoldAfterSnoc(advice, ran, cur.value, results, args);
        r := AfterStep(advice[cur.value], r, args);
        ran := ran + [cur.value];
        cur := next[cur.value];
      }
      assert ran + [] == ran;
    }

    /** Invoke around layer `i`: a cancelled layer forwards to the layer
        below it, an active one runs its advised function with the layer
        below as its inner delegate. */
    method RunAround(i: nat, args: Args, bound: nat) returns (o: Outcome)
      requires DeepSound() && i <= |around|
      ensures o == Invoke(i, args, bound)
      decreases level, |around| - i
    {
      if i == |around| {
        match original
        case None =>
          o := Threw(NotCallable);
        case Some(Plain(f)) =>
          o := Returned(f.body(args));
        case Some(Disp(d)) =>
          var ran;
          o, ran := d.Call(args, bound);
      } else if around[i].cancelled {
        o := RunAround(i + 1, args, bound);
      } else {
        match around[i].advised(args)
        case Return(v) =>
          o := Returned(v);
        case Delegate(inner, andThen) =>
          var res := RunAround(i + 1, inner, bound);
          o := if res.Threw? then res else Returned(andThen(res.value));
      }
    }

    /** The installed dispatcher function. `ran` is the trace of advisor ids
        that ran: every before advisor head first, then, unless the around
        phase threw, the after advisors up to the first one not below the
        bound. */
    method Call(args: Args, bound: nat) returns (o: Outcome, ran: seq<nat>)
      requires DeepSound()
      ensures o == Apply(args, bound)
      ensures ran == BeforeRun() + (if o.Threw? then [] else Runnable(AfterRun(), bound))
      decreases level, |around| + 1
    {
      var a, ranBefore := RunBefore(args);
      var results := Undefined;
      if |around| > 0 || original.Some? {
        var mid := RunAround(0, a, bound);
        if mid.Threw? {
          return mid, ranBefore;
        }
        results := mid.value;
      }
      var r, ranAfter := RunAfter(a, results, bound);
      o, ran := Returned(r), ranBefore + ranAfter;
    }
  }
}
