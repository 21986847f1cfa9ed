/**
 The registry of holding-bridge wrappers. Channels that wait under one name share a
 reference-counted wrapper; the last one to leave takes it out of the container.
 Finding or creating a wrapper happens under the container lock; leaving reads the
 count and unlinks under the lock, but drops its own reference outside it.
 */
module BridgeWait {
  import opened Options

  /** A wrapper ever created. `destroyed` counts runs of its destructor, which destroys the bridge. */
  datatype Wrapper = Wrapper(name: string, refs: int, linked: bool, destroyed: nat)

  type User = nat

  /** Where a channel is between obtaining wrapper `w` and having dropped it. */
  datatype Phase = Waiting(w: nat)   // has the wrapper, in the bridge
                 | Checking(w: nat)  // holds the lock, about to read the count
                 | Culling(w: nat)   // holds the lock, read a count of two
                 | Unlocking(w: nat) // holds the lock, done
                 | Leaving(w: nat)   // lock released, reference not yet dropped

  datatype Registry = Registry(wrappers: seq<Wrapper>, users: map<User, Phase>, lock: Option<User>)

  const EMPTY: Registry := Registry([], map[], None)

  /** What creating a new wrapper meets. */
  datatype Creation = Created | NoBridge | NoMemory | NotLinked

  datatype Step = Get(u: User, name: string, creation: Creation)
                | Lock(u: User) | Read(u: User) | Unlink(u: User) | Unlock(u: User) | Drop(u: User)

  /** The container's lookup among linked wrappers. */
  function Find(ws: seq<Wrapper>, name: string): (r: Option<nat>)
    ensures r.Some? ==> r.value < |ws| && ws[r.value].linked && ws[r.value].name == name
    ensures r.None? ==> forall i :: 0 <= i < |ws| && ws[i].linked ==> ws[i].name != name
  {
    if ws == [] then None
    else if ws[|ws| - 1].linked && ws[|ws| - 1].name == name then Some(|ws| - 1)
    else Find(ws[..|ws| - 1], name)
  }

  predicate Enabled(r: Registry, s: Step) {
    match s
    case Get(u, _, _) => u !in r.users && r.lock == None
    case Lock(u) => u in r.users && r.users[u].Waiting? && r.lock == None && r.users[u].w < |r.wrappers|
    case Read(u) => u in r.users && r.users[u].Checking? && r.users[u].w < |r.wrappers|
    case Unlink(u) => u in r.users && r.users[u].Culling? && r.users[u].w < |r.wrappers|
    case Unlock(u) => u in r.users && r.users[u].Unlocking?
    case Drop(u) => u in r.users && r.users[u].Leaving? && r.users[u].w < |r.wrappers|
  }

  function SetRefs(r: Registry, w: nat, refs: int): Registry
    requires w < |r.wrappers|
  {
    r.(wrappers := r.wrappers[w := r.wrappers[w].(refs := refs)])
  }

  function AtPhase(r: Registry, u: User, p: Phase): Registry {
    r.(users := r.users[u := p])
  }

  function Joined(r: Registry, u: User, w: nat): Registry
    requires w < |r.wrappers|
  {
    AtPhase(SetRefs(r, w, r.wrappers[w].refs + 1), u, Waiting(w))
  }

  /** A name without a wrapper: one is created, unless the bridge, its memory or the link fails. */
  function Create(r: Registry, u: User, name: string, c: Creation): Registry {
    match c
    case Created =>
      AtPhase(r.(wrappers := r.wrappers + [Wrapper(name, 2, true, 0)]), u, Waiting(|r.wrappers|))
    case NotLinked => r.(wrappers := r.wrappers + [Wrapper(name, 0, false, 1)])
    case _ => r
  }

  function Dropped(r: Registry, w: nat): Registry
    requires w < |r.wrappers|
  {
    var x := r.wrappers[w];
    var y := x.(refs := x.refs - 1);
    r.(wrappers := r.wrappers[w := if y.refs == 0 then y.(destroyed := y.destroyed + 1) else y])
  }

  /** The steps that act on a wrapper already held or already in the container. */
  function Leave(r: Registry, s: Step): Registry
    requires Enabled(r, s) && !s.Get?
  {
    var w := r.users[s.u].w;
    match s
    case Lock(u) => AtPhase(r, u, Checking(w)).(lock := Some(u))
    case Read(u) => AtPhase(r, u, if r.wrappers[w].refs == 2 then Culling(w) else Unlocking(w))
    case Unlink(u) =>
      var x := r.wrappers[w];
      var y := if x.linked then x.(linked := false, refs := x.refs - 1) else x;
      AtPhase(r.(wrappers := r.wrappers[w := y]), u, Unlocking(w))
    case Unlock(u) => AtPhase(r, u, Leaving(w)).(lock := None)
    case Drop(u) => Dropped(r, w).(users := r.users - {u})
  }

  function Apply(r: Registry, s: Step): Registry
    requires Enabled(r, s)
  {
    if s.Get? then
      var found := Find(r.wrappers, s.name);
      if found.Some? then Joined(r, s.u, found.value) else Create(r, s.u, s.name, s.creation)
    else Leave(r, s)
  }

  // ---- The invariant ---------------------------------------------------------

  function Holders(users: map<User, Phase>, w: nat): set<User> {
    set u | u in users && users[u].w == w
  }

  predicate HasLock(p: Phase) {
    p.Checking? || p.Culling? || p.Unlocking?
  }

  /** Has not yet read the count, so still relies on the container. */
  predicate Counted(p: Phase) {
    p.Waiting? || p.Checking? || p.Culling?
  }

  predicate CountOk(r: Registry, w: nat)
    requires w < |r.wrappers|
  {
    var x := r.wrappers[w];
    && x.refs == (if x.linked then 1 else 0) + |Holders(r.users, w)|
    && x.destroyed == if x.refs == 0 then 1 else 0
  }

  /** No name has two wrappers in the container. */
  predicate UniqueNames(ws: seq<Wrapper>) {
    forall v, w :: 0 <= v < w < |ws| && ws[v].linked && ws[w].linked ==> ws[v].name != ws[w].name
  }

  ghost predicate Inv(r: Registry) {
    && (forall w :: 0 <= w < |r.wrappers| ==> CountOk(r, w))
    && UniqueNames(r.wrappers)
    && (forall u :: u in r.users ==> UserOk(r, u))
  }

  ghost predicate UserOk(r: Registry, u: User)
    requires u in r.users
  {
    var p := r.users[u];
    && p.w < |r.wrappers|
    && (HasLock(p) <==> r.lock == Some(u))
    && (Counted(p) ==> r.wrappers[p.w].linked)
    && (p.Culling? ==> Holders(r.users, p.w) == {u})
  }

  /** Moving one user changes only the holder sets of the wrappers it leaves and enters. */
  lemma HoldersAfter(users: map<User, Phase>, u: User, p: Phase, w: nat)
    ensures Holders(users[u := p], w) == if p.w == w then Holders(users, w) + {u} else Holders(users, w) - {u}
    ensures Holders(users - {u}, w) == Holders(users, w) - {u}
  {
  }

  lemma JoinKeepsInv(r: Registry, u: User, w0: nat)
    requires Inv(r) && u !in r.users && r.lock == None && w0 < |r.wrappers| && r.wrappers[w0].linked
    ensures Inv(Joined(r, u, w0))
  {
    var r' := Joined(r, u, w0);
    forall w | 0 <= w < |r'.wrappers| ensures CountOk(r', w) {
      assert CountOk(r, w);
      HoldersAfter(r.users, u, Waiting(w0), w);
    }
    forall v | v in r'.users ensures UserOk(r', v) {
      HoldersAfter(r.users, u, Waiting(w0), r'.users[v].w);
      assert v != u ==> UserOk(r, v);
    }
  }

  lemma CreateKeepsInv(r: Registry, u: User, name: string, c: Creation)
    requires Inv(r) && u !in r.users && r.lock == None && Find(r.wrappers, name).None?
    ensures Inv(Create(r, u, name, c))
  {
    var r', n := Create(r, u, name, c), |r.wrappers|;
    assert Holders(r.users, n) == {};
    forall w | 0 <= w < |r'.wrappers| ensures CountOk(r', w) {
      assert w < n ==> CountOk(r, w);
      HoldersAfter(r.users, u, Waiting(n), w);
    }
    forall v | v in r'.users ensures UserOk(r', v) {
      HoldersAfter(r.users, u, Waiting(n), r'.users[v].w);
      assert v != u ==> UserOk(r, v);
    }
  }

  lemma MoveKeepsInv(r: Registry, s: Step)
    requires Inv(r) && Enabled(r, s) && (s.Lock? || s.Read? || s.Unlock?)
    ensures Inv(Apply(r, s))
  {
    var r' := Apply(r, s);
    forall w ensures Holders(r'.users, w) == Holders(r.users, w) {
      HoldersAfter(r.users, s.u, r'.users[s.u], w);
    }
    forall w | 0 <= w < |r'.wrappers| ensures CountOk(r', w) {
      assert CountOk(r, w);
    }
    forall u | u in r'.users ensures UserOk(r', u) {
      if s.Read? && r'.users[s.u].Culling? && u == s.u {
        var w := r.users[u].w;
        assert CountOk(r, w);
        OnlyMember(Holders(r.users, w), u);
      }
    }
  }

  lemma OnlyMember<T>(s: set<T>, x: T)
    requires x in s && |s| == 1
    ensures s == {x}
  {
    assert |s - {x}| == 0;
    assert s == {x} + (s - {x});
  }

  lemma UnlinkKeepsInv(r: Registry, s: Step)
    requires Inv(r) && Enabled(r, s) && s.Unlink?
    ensures Inv(Apply(r, s))
  {
    var r' := Apply(r, s);
    forall w ensures Holders(r'.users, w) == Holders(r.users, w) {
      HoldersAfter(r.users, s.u, r'.users[s.u], w);
    }
    forall w | 0 <= w < |r'.wrappers| ensures CountOk(r', w) {
      assert CountOk(r, w);
    }
    assert UserOk(r, s.u);
    forall u | u in r'.users && u != s.u ensures UserOk(r', u) {
      assert UserOk(r, u) && u !in Holders(r.users, r.users[s.u].w);
    }
  }

  lemma DropKeepsInv(r: Registry, s: Step)
    requires Inv(r) && Enabled(r, s) && s.Drop?
    ensures Inv(Apply(r, s))
  {
    var r' := Apply(r, s);
    forall w | 0 <= w < |r'.wrappers| ensures CountOk(r', w) {
      assert CountOk(r, w);
      HoldersAfter(r.users, s.u, Leaving(w), w);
      if w == r.users[s.u].w {
        assert s.u in Holders(r.users, w);
      }
    }
    forall u | u in r'.users ensures UserOk(r', u) {
      HoldersAfter(r.users, s.u, Leaving(0), r.users[u].w);
    }
  }

  lemma StepKeepsInv(r: Registry, s: Step)
    requires Inv(r) && Enabled(r, s)
    ensures Inv(Apply(r, s))
  {
    match s {
      case Get(u, name, c) =>
        var found := Find(r.wrappers, name);
        if found.Some? { JoinKeepsInv(r, u, found.value); } else { CreateKeepsInv(r, u, name, c); }
      case Unlink(_) => UnlinkKeepsInv(r, s);
      case Drop(_) => DropKeepsInv(r, s);
      case _ => MoveKeepsInv(r, s);
    }
  }

  // ---- Whole runs ---------------------------------------------------------------

  predicate Runs(r: Registry, steps: seq<Step>)
    decreases |steps|
  {
    steps == [] || (Enabled(r, steps[0]) && Runs(Apply(r, steps[0]), steps[1..]))
  }

  function After(r: Registry, steps: seq<Step>): Registry
    requires Runs(r, steps)
    decreases |steps|
  {
    if steps == [] then r else After(Apply(r, steps[0]), steps[1..])
  }

  /** Every interleaving of any number of channels keeps the invariant. */
  lemma {:induction false} RunKeepsInv(r: Registry, steps: seq<Step>)
    requires Inv(r) && Runs(r, steps)
    ensures Inv(After(r, steps))
    decreases |steps|
  {
    if steps != [] {
      StepKeepsInv(r, steps[0]);
      RunKeepsInv(Apply(r, steps[0]), steps[1..]);
    }
  }

  /** A wrapper that was destroyed stays destroyed, once, and the same holds of its being unlinked. */
  lemma {:induction false} DestructionIsFinal(r: Registry, steps: seq<Step>, w: nat)
    requires Inv(r) && Runs(r, steps) && w < |r.wrappers|
    ensures w < |After(r, steps).wrappers|
    ensures r.wrappers[w].destroyed <= After(r, steps).wrappers[w].destroyed <= 1
    ensures !r.wrappers[w].linked ==> !After(r, steps).wrappers[w].linked
    ensures r.wrappers[w].name == After(r, steps).wrappers[w].name
    decreases |steps|
  {
    assert CountOk(r, w);
    if steps != [] {
      StepKeepsInv(r, steps[0]);
      DestructionIsFinal(Apply(r, steps[0]), steps[1..], w);
    }
  }

  /**
   In every reachable state: counts are exact, waiters under one name share one linked wrapper,
   destruction comes last.
   */
  lemma ReachableStates(steps: seq<Step>)
    requires Runs(EMPTY, steps)
    ensures var r := After(EMPTY, steps);
      && UniqueNames(r.wrappers)
      && (forall w :: 0 <= w < |r.wrappers| ==> CountOk(r, w))
      && (forall w :: 0 <= w < |r.wrappers| && r.wrappers[w].destroyed > 0 ==>
            !r.wrappers[w].linked && Holders(r.users, w) == {})
      && (forall u, v :: u in r.users && v in r.users && Counted(r.users[u]) && Counted(r.users[v]) ==>
            var x, y := r.users[u].w, r.users[v].w;
            && x < |r.wrappers| && y < |r.wrappers| && r.wrappers[x].linked
            && (r.wrappers[x].name == r.wrappers[y].name ==> x == y))
  {
    RunKeepsInv(EMPTY, steps);
    var r := After(EMPTY, steps);
    forall w | 0 <= w < |r.wrappers| && r.wrappers[w].destroyed > 0
      ensures !r.wrappers[w].linked && Holders(r.users, w) == {}
    {
      assert CountOk(r, w);
    }
  }

  // ---- When a wrapper is left behind -----------------------------------------------

  /** In the container although nobody who could still cull it is left. */
  ghost predicate Stranded(r: Registry, w: nat) {
    && w < |r.wrappers| && r.wrappers[w].linked
    && forall u :: u in r.users && r.users[u].w == w ==> !Counted(r.users[u])
  }

  /** The reader sees a count above two only because of channels that have already read it. */
  ghost predicate MisreadBy(r: Registry, u: User) {
    && u in r.users && r.users[u].Checking? && r.users[u].w < |r.wrappers|
    && r.wrappers[r.users[u].w].refs != 2
    && forall v :: v in r.users && v != u && r.users[v].w == r.users[u].w ==> r.users[v].Leaving?
  }

  /** A wrapper becomes stranded at exactly one kind of step: a misread count. */
  lemma StrandedExactlyByMisread(r: Registry, s: Step, w: nat)
    requires Inv(r) && Enabled(r, s) && !Stranded(r, w)
    ensures Stranded(Apply(r, s), w) <==> s.Read? && r.users[s.u].w == w && MisreadBy(r, s.u)
  {
    var r' := Apply(r, s);
    if s.Get? {
      if w < |r'.wrappers| && r'.wrappers[w].linked {
        GetStrandsNothing(r, s, w);
      }
    } else {
      assert UserOk(r, s.u);
      if Stranded(r', w) {
        LeaveStrands(r, s, w);
      }
    }
  }

  lemma GetStrandsNothing(r: Registry, s: Step, w: nat)
    requires Inv(r) && Enabled(r, s) && s.Get? && !Stranded(r, w)
    requires w < |Apply(r, s).wrappers| && Apply(r, s).wrappers[w].linked
    ensures !Stranded(Apply(r, s), w)
  {
    var r' := Apply(r, s);
    if s.u in r'.users && r'.users[s.u].w == w {
      assert Counted(r'.users[s.u]);
    } else {
      var u :| u in r.users && r.users[u].w == w && Counted(r.users[u]);
      assert u in r'.users && r'.users[u] == r.users[u];
    }
  }

  lemma LeaveStrands(r: Registry, s: Step, w: nat)
    requires Inv(r) && Enabled(r, s) && !s.Get? && !Stranded(r, w) && Stranded(Apply(r, s), w)
    ensures s.Read? && r.users[s.u].w == w && MisreadBy(r, s.u)
  {
    var r' := Apply(r, s);
    var u :| u in r.users && r.users[u].w == w && Counted(r.users[u]);
    assert forall v :: v in r.users && v != s.u ==> v in r'.users && r'.users[v] == r.users[v];
    assert UserOk(r, u);
    assert u in r'.users && !Counted(r'.users[u]);
    forall v | v in r.users && v != u && r.users[v].w == w ensures r.users[v].Leaving? {
      assert UserOk(r, v) && r'.users[v] == r.users[v];
    }
  }

  /** No channel of the run ever misreads a count. */
  ghost predicate NeverMisreads(r: Registry, steps: seq<Step>)
    requires Runs(r, steps)
    decreases |steps|
  {
    steps == [] ||
    ((steps[0].Read? ==> !MisreadBy(r, steps[0].u)) && NeverMisreads(Apply(r, steps[0]), steps[1..]))
  }

  lemma {:induction false} NothingStranded(r: Registry, steps: seq<Step>)
    requires Inv(r) && Runs(r, steps) && NeverMisreads(r, steps)
    requires forall w :: !Stranded(r, w)
    ensures forall w :: !Stranded(After(r, steps), w)
    decreases |steps|
  {
    if steps != [] {
      StepKeepsInv(r, steps[0]);
      forall w ensures !Stranded(Apply(r, steps[0]), w) {
        StrandedExactlyByMisread(r, steps[0], w);
      }
      NothingStranded(Apply(r, steps[0]), steps[1..]);
    }
  }

  /** Without misreads the registry empties: once everyone is gone, every bridge ever made is destroyed. */
  lemma EmptiesWithoutMisreads(steps: seq<Step>)
    requires Runs(EMPTY, steps) && NeverMisreads(EMPTY, steps) && After(EMPTY, steps).users == map[]
    ensures var r := After(EMPTY, steps);
            forall w :: 0 <= w < |r.wrappers| ==> !r.wrappers[w].linked && r.wrappers[w].destroyed == 1
  {
    var r := After(EMPTY, steps);
    RunKeepsInv(EMPTY, steps);
    NothingStranded(EMPTY, steps);
    forall w | 0 <= w < |r.wrappers| ensures !r.wrappers[w].linked && r.wrappers[w].destroyed == 1 {
      assert CountOk(r, w) && Holders(r.users, w) == {} && !Stranded(r, w);
    }
  }

  /** Two channels that leave together can both read three: the bridge then outlives them in the container. */
  lemma OverlappingLeaversStrand() returns (steps: seq<Step>)
    ensures Runs(EMPTY, steps)
    ensures After(EMPTY, steps) == Registry([Wrapper("b", 1, true, 0)], map[], None)
  {
    var tail := [Drop(0), Drop(1)];
    var second := [Lock(1), Read(1), Unlock(1)] + tail;
    var first := [Lock(0), Read(0), Unlock(0)] + second;
    steps := [Get(0, "b", Created), Get(1, "b", Created)] + first;
    var r2 := Registry([Wrapper("b", 3, true, 0)], map[0 := Waiting(0), 1 := Waiting(0)], None);
    var r5 := r2.(users := map[0 := Leaving(0), 1 := Waiting(0)]);
    var r8 := r2.(users := map[0 := Leaving(0), 1 := Leaving(0)]);
    var r10 := Registry([Wrapper("b", 1, true, 0)], map[], None);
    TwoDrop(r8, tail, r10);
    assert r5.users[1 := Leaving(0)] == r8.users && r2.users[0 := Leaving(0)] == r5.users;
    OneLeaves(r5, 1, tail);
    OneLeaves(r2, 0, second);
    TwoArrive(r2, first);
  }

  lemma TwoArrive(r2: Registry, rest: seq<Step>)
    requires r2 == Registry([Wrapper("b", 3, true, 0)], map[0 := Waiting(0), 1 := Waiting(0)], None)
    requires Runs(r2, rest)
    ensures var steps := [Get(0, "b", Created), Get(1, "b", Created)] + rest;
            Runs(EMPTY, steps) && After(EMPTY, steps) == After(r2, rest)
  {
    var g0, g1 := Get(0, "b", Created), Get(1, "b", Created);
    var steps := [g0, g1] + rest;
    var r1 := Apply(EMPTY, g0);
    assert r1 == Registry([Wrapper("b", 2, true, 0)], map[0 := Waiting(0)], None);
    assert Apply(r1, g1) == r2;
    assert steps[1..] == [g1] + rest && ([g1] + rest)[1..] == rest;
    assert Runs(r1, [g1] + rest);
  }

  lemma OneLeaves(r: Registry, u: User, rest: seq<Step>)
    requires |r.wrappers| == 1 && r.wrappers[0].refs == 3 && r.lock == None && u in r.users && r.users[u] == Waiting(0)
    requires Runs(r.(users := r.users[u := Leaving(0)]), rest)
    ensures var steps := [Lock(u), Read(u), Unlock(u)] + rest;
            Runs(r, steps) && After(r, steps) == After(r.(users := r.users[u := Leaving(0)]), rest)
  {
    var steps := [Lock(u), Read(u), Unlock(u)] + rest;
    var s2, s3 := [Read(u), Unlock(u)] + rest, [Unlock(u)] + rest;
    assert steps[1..] == s2 && s2[1..] == s3 && s3[1..] == rest;
    var r1 := Apply(r, Lock(u));
    var r2 := Apply(r1, Read(u));
    var r3 := Apply(r2, Unlock(u));
    assert r3 == r.(users := r.users[u := Leaving(0)]);
    assert Runs(r2, s3) && After(r2, s3) == After(r3, rest);
    assert Runs(r1, s2) && After(r1, s2) == After(r3, rest);
  }

  lemma TwoDrop(r8: Registry, tail: seq<Step>, r10: Registry)
    requires r8 == Registry([Wrapper("b", 3, true, 0)], map[0 := Leaving(0), 1 := Leaving(0)], None)
    requires tail == [Drop(0), Drop(1)] && r10 == Registry([Wrapper("b", 1, true, 0)], map[], None)
    ensures Runs(r8, tail) && After(r8, tail) == r10
  {
    var r9 := Apply(r8, Drop(0));
    assert r9 == Registry([Wrapper("b", 2, true, 0)], map[1 := Leaving(0)], None);
    assert Apply(r9, Drop(1)) == r10;
    assert tail[1..] == [Drop(1)] && [Drop(1)][1..] == [];
    assert Runs(r9, [Drop(1)]);
  }

  // ---- The imperative registry -------------------------------------------------------

  /** The shared container, the counts and the channels; each method is one atomic step. */
  class WrapperTable {
    var wrappers: seq<Wrapper>
    var users: map<User, Phase>
    var lock: Option<User>

    ghost function View(): Registry
      reads this
    {
      Registry(wrappers, users, lock)
    }

    constructor ()
      ensures View() == EMPTY
    {
      wrappers, users, lock := [], map[], None;
    }

    /** The search of the container for a linked wrapper of the name. */
    method FindByName(name: string) returns (r: Option<nat>)
      ensures r == Find(wrappers, name)
    {
      var i := |wrappers|;
      assert wrappers[..i] == wrappers;
      while i > 0
        invariant 0 <= i <= |wrappers|
        invariant Find(wrappers[..i], name) == Find(wrappers, name)
      {
        assert wrappers[..i][..i - 1] == wrappers[..i - 1];
        i := i - 1;
        if wrappers[i].linked && wrappers[i].name == name {
          return Some(i);
        }
      }
      r := None;
    }

    /** get_wait_bridge_wrapper and wait_bridge_wrapper_alloc, under the container lock. */
    method GetWrapper(u: User, name: string, creation: Creation) returns (w: Option<nat>)
      requires Enabled(View(), Get(u, name, creation))
      modifies this
      ensures View() == Apply(old(View()), Get(u, name, creation))
      ensures w.Some? ==> u in users && users[u] == Waiting(w.value)
    {
      w := FindByName(name);
      if w.Some? {
        var x := wrappers[w.value];
        wrappers := wrappers[w.value := x.(refs := x.refs + 1)];
        users := users[u := Waiting(w.value)];
        return;
      }
      match creation {
        case NoBridge => return;
        case NoMemory => return;
        case NotLinked =>
          wrappers := wrappers + [Wrapper(name, 0, false, 1)];
        case Created =>
          w := Some(|wrappers|);
          wrappers := wrappers + [Wrapper(name, 2, true, 0)];
          users := users[u := Waiting(w.value)];
      }
    }

    method LockTable(u: User)
      requires Enabled(View(), Lock(u))
      modifies this
      ensures View() == Apply(old(View()), Lock(u))
    {
      lock := Some(u);
      users := users[u := Checking(users[u].w)];
    }

    method ReadCount(u: User)
      requires Enabled(View(), Read(u))
      modifies this
      ensures View() == Apply(old(View()), Read(u))
    {
      var w := users[u].w;
      if wrappers[w].refs == 2 {
        users := users[u := Culling(w)];
      } else {
        users := users[u := Unlocking(w)];
      }
    }

    method UnlinkWrapper(u: User)
      requires Enabled(View(), Unlink(u))
      modifies this
      ensures View() == Apply(old(View()), Unlink(u))
    {
      var w := users[u].w;
      if wrappers[w].linked {
        wrappers := wrappers[w := wrappers[w].(linked := false, refs := wrappers[w].refs - 1)];
      }
      users := users[u := Unlocking(w)];
    }

    method UnlockTable(u: User)
      requires Enabled(View(), Unlock(u))
      modifies this
      ensures View() == Apply(old(View()), Unlock(u))
    {
      lock := None;
      users := users[u := Leaving(users[u].w)];
    }

    /** ao2_cleanup outside the lock; the last reference runs the destructor. */
    method DropReference(u: User)
      requires Enabled(View(), Drop(u))
      modifies this
      ensures View() == Apply(old(View()), Drop(u))
    {
      var w := users[u].w;
      var x := wrappers[w].(refs := wrappers[w].refs - 1);
      if x.refs == 0 {
        x := x.(destroyed := x.destroyed + 1);
      }
      wrappers := wrappers[w := x];
      users := users - {u};
    }
  }
}
