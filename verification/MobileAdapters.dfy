/**
 * One device per adapter (addons/chan_mobile.c): the discovery thread connects devices, a monitor
 * thread per device disconnects it, and each holds only that device's lock.  Every read and every
 * write of a flag is a step of its own, in any interleaving.
 */
module MobileAdapters {
  datatype Holder = Nobody | Discovery | Monitor

  /** The monitor thread of a device; from Closing to Released it holds the device's lock. */
  datatype Thread = Absent | Running | Closing | Closed | Released

  datatype Device = Device(adapter: nat, connected: bool, holder: Holder, monitor: Thread)

  /** Where the discovery thread is with adapter `a` and device `d`. */
  datatype Place =
    | Idle
    | Holding(a: nat, d: nat)
    | Sighted(a: nat, d: nat)     // the adapter was seen free
    | Unlinked(a: nat, d: nat)    // the device was seen not connected
    | Passed(a: nat, d: nat)      // the ids agree
    | Dialled(a: nat, d: nat)
    | Started(a: nat, d: nat)     // the monitor runs
    | Marked(a: nat, d: nat)      // the device is marked connected
    | Leaving(a: nat, d: nat)     // about to unlock

  datatype Sys = Sys(ids: seq<string>, inuse: seq<bool>, devices: seq<Device>, at: Place)

  datatype Event =
    | Lock(a: nat, d: nat)
    | ReadInUse
    | ReadConnected
    | CompareIds
    | Dial(ok: bool)
    | Start(ok: bool)
    | Mark
    | Occupy
    | Unlock
    | MonitorLock(d: nat)
    | ClearConnected(d: nat)
    | ClearInUse(d: nat)
    | MonitorUnlock(d: nat)

  predicate Shape(s: Sys) {
    && |s.ids| == |s.inuse|
    && (forall d :: 0 <= d < |s.devices| ==> s.devices[d].adapter < |s.inuse|)
    && (!s.at.Idle? ==> s.at.a < |s.inuse| && s.at.d < |s.devices|)
  }

  predicate Monitored(s: Sys, d: nat, phase: Thread) {
    d < |s.devices| && s.devices[d].monitor == phase
  }

  predicate Enabled(s: Sys, ev: Event) {
    match ev
    case Lock(a, d) => s.at.Idle? && a < |s.inuse| && d < |s.devices| && s.devices[d].holder.Nobody?
    case ReadInUse => s.at.Holding?
    case ReadConnected => s.at.Sighted?
    case CompareIds => s.at.Unlinked?
    case Dial(_) => s.at.Passed?
    case Start(_) => s.at.Dialled?
    case Mark => s.at.Started?
    case Occupy => s.at.Marked?
    case Unlock => s.at.Leaving?
    case MonitorLock(d) => Monitored(s, d, Running) && s.devices[d].holder.Nobody?
    case ClearConnected(d) => Monitored(s, d, Closing)
    case ClearInUse(d) => Monitored(s, d, Closed)
    case MonitorUnlock(d) => Monitored(s, d, Released)
  }

  function SetDevice(s: Sys, d: nat, v: Device): Sys
    requires d < |s.devices|
  {
    s.(devices := s.devices[d := v])
  }

  function Or(ok: bool, next: Place, at: Place): Place
    requires !at.Idle?
  {
    if ok then next else Leaving(at.a, at.d)
  }

  function Step(s: Sys, ev: Event): Sys
    requires Shape(s) && Enabled(s, ev)
  {
    match ev
    case Lock(a, d) => SetDevice(s, d, s.devices[d].(holder := Discovery)).(at := Holding(a, d))
    case ReadInUse => s.(at := Or(!s.inuse[s.at.a], Sighted(s.at.a, s.at.d), s.at))
    case ReadConnected => s.(at := Or(!s.devices[s.at.d].connected, Unlinked(s.at.a, s.at.d), s.at))
    case CompareIds =>
      s.(at := Or(s.ids[s.at.a] == s.ids[s.devices[s.at.d].adapter], Passed(s.at.a, s.at.d), s.at))
    case Dial(ok) => s.(at := Or(ok, Dialled(s.at.a, s.at.d), s.at))
    case Start(ok) =>
      if ok then SetDevice(s, s.at.d, s.devices[s.at.d].(monitor := Running)).(at := Started(s.at.a, s.at.d))
      else s.(at := Leaving(s.at.a, s.at.d))
    case Mark => SetDevice(s, s.at.d, s.devices[s.at.d].(connected := true)).(at := Marked(s.at.a, s.at.d))
    case Occupy => s.(inuse := s.inuse[s.at.a := true], at := Leaving(s.at.a, s.at.d))
    case Unlock => SetDevice(s, s.at.d, s.devices[s.at.d].(holder := Nobody)).(at := Idle)
    case MonitorLock(d) => SetDevice(s, d, s.devices[d].(holder := Monitor, monitor := Closing))
    case ClearConnected(d) => SetDevice(s, d, s.devices[d].(connected := false, monitor := Closed))
    case ClearInUse(d) =>
      SetDevice(s, d, s.devices[d].(monitor := Released)).(inuse := s.inuse[s.devices[d].adapter := false])
    case MonitorUnlock(d) => SetDevice(s, d, s.devices[d].(holder := Nobody, monitor := Absent))
  }

  // ---- The invariant -----------------------------------------------------------------------

  /** The device's adapter is, or is about to be, or is still marked as in use for it. */
  predicate Owns(v: Device) {
    v.connected || v.monitor.Closed?
  }

  predicate Claims(at: Place) {
    at.Passed? || at.Dialled? || at.Started?
  }

  /** The discovery thread goes by having seen the adapter free. */
  predicate Relies(at: Place) {
    at.Sighted? || at.Unlinked? || Claims(at)
  }

  predicate SharesId(s: Sys, a: nat, d: nat) {
    && a < |s.ids| && d < |s.devices| && s.devices[d].adapter < |s.ids|
    && s.devices[d].adapter != a && s.ids[a] == s.ids[s.devices[d].adapter]
  }

  /** No other adapter has the id of a device's own. */
  ghost predicate Apart(s: Sys) {
    forall a, d :: !SharesId(s, a, d)
  }

  /** One device's flags, lock and monitor belong together. */
  predicate Coherent(v: Device, held: bool, started: bool) {
    && (v.holder.Discovery? <==> held)
    && (v.holder.Monitor? <==> v.monitor.Closing? || v.monitor.Closed? || v.monitor.Released?)
    && (v.connected ==> v.monitor.Running? || v.monitor.Closing?)
    && (v.monitor.Closing? ==> v.connected)
    && (v.monitor.Running? ==> v.connected || started)
    && (started ==> v.monitor.Running? && !v.connected)
  }

  predicate Held(s: Sys, d: nat) {
    !s.at.Idle? && s.at.d == d
  }

  predicate InStart(s: Sys, d: nat) {
    s.at.Started? && s.at.d == d
  }

  ghost predicate AllCoherent(s: Sys) {
    forall d :: 0 <= d < |s.devices| ==> Coherent(s.devices[d], Held(s, d), InStart(s, d))
  }

  predicate OwnerOf(s: Sys, a: nat, d: nat) {
    d < |s.devices| && s.devices[d].adapter == a && Owns(s.devices[d])
  }

  ghost predicate Owned(s: Sys, a: nat) {
    exists d :: OwnerOf(s, a, d)
  }

  ghost predicate OneOwner(s: Sys) {
    forall a, d, e :: OwnerOf(s, a, d) && OwnerOf(s, a, e) ==> d == e
  }

  /** The discovery thread is busy with a device of the adapter that nobody owns yet. */
  ghost predicate ClaimStands(s: Sys)
    requires Shape(s)
  {
    && (Relies(s.at) ==> !Owned(s, s.at.a))
    && (Claims(s.at) ==> s.devices[s.at.d].adapter == s.at.a)
    && (s.at.Marked? ==> OwnerOf(s, s.at.a, s.at.d))
  }

  /** The flag says whether there is an owner, but for the one moment before it is set. */
  ghost predicate FlagsRight(s: Sys) {
    forall a :: 0 <= a < |s.inuse| ==> (s.inuse[a] <==> Owned(s, a) && !(s.at.Marked? && s.at.a == a))
  }

  ghost predicate Inv(s: Sys) {
    Shape(s) && AllCoherent(s) && OneOwner(s) && ClaimStands(s) && FlagsRight(s)
  }

  lemma StepKeepsCoherent(s: Sys, ev: Event)
    requires Shape(s) && AllCoherent(s) && ClaimStands(s) && Enabled(s, ev)
    ensures Shape(Step(s, ev)) && AllCoherent(Step(s, ev))
  {
    var s1 := Step(s, ev);
    forall d | 0 <= d < |s.devices|
      ensures Coherent(s1.devices[d], Held(s1, d), InStart(s1, d))
    {
      assert Coherent(s.devices[d], Held(s, d), InStart(s, d));
      if Claims(s.at) && s.at.d == d { assert !OwnerOf(s, s.at.a, d); }
    }
  }

  /** But for marking a device and for clearing its adapter, owners stay what they are. */
  lemma OwnersStay(s: Sys, ev: Event)
    requires Shape(s) && AllCoherent(s) && Enabled(s, ev) && !ev.Mark? && !ev.ClearInUse?
    ensures forall a, d :: OwnerOf(Step(s, ev), a, d) <==> OwnerOf(s, a, d)
    ensures forall a :: Owned(Step(s, ev), a) <==> Owned(s, a)
  {
    var s1 := Step(s, ev);
    forall a: nat, d: nat
      ensures OwnerOf(s1, a, d) <==> OwnerOf(s, a, d)
    {
      if 0 <= d < |s.devices| { assert Coherent(s.devices[d], Held(s, d), InStart(s, d)); }
    }
    forall a
      ensures Owned(s1, a) <==> Owned(s, a)
    {
      if Owned(s, a) {
        var d :| OwnerOf(s, a, d);
        assert OwnerOf(s1, a, d);
      }
      if Owned(s1, a) {
        var d :| OwnerOf(s1, a, d);
        assert OwnerOf(s, a, d);
      }
    }
  }

  lemma QuietStepKeepsInv(s: Sys, ev: Event)
    requires Inv(s) && Apart(s) && Enabled(s, ev) && !ev.Mark? && !ev.ClearInUse?
    ensures Inv(Step(s, ev))
  {
    StepKeepsCoherent(s, ev);
    OwnersStay(s, ev);
    if ev.CompareIds? { assert !SharesId(s, s.at.a, s.at.d); }
  }

  lemma MarkKeepsInv(s: Sys)
    requires Inv(s) && s.at.Started?
    ensures Inv(Step(s, Mark))
  {
    StepKeepsCoherent(s, Mark);
    var s1 := Step(s, Mark);
    assert forall a, d :: OwnerOf(s1, a, d) <==> OwnerOf(s, a, d) || (d == s.at.d && a == s.at.a);
    forall a | 0 <= a < |s.inuse|
      ensures s1.inuse[a] <==> Owned(s1, a) && !(s1.at.Marked? && s1.at.a == a)
    {
      if Owned(s, a) {
        var d :| OwnerOf(s, a, d);
        assert OwnerOf(s1, a, d);
      }
    }
  }

  lemma ClearInUseKeepsInv(s: Sys, d: nat)
    requires Inv(s) && Enabled(s, ClearInUse(d))
    ensures Inv(Step(s, ClearInUse(d)))
  {
    StepKeepsCoherent(s, ClearInUse(d));
    var s1 := Step(s, ClearInUse(d));
    var b := s.devices[d].adapter;
    assert OwnerOf(s, b, d) && !s.devices[d].connected by { assert Coherent(s.devices[d], Held(s, d), InStart(s, d)); }
    assert forall a, e :: OwnerOf(s1, a, e) <==> OwnerOf(s, a, e) && e != d;
    forall a | 0 <= a < |s.inuse|
      ensures s1.inuse[a] <==> Owned(s1, a) && !(s1.at.Marked? && s1.at.a == a)
    {
      if a != b && Owned(s, a) {
        var e :| OwnerOf(s, a, e);
        assert OwnerOf(s1, a, e);
      }
    }
    if s.at.Marked? { assert Coherent(s.devices[s.at.d], true, false); }
  }

  lemma StepKeepsApart(s: Sys, ev: Event)
    requires Shape(s) && Enabled(s, ev)
    ensures forall a, d :: SharesId(Step(s, ev), a, d) <==> SharesId(s, a, d)
  {
  }

  lemma StepKeepsInv(s: Sys, ev: Event)
    requires Inv(s) && Apart(s) && Enabled(s, ev)
    ensures Inv(Step(s, ev)) && Apart(Step(s, ev))
  {
    StepKeepsApart(s, ev);
    if ev.Mark? {
      MarkKeepsInv(s);
    } else if ev.ClearInUse? {
      ClearInUseKeepsInv(s, ev.d);
    } else {
      QuietStepKeepsInv(s, ev);
    }
  }

  // ---- Whole runs ---------------------------------------------------------------------------

  predicate Fresh(v: Device) {
    !v.connected && v.holder.Nobody? && v.monitor.Absent?
  }

  /** Nothing connected, no thread at work. */
  ghost predicate Initial(s: Sys) {
    && Shape(s) && s.at.Idle?
    && (forall a :: 0 <= a < |s.inuse| ==> !s.inuse[a])
    && (forall d :: 0 <= d < |s.devices| ==> Fresh(s.devices[d]))
  }

  predicate Runs(s: Sys, evs: seq<Event>)
    requires Shape(s)
    decreases |evs|
  {
    evs == [] || (Enabled(s, evs[0]) && Shape(Step(s, evs[0])) && Runs(Step(s, evs[0]), evs[1..]))
  }

  function After(s: Sys, evs: seq<Event>): (r: Sys)
    requires Shape(s) && Runs(s, evs)
    ensures Shape(r)
    decreases |evs|
  {
    if evs == [] then s else After(Step(s, evs[0]), evs[1..])
  }

  lemma {:induction false} RunKeepsInv(s: Sys, evs: seq<Event>)
    requires Inv(s) && Apart(s) && Runs(s, evs)
    ensures Inv(After(s, evs))
    decreases |evs|
  {
    if evs != [] {
      StepKeepsInv(s, evs[0]);
      RunKeepsInv(Step(s, evs[0]), evs[1..]);
    }
  }

  predicate ConnectedTo(s: Sys, a: nat, d: nat) {
    d < |s.devices| && s.devices[d].adapter == a && s.devices[d].connected
  }

  ghost predicate ExactlyOne(s: Sys, a: nat) {
    exists d :: ConnectedTo(s, a, d) && forall e :: ConnectedTo(s, a, e) ==> e == d
  }

  ghost predicate Unlocked(s: Sys, a: nat) {
    forall d :: 0 <= d < |s.devices| && s.devices[d].adapter == a ==> s.devices[d].holder.Nobody?
  }

  /** An adapter with none of its devices locked is in use exactly when exactly one of them is connected. */
  ghost predicate Exclusive(s: Sys) {
    forall a :: 0 <= a < |s.inuse| && Unlocked(s, a) ==> (s.inuse[a] <==> ExactlyOne(s, a))
  }

  lemma AdapterExclusive(s: Sys, evs: seq<Event>)
    requires Initial(s) && Apart(s) && Runs(s, evs)
    ensures Exclusive(After(s, evs))
  {
    RunKeepsInv(s, evs);
    var r := After(s, evs);
    forall a | 0 <= a < |r.inuse| && Unlocked(r, a)
      ensures r.inuse[a] <==> ExactlyOne(r, a)
    {
      ExclusiveWhenUnlocked(r, a);
    }
  }

  lemma ExclusiveWhenUnlocked(r: Sys, a: nat)
    requires Inv(r) && a < |r.inuse| && Unlocked(r, a)
    ensures r.inuse[a] <==> ExactlyOne(r, a)
  {
    UnlockedOwners(r, a);
    if r.inuse[a] {
      var d :| OwnerOf(r, a, d);
      assert ConnectedTo(r, a, d);
    }
  }

  /** Where no lock is held, owning is being connected, and no flag is waiting to be set. */
  lemma UnlockedOwners(r: Sys, a: nat)
    requires Inv(r) && Unlocked(r, a)
    ensures forall d: nat :: ConnectedTo(r, a, d) <==> OwnerOf(r, a, d)
    ensures !(r.at.Marked? && r.at.a == a)
  {
    forall d: nat
      ensures ConnectedTo(r, a, d) <==> OwnerOf(r, a, d)
    {
      if d < |r.devices| { assert Coherent(r.devices[d], Held(r, d), InStart(r, d)); }
    }
    if r.at.Marked? { assert Coherent(r.devices[r.at.d], true, false); }
  }

  // ---- Adapters with the same id ---------------------------------------------------------------

  lemma RunFirst(s: Sys, ev: Event, evs: seq<Event>)
    requires Shape(s) && Enabled(s, ev) && Shape(Step(s, ev)) && Runs(Step(s, ev), evs)
    ensures Runs(s, [ev] + evs) && After(s, [ev] + evs) == After(Step(s, ev), evs)
  {
    assert ([ev] + evs)[1..] == evs;
  }

  function MarkRun(): seq<Event> {
    [Start(true)] + ([Mark] + ([Occupy] + ([Unlock] + [])))
  }

  function ReadRun(rest: seq<Event>): seq<Event> {
    [ReadInUse] + ([ReadConnected] + ([CompareIds] + rest))
  }

  function ConnectRun(a: nat, d: nat): seq<Event> {
    [Lock(a, d)] + ReadRun([Dial(true)] + MarkRun())
  }

  function Occupied(s: Sys, a: nat, d: nat): Sys
    requires a < |s.inuse| && d < |s.devices|
  {
    var v := s.devices[d].(connected := true, holder := Nobody, monitor := Running);
    SetDevice(s, d, v).(inuse := s.inuse[a := true], at := Idle)
  }

  lemma MarkRuns(s: Sys, a: nat, d: nat)
    requires Shape(s) && s.at == Dialled(a, d)
    ensures Runs(s, MarkRun()) && After(s, MarkRun()) == Occupied(s, a, d)
  {
    var s1 := Step(s, Start(true));
    var s2 := Step(s1, Mark);
    var s3 := Step(s2, Occupy);
    RunFirst(s3, Unlock, []);
    RunFirst(s2, Occupy, [Unlock] + []);
    RunFirst(s1, Mark, [Occupy] + ([Unlock] + []));
    RunFirst(s, Start(true), [Mark] + ([Occupy] + ([Unlock] + [])));
  }

  /** The device is free to be connected through the adapter. */
  predicate Free(s: Sys, a: nat, d: nat) {
    && Shape(s) && a < |s.inuse| && d < |s.devices|
    && !s.inuse[a] && !s.devices[d].connected && s.ids[a] == s.ids[s.devices[d].adapter]
  }

  lemma ReadRuns(s: Sys, a: nat, d: nat, rest: seq<Event>)
    requires Free(s, a, d) && s.at == Holding(a, d) && Runs(s.(at := Passed(a, d)), rest)
    ensures Runs(s, ReadRun(rest)) && After(s, ReadRun(rest)) == After(s.(at := Passed(a, d)), rest)
  {
    var s1 := Step(s, ReadInUse);
    var s2 := Step(s1, ReadConnected);
    RunFirst(s2, CompareIds, rest);
    RunFirst(s1, ReadConnected, [CompareIds] + rest);
    RunFirst(s, ReadInUse, [ReadConnected] + ([CompareIds] + rest));
  }

  /** The discovery thread connects a free device through an adapter with the id of its own. */
  lemma ConnectRuns(s: Sys, a: nat, d: nat)
    requires s.at.Idle? && Free(s, a, d) && s.devices[d].holder.Nobody?
    ensures Runs(s, ConnectRun(a, d)) && After(s, ConnectRun(a, d)) == Occupied(s, a, d)
  {
    var s1 := Step(s, Lock(a, d));
    var s2 := s1.(at := Passed(a, d));
    MarkRuns(Step(s2, Dial(true)), a, d);
    RunFirst(s2, Dial(true), MarkRun());
    ReadRuns(s1, a, d, [Dial(true)] + MarkRun());
    RunFirst(s, Lock(a, d), ReadRun([Dial(true)] + MarkRun()));
  }

  /** When another adapter shares the id of a device's own, the wrong one ends up in use. */
  lemma SharedIdMisleads(s: Sys, a: nat, d: nat)
    requires Initial(s) && SharesId(s, a, d)
    ensures Runs(s, ConnectRun(a, d))
    ensures var r := After(s, ConnectRun(a, d));
            && |r.inuse| == |s.inuse| && r.inuse[a] && !ExactlyOne(r, a)
            && !r.inuse[s.devices[d].adapter] && ConnectedTo(r, s.devices[d].adapter, d)
            && !Exclusive(r)
  {
    ConnectRuns(s, a, d);
    assert Unlocked(Occupied(s, a, d), a);
  }

  /** Adapters are exclusive in every run if and only if none has the id of another one with a device. */
  lemma ExclusiveExactlyWhenApart(s: Sys)
    requires Initial(s)
    ensures (forall evs :: Runs(s, evs) ==> Exclusive(After(s, evs))) <==> Apart(s)
  {
    if Apart(s) {
      forall evs | Runs(s, evs)
        ensures Exclusive(After(s, evs))
      {
        AdapterExclusive(s, evs);
      }
    } else {
      var a, d :| SharesId(s, a, d);
      SharedIdMisleads(s, a, d);
    }
  }

  // ---- In place ----------------------------------------------------------------------------------

  lemma {:induction false} RunConcat(s: Sys, x: seq<Event>, y: seq<Event>)
    requires Shape(s) && Runs(s, x) && Runs(After(s, x), y)
    ensures Runs(s, x + y) && After(s, x + y) == After(After(s, x), y)
    decreases |x|
  {
    if x == [] {
      assert x + y == y;
    } else {
      assert (x + y)[1..] == x[1..] + y;
      RunConcat(Step(s, x[0]), x[1..], y);
    }
  }

  /** With nothing connected the discovery thread just lets go of the device. */
  lemma LetGo(s: Sys, s1: Sys, a: nat, d: nat)
    requires Shape(s) && s.at.Idle? && a < |s.inuse| && d < |s.devices| && s.devices[d].holder.Nobody?
    requires s1 == Step(s, Lock(a, d)).(at := Leaving(a, d))
    ensures Runs(s1, [Unlock]) && After(s1, [Unlock]) == s
  {
    RunFirst(s1, Unlock, []);
    assert [Unlock] + [] == [Unlock];
  }

  /** A device that is not free or not reachable is locked, looked at and left as it was. */
  lemma RefuseRuns(s: Sys, a: nat, d: nat, reachable: bool) returns (evs: seq<Event>)
    requires Shape(s) && s.at.Idle? && a < |s.inuse| && d < |s.devices| && s.devices[d].holder.Nobody?
    requires !(Free(s, a, d) && reachable)
    ensures Runs(s, evs) && After(s, evs) == s
  {
    var s1 := Step(s, Lock(a, d));
    var out := s1.(at := Leaving(a, d));
    LetGo(s, out, a, d);
    evs := [Unlock];
    if Free(s, a, d) {
      var s2 := s1.(at := Passed(a, d));
      RunFirst(s2, Dial(false), evs);
      ReadRuns(s1, a, d, [Dial(false)] + evs);
      evs := ReadRun([Dial(false)] + evs);
    } else if s.inuse[a] {
      RunFirst(s1, ReadInUse, evs);
      evs := [ReadInUse] + evs;
    } else {
      evs := BusyRuns(s1, a, d, out, evs);
    }
    RunFirst(s, Lock(a, d), evs);
    evs := [Lock(a, d)] + evs;
  }

  lemma BusyRuns(s1: Sys, a: nat, d: nat, out: Sys, rest: seq<Event>) returns (evs: seq<Event>)
    requires Shape(s1) && s1.at == Holding(a, d) && !Free(s1, a, d) && !s1.inuse[a]
    requires out == s1.(at := Leaving(a, d)) && Runs(out, rest)
    ensures Runs(s1, evs) && After(s1, evs) == After(out, rest)
  {
    var s2 := Step(s1, ReadInUse);
    if s1.devices[d].connected {
      RunFirst(s2, ReadConnected, rest);
      evs := [ReadConnected] + rest;
    } else {
      var s3 := Step(s2, ReadConnected);
      RunFirst(s3, CompareIds, rest);
      RunFirst(s2, ReadConnected, [CompareIds] + rest);
      evs := [ReadConnected] + ([CompareIds] + rest);
    }
    RunFirst(s1, ReadInUse, evs);
    evs := [ReadInUse] + evs;
  }

  function CleanupRun(d: nat): seq<Event> {
    [MonitorLock(d)] + ([ClearConnected(d)] + ([ClearInUse(d)] + ([MonitorUnlock(d)] + [])))
  }

  function Vacated(s: Sys, d: nat): Sys
    requires Shape(s) && d < |s.devices|
  {
    var v := s.devices[d].(connected := false, holder := Nobody, monitor := Absent);
    SetDevice(s, d, v).(inuse := s.inuse[s.devices[d].adapter := false])
  }

  lemma CleanupRuns(s: Sys, d: nat)
    requires Shape(s) && Monitored(s, d, Running) && s.devices[d].holder.Nobody?
    ensures Runs(s, CleanupRun(d)) && After(s, CleanupRun(d)) == Vacated(s, d)
  {
    var s1 := Step(s, MonitorLock(d));
    var s2 := Step(s1, ClearConnected(d));
    var s3 := Step(s2, ClearInUse(d));
    RunFirst(s3, MonitorUnlock(d), []);
    RunFirst(s2, ClearInUse(d), [MonitorUnlock(d)] + []);
    RunFirst(s1, ClearConnected(d), [ClearInUse(d)] + ([MonitorUnlock(d)] + []));
    RunFirst(s, MonitorLock(d), [ClearConnected(d)] + ([ClearInUse(d)] + ([MonitorUnlock(d)] + [])));
  }

  /** Nobody is disconnected, no adapter is given up, and nobody changes adapter. */
  ghost predicate Grown(s: Sys, r: Sys) {
    && r.ids == s.ids && |r.inuse| == |s.inuse| && |r.devices| == |s.devices|
    && (forall a :: 0 <= a < |r.inuse| && s.inuse[a] ==> r.inuse[a])
    && forall d :: 0 <= d < |r.devices| ==>
         r.devices[d].adapter == s.devices[d].adapter && (s.devices[d].connected ==> r.devices[d].connected)
  }

  predicate Missed(s: Sys, reachable: (nat, nat) -> bool, d: nat) {
    && d < |s.devices| && s.devices[d].adapter < |s.inuse| && reachable(s.devices[d].adapter, d)
    && !s.devices[d].connected && !s.inuse[s.devices[d].adapter]
  }

  /** No device with an adapter before `a`, and none before `d` with adapter `a`, was missed. */
  ghost predicate Visited(s: Sys, reachable: (nat, nat) -> bool, a: nat, d: nat) {
    forall e :: 0 <= e < |s.devices| && Missed(s, reachable, e) ==>
      s.devices[e].adapter > a || (s.devices[e].adapter == a && e >= d)
  }

  function Tried(s: Sys, a: nat, d: nat, ok: bool): Sys
    requires a < |s.inuse| && d < |s.devices|
  {
    if Free(s, a, d) && ok then Occupied(s, a, d) else s
  }

  lemma OneVisit(s: Sys, reachable: (nat, nat) -> bool, a: nat, d: nat)
    requires Shape(s) && a < |s.inuse| && d < |s.devices| && Visited(s, reachable, a, d)
    ensures var r := Tried(s, a, d, reachable(a, d)); Grown(s, r) && Visited(r, reachable, a, d + 1)
  {
    var r := Tried(s, a, d, reachable(a, d));
    forall e | 0 <= e < |s.devices| && Missed(r, reachable, e)
      ensures r.devices[e].adapter > a || (r.devices[e].adapter == a && e >= d + 1)
    {
      assert Missed(s, reachable, e);
    }
  }

  lemma GrownTwice(s: Sys, r: Sys, q: Sys)
    requires Grown(s, r) && Grown(r, q)
    ensures Grown(s, q)
  {
  }

  lemma RowVisited(s: Sys, reachable: (nat, nat) -> bool, a: nat)
    requires Visited(s, reachable, a, |s.devices|)
    ensures Visited(s, reachable, a + 1, 0)
  {
  }

  /** The flags, as they are while no thread holds a lock; every method is a run of the steps above. */
  class Registry {
    const ids: seq<string>
    var inuse: seq<bool>
    var devices: seq<Device>

    ghost function View(): Sys
      reads this
    {
      Sys(ids, inuse, devices, Idle)
    }

    ghost predicate Calm()
      reads this
    {
      Shape(View()) && forall d :: 0 <= d < |devices| ==> devices[d].holder.Nobody?
    }

    constructor (ids: seq<string>, adapterOf: seq<nat>)
      requires forall d :: 0 <= d < |adapterOf| ==> adapterOf[d] < |ids|
      ensures this.ids == ids && Calm() && Initial(View())
      ensures |devices| == |adapterOf| && forall d :: 0 <= d < |devices| ==> devices[d].adapter == adapterOf[d]
    {
      this.ids := ids;
      inuse := seq(|ids|, _ => false);
      devices := seq(|adapterOf|, d requires 0 <= d < |adapterOf| => Device(adapterOf[d], false, Nobody, Absent));
    }

    /** The locked section of the discovery thread for one device. */
    method TryConnect(a: nat, d: nat, reachable: bool) returns (ghost evs: seq<Event>)
      requires Calm() && a < |inuse| && d < |devices|
      modifies this
      ensures Calm() && Runs(old(View()), evs) && After(old(View()), evs) == View()
      ensures View() == Tried(old(View()), a, d, reachable)
    {
      if !inuse[a] && !devices[d].connected && ids[a] == ids[devices[d].adapter] && reachable {
        ConnectRuns(View(), a, d);
        evs := ConnectRun(a, d);
        devices := devices[d := devices[d].(connected := true, monitor := Running)];
        inuse := inuse[a := true];
      } else {
        evs := RefuseRuns(View(), a, d, reachable);
      }
    }

    /** The locked section at the end of a device's monitor thread. */
    method MonitorCleanup(d: nat)
      requires Calm() && Monitored(View(), d, Running)
      modifies this
      ensures Calm() && Runs(old(View()), CleanupRun(d)) && After(old(View()), CleanupRun(d)) == View()
      ensures View() == Vacated(old(View()), d)
    {
      CleanupRuns(View(), d);
      inuse := inuse[devices[d].adapter := false];
      devices := devices[d := devices[d].(connected := false, monitor := Absent)];
    }

    method PassOver(a: nat, reachable: (nat, nat) -> bool) returns (ghost evs: seq<Event>)
      requires Calm() && a < |inuse| && Visited(View(), reachable, a, 0)
      modifies this
      ensures Calm() && Runs(old(View()), evs) && After(old(View()), evs) == View()
      ensures Grown(old(View()), View()) && Visited(View(), reachable, a + 1, 0)
    {
      ghost var start := View();
      evs := [];
      for d := 0 to |devices|
        invariant Calm() && Runs(start, evs) && After(start, evs) == View()
        invariant Grown(start, View()) && Visited(View(), reachable, a, d)
      {
        ghost var before := View();
        OneVisit(before, reachable, a, d);
        ghost var more := TryConnect(a, d, reachable(a, d));
        RunConcat(start, evs, more);
        GrownTwice(start, before, View());
        evs := evs + more;
      }
      RowVisited(View(), reachable, a);
    }

    /**
     * One pass over all adapters and devices while no monitor runs.  It is a run of the steps, so that
     * adapters stay exclusive; nobody is disconnected, and every device that is reachable through its own
     * adapter is connected or its adapter is in use.
     */
    method DiscoveryPass(reachable: (nat, nat) -> bool) returns (ghost evs: seq<Event>)
      requires Calm()
      modifies this
      ensures Calm() && Runs(old(View()), evs) && After(old(View()), evs) == View()
      ensures Inv(old(View())) && Apart(old(View())) ==> Inv(View())
      ensures Grown(old(View()), View()) && forall d :: 0 <= d < |devices| ==> !Missed(View(), reachable, d)
    {
      ghost var start := View();
      evs := [];
      for a := 0 to |inuse|
        invariant Calm() && Runs(start, evs) && After(start, evs) == View()
        invariant Grown(start, View()) && Visited(View(), reachable, a, 0)
      {
        ghost var before := View();
        ghost var more := PassOver(a, reachable);
        RunConcat(start, evs, more);
        GrownTwice(start, before, View());
        evs := evs + more;
      }
      if Inv(start) && Apart(start) { RunKeepsInv(start, evs); }
    }
  }
}
