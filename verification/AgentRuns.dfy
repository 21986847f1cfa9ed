/**
 * All that can happen to one agent (apps/app_agent_pool.c): the agent's own thread, callers, hooks,
 * logoff requests, channel swaps and reloads, each locked section one step, in any order.
 * Hooks and alerts run only for the channel that is in the holding bridge.
 */
module AgentRuns {
  import opened Options
  import opened AgentPool

  /** Where the logged-in channel and the thread that drives it are. */
  datatype Place =
    | Out                                        // nobody is logged in
    | LoggingIn                                  // channel noted, its overrides not yet
    | Joining                                    // about to enter the holding bridge
    | Held(swapped: bool, alert: Option<bool>)   // in it; playing an alert when `alert` is set
    | Talking(swapped: bool)                     // moved into a caller's bridge
    | Left                                       // out of the bridging system
    | Cleaned                                    // last caller bridge cleared out
    | Quitting                                   // out of the driver loop, to log out

  datatype Taker = ByConnect | ByCleanup | ByLogout | ByAbort

  datatype Taking = Taking(bridge: nat, taker: Taker)

  /** The agent, and the fate of every caller bridge stored in it. */
  datatype Sys = Sys(a: Agent, place: Place, grants: seq<nat>, taken: seq<Taking>, lost: seq<nat>)

  datatype Event =
    | EvLogin(chan: nat, now: int)
    | EvConfigure(o: Overrides)
    | EvJoin(at: nat)
    | EvJoinFails
    | EvAbandon
    | EvLeave
    | EvLoseControl
    | EvSwap(chan: nat)
    | EvAlert
    | EvAlertEnd(now: int, moved: bool)
    | EvAck(moved: bool)
    | EvHeartbeat(at: nat)
    | EvRequest(bridge: nat)
    | EvAbort
    | EvLogoff(soft: bool)
    | EvCleanup(cfg: Config, now: int)
    | EvDecide(hungup: bool)
    | EvLogout
    | EvReload(cfg: Config)

  predicate Enabled(s: Sys, ev: Event) {
    match ev
    case EvConfigure(_) => s.place.LoggingIn?
    case EvJoin(_) => s.place.Joining?
    case EvJoinFails => s.place.Joining?
    case EvAbandon => s.place.Joining? || s.place.Left?
    case EvLeave => s.place.Held? || s.place.Talking?
    case EvLoseControl => (s.place.Held? || s.place.Talking?) && s.place.swapped
    case EvSwap(_) => s.place.Held?
    case EvAlert => s.place.Held?
    case EvAlertEnd(_, _) => s.place.Held? && s.place.alert.Some?
    case EvAck(_) => s.place.Held?
    case EvHeartbeat(_) => s.place.Held?
    case EvRequest(b) => b !in s.grants
    case EvCleanup(_, _) => s.place.Left?
    case EvDecide(_) => s.place.Cleaned?
    case EvLogout => s.place.Quitting?
    case _ => true
  }

  function Take(s: Sys, taker: Taker): seq<Taking> {
    if s.a.bridge.Some? then s.taken + [Taking(s.a.bridge.value, taker)] else s.taken
  }

  /** The channel goes after the caller's bridge it was given, if that works out. */
  function Connected(s: Sys, moved: bool): Sys
    requires s.place.Held?
  {
    var to := if s.a.bridge.Some? && moved then Talking(s.place.swapped) else Held(s.place.swapped, None);
    s.(a := Connect(s.a), place := to, taken := Take(s, ByConnect))
  }

  function AlertEnded(s: Sys, now: int, moved: bool): Sys
    requires s.place.Held? && s.place.alert.Some?
  {
    var ack := s.place.alert.value;
    if s.a.state.CallPresent? && !ack then Connected(s, moved)
    else s.(a := AlertEnd(s.a, ack, now), place := Held(s.place.swapped, None))
  }

  function Requested(s: Sys, b: nat): Sys {
    if !RequestAnswer(s.a).Granted? then s
    else s.(a := Request(s.a, b), grants := s.grants + [b],
            lost := if s.a.bridge.Some? then s.lost + [s.a.bridge.value] else s.lost)
  }

  function Step(s: Sys, ev: Event): Sys
    requires Enabled(s, ev)
  {
    match ev
    case EvLogin(chan, now) => if s.a.logged.Some? then s else s.(a := Login(s.a, chan, now), place := LoggingIn)
    case EvConfigure(o) => s.(a := s.a.(overrides := o), place := Joining)
    case EvJoin(at) => s.(a := Push(s.a, at), place := Held(false, None))
    case EvJoinFails => s.(place := Left)
    case EvAbandon => s.(place := Quitting)
    case EvLeave => s.(place := if s.place.swapped then Joining else Left)
    case EvLoseControl => s.(place := Quitting)
    case EvSwap(chan) => s.(a := s.a.(logged := Some(chan)), place := Held(true, None))
    case EvAlert => s.(place := Held(s.place.swapped, Some(AckNeeded(s.a))))
    case EvAlertEnd(now, moved) => AlertEnded(s, now, moved)
    case EvAck(moved) => if s.a.state.CallWaitAck? then Connected(s, moved) else s
    case EvHeartbeat(at) => s.(a := Heartbeat(s.a, at))
    case EvRequest(b) => Requested(s, b)
    case EvAbort => s.(a := Abort(s.a), taken := Take(s, ByAbort))
    case EvLogoff(soft) => s.(a := LogoffRequest(s.a, soft))
    case EvCleanup(cfg, now) => s.(a := Cleanup(s.a, cfg, now), place := Cleaned, taken := Take(s, ByCleanup))
    case EvDecide(hungup) => s.(place := if Leaving(s.a, hungup) then Quitting else Joining)
    case EvLogout => s.(a := Logout(s.a), place := Out, taken := Take(s, ByLogout))
    case EvReload(cfg) => s.(a := Reload(s.a, cfg))
  }

  function Initial(cfg: Config): Sys {
    Sys(Agent(None, LoggedOut, Unavailable, None, false, NO_OVERRIDES, cfg, 0, 0, 0), Out, [], [], [])
  }

  predicate Runs(s: Sys, evs: seq<Event>)
    decreases |evs|
  {
    evs == [] || (Enabled(s, evs[0]) && Runs(Step(s, evs[0]), evs[1..]))
  }

  /** The state before step `k` of a run. */
  function At(s: Sys, evs: seq<Event>, k: nat): (r: Sys)
    requires Runs(s, evs) && k <= |evs|
    ensures k < |evs| ==> Enabled(r, evs[k])
    decreases k
  {
    if k == 0 then s else At(Step(s, evs[0]), evs[1..], k - 1)
  }

  function After(s: Sys, evs: seq<Event>): Sys
    requires Runs(s, evs)
  {
    At(s, evs, |evs|)
  }

  lemma {:induction false} AtNext(s: Sys, evs: seq<Event>, k: nat)
    requires Runs(s, evs) && k < |evs|
    ensures At(s, evs, k + 1) == Step(At(s, evs, k), evs[k])
    decreases k
  {
    if k > 0 { AtNext(Step(s, evs[0]), evs[1..], k - 1); }
  }

  /** What is left of a run is a run from there. */
  lemma {:induction false} AtLater(s: Sys, evs: seq<Event>, j: nat, i: nat)
    requires Runs(s, evs) && j + i <= |evs|
    ensures Runs(At(s, evs, j), evs[j..]) && At(At(s, evs, j), evs[j..], i) == At(s, evs, j + i)
    decreases j
  {
    if j == 0 {
      assert evs[0..] == evs;
    } else {
      AtLater(Step(s, evs[0]), evs[1..], j - 1, i);
      assert evs[1..][j - 1..] == evs[j..];
    }
  }

  lemma ThreeSteps(s: Sys, e0: Event, e1: Event, e2: Event)
    requires Enabled(s, e0) && Enabled(Step(s, e0), e1) && Enabled(Step(Step(s, e0), e1), e2)
    ensures Runs(s, [e0, e1, e2]) && After(s, [e0, e1, e2]) == Step(Step(Step(s, e0), e1), e2)
  {
    var evs := [e0, e1, e2];
    assert evs[1..] == [e1, e2] && [e1, e2][1..] == [e2] && [e2][1..] == [];
    assert Runs(Step(Step(s, e0), e1), [e2]);
    AtNext(s, evs, 0);
    AtNext(s, evs, 1);
    AtNext(s, evs, 2);
  }

  lemma FourSteps(s: Sys, e0: Event, e1: Event, e2: Event, e3: Event)
    requires Enabled(s, e0) && Enabled(Step(s, e0), e1) && Enabled(Step(Step(s, e0), e1), e2)
    requires Enabled(Step(Step(Step(s, e0), e1), e2), e3)
    ensures Runs(s, [e0, e1, e2, e3]) && After(s, [e0, e1, e2, e3]) == Step(Step(Step(Step(s, e0), e1), e2), e3)
  {
    ThreeSteps(Step(s, e0), e1, e2, e3);
    assert [e0, e1, e2, e3][1..] == [e1, e2, e3];
  }

  // ---- What every state keeps -------------------------------------------------------

  predicate DeviceMatches(state: State, device: DeviceState) {
    match state
    case LoggedOut => device.Unavailable?
    case ProbationWait => device.Unavailable?
    case ReadyForCall => device.NotInUse?
    case LoggingOut => true
    case _ => device.InUse?
  }

  predicate NoCaller(state: State) {
    state.LoggedOut? || state.ProbationWait? || state.OnCall? || state.CallWrapup?
  }

  predicate Consistent(a: Agent) {
    && (!a.state.LoggedOut? ==> a.logged.Some?)
    && (NoCaller(a.state) ==> a.bridge.None?)
    && DeviceMatches(a.state, a.device)
  }

  /** The record fits where the channel is. */
  predicate Placed(a: Agent, place: Place) {
    match place
    case Out => a.logged.None?
    case LoggingIn => a.logged.Some? && a.state.LoggedOut?
    case Held(_, alert) =>
      && a.logged.Some? && !a.state.LoggedOut?
      && (alert.Some? ==> alert.value == AckNeeded(a))
      && (a.state.CallWaitAck? ==> AckNeeded(a))
    case Talking(_) => a.logged.Some? && a.state.OnCall?
    case _ => a.logged.Some?
  }

  predicate Inv(s: Sys) {
    Consistent(s.a) && Placed(s.a, s.place)
  }

  lemma PushKeepsInv(s: Sys, at: nat)
    requires Inv(s) && s.place.Joining?
    ensures Inv(Step(s, EvJoin(at)))
  {
  }

  lemma HeartbeatKeepsInv(s: Sys, at: nat)
    requires Inv(s) && s.place.Held?
    ensures Inv(Step(s, EvHeartbeat(at)))
  {
  }

  lemma ConnectedKeepsInv(s: Sys, moved: bool)
    requires Inv(s) && s.place.Held? && (s.a.state.CallPresent? || s.a.state.CallWaitAck?)
    ensures Inv(Connected(s, moved))
  {
  }

  lemma AlertEndKeepsInv(s: Sys, now: int, moved: bool)
    requires Inv(s) && s.place.Held? && s.place.alert.Some?
    ensures Inv(AlertEnded(s, now, moved))
  {
    if s.a.state.CallPresent? && !s.place.alert.value { ConnectedKeepsInv(s, moved); }
  }

  lemma RequestKeepsInv(s: Sys, b: nat)
    requires Inv(s)
    ensures Inv(Requested(s, b))
  {
  }

  predicate CallEvent(ev: Event) {
    ev.EvJoin? || ev.EvHeartbeat? || ev.EvAlertEnd? || ev.EvAck? || ev.EvRequest?
  }

  lemma CallStepKeepsInv(s: Sys, ev: Event)
    requires Inv(s) && Enabled(s, ev) && CallEvent(ev)
    ensures Inv(Step(s, ev))
  {
    match ev {
      case EvJoin(at) => PushKeepsInv(s, at);
      case EvHeartbeat(at) => HeartbeatKeepsInv(s, at);
      case EvAlertEnd(now, moved) => AlertEndKeepsInv(s, now, moved);
      case EvAck(moved) => if s.a.state.CallWaitAck? { ConnectedKeepsInv(s, moved); }
      case EvRequest(b) => RequestKeepsInv(s, b);
    }
  }

  lemma OtherStepKeepsInv(s: Sys, ev: Event)
    requires Inv(s) && Enabled(s, ev) && !CallEvent(ev)
    ensures Inv(Step(s, ev))
  {
  }

  lemma StepKeepsInv(s: Sys, ev: Event)
    requires Inv(s) && Enabled(s, ev)
    ensures Inv(Step(s, ev))
  {
    if CallEvent(ev) { CallStepKeepsInv(s, ev); } else { OtherStepKeepsInv(s, ev); }
  }

  lemma {:induction false} RunKeepsInv(s: Sys, evs: seq<Event>, k: nat)
    requires Inv(s) && Runs(s, evs) && k <= |evs|
    ensures Inv(At(s, evs, k))
    decreases k
  {
    if k > 0 {
      StepKeepsInv(s, evs[0]);
      RunKeepsInv(Step(s, evs[0]), evs[1..], k - 1);
    }
  }

  /** Whatever the interleaving: who is logged in, whose bridge is stored, what the device shows. */
  lemma ReachableAgents(cfg: Config, evs: seq<Event>)
    requires Runs(Initial(cfg), evs)
    ensures var a := After(Initial(cfg), evs).a;
            && (a.state != LoggedOut ==> a.logged.Some?)
            && (a.state in {LoggedOut, ProbationWait, OnCall, CallWrapup} ==> a.bridge == None)
            && (a.state in {LoggedOut, ProbationWait} ==> a.device == Unavailable)
            && (a.state == ReadyForCall ==> a.device == NotInUse)
            && (a.state in {CallPresent, CallWaitAck, OnCall, CallWrapup} ==> a.device == InUse)
  {
    RunKeepsInv(Initial(cfg), evs, |evs|);
  }

  /** The steps do to the record what the locked sections do. */
  lemma StepsAreSections(s: Sys, ev: Event)
    requires Inv(s) && Enabled(s, ev)
    ensures ev.EvLogin? ==> Step(s, ev).a == Login(s.a, ev.chan, ev.now)
    ensures ev.EvAck? ==> Step(s, ev).a == AckDigit(s.a)
    ensures ev.EvAlertEnd? ==> Step(s, ev).a == AlertEnd(s.a, AckNeeded(s.a), ev.now)
    ensures ev.EvRequest? ==> Step(s, ev).a == Request(s.a, ev.bridge)
  {
  }
}
