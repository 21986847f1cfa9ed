/**
 * An agent's record read off the history (apps/app_agent_pool.c): which event leads into which state,
 * which event every field of the record comes from, and what the three timers of the heartbeat count.
 */
module AgentHistory {
  import opened Options
  import opened AgentPool
  import opened AgentRuns

  /** What the login channel asks for goes before the configuration. */
  predicate InForce<T(==)>(asked: Option<T>, configured: T, v: T) {
    match asked
    case Some(x) => v == x
    case None => v == configured
  }

  predicate WrapupIs(a: Agent, wrapup: nat) {
    InForce(a.overrides.wrapupTime, a.cfg.wrapupTime, wrapup)
  }

  predicate LimitIs(a: Agent, limit: nat) {
    InForce(a.overrides.autoLogoff, a.cfg.autoLogoff, limit)
  }

  /** Calls are to be accepted by digits, and there are some. */
  predicate Accepting(a: Agent, ack: bool, digits: string) {
    InForce(a.overrides.ackCall, a.cfg.ackCall, ack) && InForce(a.overrides.dtmfAccept, a.cfg.dtmfAccept, digits)
  }

  // ---- The events that lead into a state ------------------------------------------------

  /** The step leads from another state into this one. */
  predicate Enters(s: Sys, ev: Event, state: State)
    requires Enabled(s, ev)
  {
    s.a.state != state && Step(s, ev).a.state == state
  }

  /** In every state that keeps the invariant: the events that log an agent in and out, and no others. */
  lemma LoginStatesEntered(s: Sys, ev: Event)
    requires Inv(s) && Enabled(s, ev)
    ensures Enters(s, ev, LoggedOut) <==> s.a.state != LoggedOut && ev.EvLogout?
    ensures Enters(s, ev, ProbationWait) <==> s.a.state == LoggedOut && ev.EvJoin?
  {
  }

  /** The events that make an agent ready for calls. */
  lemma ReadyEntered(s: Sys, ev: Event, wrapup: nat)
    requires Inv(s) && Enabled(s, ev) && WrapupIs(s.a, wrapup)
    ensures Enters(s, ev, ReadyForCall) <==>
              || (ev.EvJoin? && s.a.state in {CallPresent, CallWaitAck, LoggingOut})
              || (ev.EvJoin? && s.a.state in {OnCall, CallWrapup} && wrapup == 0)
              || (ev.EvHeartbeat? && !s.a.deferred
                  && ((s.a.state == ProbationWait && ev.at / 1000 - s.a.probationStart >= 5)
                      || (s.a.state == CallWrapup && ev.at - s.a.lastDisconnect > wrapup)))
  {
  }

  /** The events that bring an agent a call. */
  lemma CallEntered(s: Sys, ev: Event, ack: bool, digits: string)
    requires Inv(s) && Enabled(s, ev) && Accepting(s.a, ack, digits)
    ensures Enters(s, ev, CallPresent) <==> s.a.state == ReadyForCall && ev.EvRequest?
    ensures Enters(s, ev, CallWaitAck) <==> s.a.state == CallPresent && ev.EvAlertEnd? && ack && digits != ""
    ensures Enters(s, ev, OnCall) <==>
              || (s.a.state == CallPresent && ev.EvAlertEnd? && !(ack && digits != ""))
              || (s.a.state == CallWaitAck && ev.EvAck?)
  {
  }

  /** The events that end a call or a login. */
  lemma CallLeft(s: Sys, ev: Event, wrapup: nat, limit: nat)
    requires Inv(s) && Enabled(s, ev) && WrapupIs(s.a, wrapup) && LimitIs(s.a, limit)
    ensures Enters(s, ev, CallWrapup) <==> s.a.state == OnCall && ev.EvJoin? && wrapup != 0
    ensures Enters(s, ev, LoggingOut) <==>
              && s.a.state != LoggingOut && ev.EvHeartbeat?
              && (s.a.deferred || (s.a.state == CallWaitAck && limit != 0
                                   && ev.at - s.a.ackTime > limit * 1000 % 0x1_0000_0000))
  {
  }

  /** The events that take the channel out of the driver loop, and those that take it into a caller's bridge. */
  lemma PlacesEntered(s: Sys, ev: Event)
    requires Inv(s) && Enabled(s, ev)
    ensures Step(s, ev).place.Quitting? && !s.place.Quitting? <==>
              || ev.EvAbandon? || ev.EvLoseControl?
              || (ev.EvDecide? && (ev.hungup || s.a.deferred || s.a.state == LoggingOut))
    ensures Step(s, ev).place.Talking? && !s.place.Talking? <==>
              && s.a.state in {CallPresent, CallWaitAck} && s.a.bridge.Some? && Step(s, ev).a.state == OnCall
              && ((ev.EvAlertEnd? && ev.moved) || (ev.EvAck? && ev.moved))
  {
  }

  /** The events that send the channel into the holding bridge, and those that let it out. */
  lemma HoldingEntered(s: Sys, ev: Event)
    requires Inv(s) && Enabled(s, ev)
    ensures Step(s, ev).place.Joining? && !s.place.Joining? <==>
              || ev.EvConfigure?
              || (ev.EvLeave? && s.place.swapped)
              || (ev.EvDecide? && !ev.hungup && !s.a.deferred && s.a.state != LoggingOut)
    ensures Step(s, ev).place.Left? && !s.place.Left? <==> ev.EvJoinFails? || (ev.EvLeave? && !s.place.swapped)
    ensures Step(s, ev).place.Held? && !s.place.Held? <==> ev.EvJoin?
  {
  }

  /** A login begins with its channel noted, and ends with nobody logged in; clean-up comes after leaving. */
  lemma LoginPlacesEntered(s: Sys, ev: Event)
    requires Inv(s) && Enabled(s, ev)
    ensures Step(s, ev).place.LoggingIn? && !s.place.LoggingIn? <==> ev.EvLogin? && s.a.logged.None?
    ensures Step(s, ev).place.Out? && !s.place.Out? <==> ev.EvLogout?
    ensures Step(s, ev).place.Cleaned? && !s.place.Cleaned? <==> ev.EvCleanup?
  {
  }

  // ---- Where the fields come from -----------------------------------------------------------

  /** The value is what the last event that sets it said, or the first one when there was none. */
  ghost predicate LastSaid<T(!new)>(s: Sys, evs: seq<Event>, k: nat, says: (Sys, Event) -> Option<T>, first: T, v: T)
    requires Runs(s, evs) && k <= |evs|
  {
    || (v == first && forall i :: 0 <= i < k ==> says(At(s, evs, i), evs[i]).None?)
    || exists j :: LastAt(s, evs, k, says, v, j)
  }

  ghost predicate LastAt<T(!new)>(s: Sys, evs: seq<Event>, k: nat, says: (Sys, Event) -> Option<T>, v: T, j: int)
    requires Runs(s, evs) && k <= |evs|
  {
    && 0 <= j < k && says(At(s, evs, j), evs[j]) == Some(v)
    && forall i :: j < i < k ==> says(At(s, evs, i), evs[i]).None?
  }

  /** Each step leaves the field alone or sets it to what its event says. */
  ghost predicate Sets<T(!new)>(says: (Sys, Event) -> Option<T>, get: Sys -> T) {
    forall s, ev :: Inv(s) && Enabled(s, ev) ==>
      get(Step(s, ev)) == if says(s, ev).Some? then says(s, ev).value else get(s)
  }

  lemma {:induction false} FieldFollows<T(!new)>(
    s: Sys, evs: seq<Event>, k: nat, says: (Sys, Event) -> Option<T>, get: Sys -> T)
    requires Inv(s) && Runs(s, evs) && k <= |evs| && Sets(says, get)
    ensures LastSaid(s, evs, k, says, get(s), get(At(s, evs, k)))
    decreases k
  {
    if k > 0 {
      var n := k - 1;
      FieldFollows(s, evs, n, says, get);
      RunKeepsInv(s, evs, n);
      AtNext(s, evs, n);
      var v := get(At(s, evs, n));
      if says(At(s, evs, n), evs[n]).Some? {
        assert LastAt(s, evs, k, says, get(At(s, evs, k)), n);
      } else if exists j :: LastAt(s, evs, n, says, v, j) {
        var j :| LastAt(s, evs, n, says, v, j);
        assert LastAt(s, evs, k, says, v, j);
      }
    }
  }

  function SaysLogged(s: Sys, ev: Event): Option<Option<nat>> {
    match ev
    case EvLogin(chan, _) => if s.a.logged.None? then Some(Some(chan)) else None
    case EvSwap(chan) => Some(Some(chan))
    case EvLogout => Some(None)
    case _ => None
  }

  function SaysDeferred(s: Sys, ev: Event): Option<bool> {
    match ev
    case EvLogoff(soft) => if soft && s.a.logged.Some? then Some(true) else None
    case EvLogin(_, _) => if s.a.logged.None? then Some(false) else None
    case _ => None
  }

  function SaysOverrides(s: Sys, ev: Event): Option<Overrides> {
    match ev
    case EvConfigure(o) => Some(o)
    case EvLogout => Some(Overrides(None, None, None, None))
    case _ => None
  }

  function SaysConfig(s: Sys, ev: Event): Option<Config> {
    match ev
    case EvCleanup(cfg, _) => Some(cfg)
    case EvReload(cfg) => if s.a.logged.None? then Some(cfg) else None
    case _ => None
  }

  /** The join that starts the probation, or starts it over. */
  function SaysProbation(s: Sys, ev: Event): Option<nat> {
    if ev.EvJoin? && (s.a.state == LoggedOut || s.a.state == ProbationWait) then Some(ev.at / 1000) else None
  }

  function SaysDisconnect(s: Sys, ev: Event): Option<int> {
    match ev
    case EvLogin(_, now) => if s.a.logged.None? then Some(now) else None
    case EvCleanup(_, now) => Some(now)
    case _ => None
  }

  lemma SaysWho()
    ensures Sets(SaysLogged, (s: Sys) => s.a.logged)
    ensures Sets(SaysDeferred, (s: Sys) => s.a.deferred)
  {
  }

  lemma SaysSettings()
    ensures Sets(SaysOverrides, (s: Sys) => s.a.overrides)
    ensures Sets(SaysConfig, (s: Sys) => s.a.cfg)
  {
  }

  lemma SaysTimes()
    ensures Sets(SaysProbation, (s: Sys) => s.a.probationStart)
    ensures Sets(SaysDisconnect, (s: Sys) => s.a.lastDisconnect)
  {
  }

  /**
   * Over every run: who is logged in, whether a logoff is deferred, the settings of the login channel, the
   * configuration and the two clocks are what the last event about each of them said.
   */
  lemma RecordFollowsHistory(cfg: Config, evs: seq<Event>, k: nat)
    requires Runs(Initial(cfg), evs) && k <= |evs|
    ensures var s, a := Initial(cfg), At(Initial(cfg), evs, k).a;
            && LastSaid(s, evs, k, SaysLogged, None, a.logged)
            && LastSaid(s, evs, k, SaysDeferred, false, a.deferred)
            && LastSaid(s, evs, k, SaysOverrides, Overrides(None, None, None, None), a.overrides)
            && LastSaid(s, evs, k, SaysConfig, cfg, a.cfg)
            && LastSaid(s, evs, k, SaysProbation, 0, a.probationStart)
            && LastSaid(s, evs, k, SaysDisconnect, 0, a.lastDisconnect)
  {
    var s := Initial(cfg);
    SaysWho();
    SaysSettings();
    SaysTimes();
    FieldFollows(s, evs, k, SaysLogged, (s: Sys) => s.a.logged);
    FieldFollows(s, evs, k, SaysDeferred, (s: Sys) => s.a.deferred);
    FieldFollows(s, evs, k, SaysOverrides, (s: Sys) => s.a.overrides);
    FieldFollows(s, evs, k, SaysConfig, (s: Sys) => s.a.cfg);
    FieldFollows(s, evs, k, SaysProbation, (s: Sys) => s.a.probationStart);
    FieldFollows(s, evs, k, SaysDisconnect, (s: Sys) => s.a.lastDisconnect);
  }

  // ---- The three timers -----------------------------------------------------------------------

  /** The state at every point after step `j` up to `k`. */
  ghost predicate Throughout(s: Sys, evs: seq<Event>, j: nat, k: nat, state: State)
    requires Runs(s, evs) && k <= |evs|
  {
    forall i :: j < i <= k ==> At(s, evs, i).a.state == state
  }

  lemma WaitStep(s: Sys, ev: Event)
    requires Inv(s) && Enabled(s, ev) && Step(s, ev).a.state == CallWaitAck
    ensures if s.a.state == CallWaitAck then Step(s, ev).a.ackTime == s.a.ackTime
            else s.a.state == CallPresent && ev.EvAlertEnd? && Step(s, ev).a.ackTime == ev.now
  {
  }

  /** The end of the alert that began the wait for an acknowledgement. */
  lemma {:induction false} WaitBegan(cfg: Config, evs: seq<Event>, k: nat) returns (j: nat)
    requires Runs(Initial(cfg), evs) && k <= |evs| && At(Initial(cfg), evs, k).a.state == CallWaitAck
    ensures j < k && evs[j].EvAlertEnd? && At(Initial(cfg), evs, j).a.state == CallPresent
    ensures Throughout(Initial(cfg), evs, j, k, CallWaitAck)
    ensures At(Initial(cfg), evs, k).a.ackTime == evs[j].now
    decreases k
  {
    var n := k - 1;
    RunKeepsInv(Initial(cfg), evs, n);
    AtNext(Initial(cfg), evs, n);
    WaitStep(At(Initial(cfg), evs, n), evs[n]);
    if At(Initial(cfg), evs, n).a.state == CallWaitAck {
      j := WaitBegan(cfg, evs, n);
    } else {
      j := n;
    }
  }

  /**
   * A heartbeat ends the wait for an acknowledgement if and only if a logoff is deferred, or there is a
   * limit and more than that many seconds, counted as 32-bit milliseconds, have passed since the alert ended.
   */
  lemma AcknowledgeLimit(cfg: Config, evs: seq<Event>, k: nat, limit: nat) returns (j: nat)
    requires Runs(Initial(cfg), evs) && k < |evs| && evs[k].EvHeartbeat?
    requires At(Initial(cfg), evs, k).a.state == CallWaitAck && LimitIs(At(Initial(cfg), evs, k).a, limit)
    ensures j < k && evs[j].EvAlertEnd? && At(Initial(cfg), evs, j).a.state == CallPresent
    ensures Throughout(Initial(cfg), evs, j, k, CallWaitAck)
    ensures At(Initial(cfg), evs, k + 1).a.state ==
              if At(Initial(cfg), evs, k).a.deferred
                 || (limit != 0 && evs[k].at - evs[j].now > limit * 1000 % 0x1_0000_0000)
              then LoggingOut else CallWaitAck
  {
    j := WaitBegan(cfg, evs, k);
    AtNext(Initial(cfg), evs, k);
  }

  lemma ProbationStep(s: Sys, ev: Event)
    requires Inv(s) && Enabled(s, ev) && Step(s, ev).a.state == ProbationWait
    ensures if ev.EvJoin? then s.a.state in {LoggedOut, ProbationWait} && Step(s, ev).a.probationStart == ev.at / 1000
            else s.a.state == ProbationWait && Step(s, ev).a.probationStart == s.a.probationStart
  {
  }

  /** The last join of the probation, which set its clock. */
  lemma {:induction false} ProbationBegan(cfg: Config, evs: seq<Event>, k: nat) returns (j: nat)
    requires Runs(Initial(cfg), evs) && k <= |evs| && At(Initial(cfg), evs, k).a.state == ProbationWait
    ensures j < k && evs[j].EvJoin? && forall i :: j < i < k ==> !evs[i].EvJoin?
    ensures Throughout(Initial(cfg), evs, j, k, ProbationWait)
    ensures At(Initial(cfg), evs, k).a.probationStart == evs[j].at / 1000
    decreases k
  {
    var n := k - 1;
    RunKeepsInv(Initial(cfg), evs, n);
    AtNext(Initial(cfg), evs, n);
    ProbationStep(At(Initial(cfg), evs, n), evs[n]);
    if evs[n].EvJoin? {
      j := n;
    } else {
      j := ProbationBegan(cfg, evs, n);
    }
  }

  /**
   * A heartbeat ends the probation if and only if no logoff is deferred and at least five whole seconds
   * lie between the last join and it; with a deferred logoff it starts the logout.
   */
  lemma ProbationLimit(cfg: Config, evs: seq<Event>, k: nat) returns (j: nat)
    requires Runs(Initial(cfg), evs) && k < |evs| && evs[k].EvHeartbeat?
    requires At(Initial(cfg), evs, k).a.state == ProbationWait
    ensures j < k && evs[j].EvJoin? && forall i :: j < i < k ==> !evs[i].EvJoin?
    ensures Throughout(Initial(cfg), evs, j, k, ProbationWait)
    ensures At(Initial(cfg), evs, k + 1).a.state ==
              if At(Initial(cfg), evs, k).a.deferred then LoggingOut
              else if evs[k].at / 1000 - evs[j].at / 1000 >= 5 then ReadyForCall
              else ProbationWait
  {
    j := ProbationBegan(cfg, evs, k);
    AtNext(Initial(cfg), evs, k);
  }

  lemma ClockSet(cfg: Config, evs: seq<Event>, k: nat) returns (j: nat)
    requires Runs(Initial(cfg), evs) && k <= |evs| && At(Initial(cfg), evs, k).a.state == CallWrapup
    ensures j < k && LastAt(Initial(cfg), evs, k, SaysDisconnect, At(Initial(cfg), evs, k).a.lastDisconnect, j)
  {
    RunKeepsInv(Initial(cfg), evs, k);
    RecordFollowsHistory(cfg, evs, k);
    var s, a := Initial(cfg), At(Initial(cfg), evs, k).a;
    if forall i :: 0 <= i < k ==> SaysDisconnect(At(s, evs, i), evs[i]).None? {
      LoginNeeded(cfg, evs, k);
    }
    j :| LastAt(s, evs, k, SaysDisconnect, a.lastDisconnect, j);
  }

  /** Nobody is logged in who has not come through a login. */
  lemma {:induction false} LoginNeeded(cfg: Config, evs: seq<Event>, k: nat)
    requires Runs(Initial(cfg), evs) && k <= |evs|
    requires forall i :: 0 <= i < k ==> SaysDisconnect(At(Initial(cfg), evs, i), evs[i]).None?
    ensures At(Initial(cfg), evs, k).a.logged.None?
    decreases k
  {
    if k > 0 {
      LoginNeeded(cfg, evs, k - 1);
      RunKeepsInv(Initial(cfg), evs, k - 1);
      AtNext(Initial(cfg), evs, k - 1);
      assert SaysDisconnect(At(Initial(cfg), evs, k - 1), evs[k - 1]).None?;
    }
  }

  /**
   * A heartbeat ends the wrap-up if and only if no logoff is deferred and more than the wrap-up time has
   * passed since the last time the agent logged in or came back from a call, whichever was later.
   */
  lemma WrapupLimit(cfg: Config, evs: seq<Event>, k: nat, wrapup: nat) returns (j: nat)
    requires Runs(Initial(cfg), evs) && k < |evs| && evs[k].EvHeartbeat?
    requires At(Initial(cfg), evs, k).a.state == CallWrapup && WrapupIs(At(Initial(cfg), evs, k).a, wrapup)
    ensures j < k && (evs[j].EvCleanup? || (evs[j].EvLogin? && At(Initial(cfg), evs, j).a.logged.None?))
    ensures forall i :: j < i < k ==> SaysDisconnect(At(Initial(cfg), evs, i), evs[i]).None?
    ensures At(Initial(cfg), evs, k + 1).a.state ==
              if At(Initial(cfg), evs, k).a.deferred then LoggingOut
              else if evs[k].at - evs[j].now > wrapup then ReadyForCall
              else CallWrapup
  {
    j := ClockSet(cfg, evs, k);
    AtNext(Initial(cfg), evs, k);
  }

  /** What a caller is told: the agent is there, is not logged in, or is busy. */
  lemma CallersAreTold(a: Agent)
    ensures RequestAnswer(a) == NotLoggedIn <==> a.state in {LoggedOut, LoggingOut}
    ensures RequestAnswer(a) == Granted <==> a.state == ReadyForCall
    ensures RequestAnswer(a) == Busy <==> a.state in {ProbationWait, CallPresent, CallWaitAck, OnCall, CallWrapup}
  {
  }
}
