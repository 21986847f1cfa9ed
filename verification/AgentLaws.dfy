/** Laws of whole agent runs (apps/app_agent_pool.c): logging out, wrapping up, acknowledging. */
module AgentLaws {
  import opened Options
  import opened AgentPool
  import opened AgentRuns

  ghost predicate NoSwap(evs: seq<Event>) {
    forall i :: 0 <= i < |evs| ==> !evs[i].EvSwap?
  }

  ghost predicate NoLogout(evs: seq<Event>) {
    forall i :: 0 <= i < |evs| ==> !evs[i].EvLogout?
  }

  // ---- LOGGING_OUT ends in a logout --------------------------------------------------

  /** Nobody took the channel's place, and one being logged out is not on its way back in. */
  predicate Steady(s: Sys) {
    && (s.place.Held? || s.place.Talking? ==> !s.place.swapped)
    && (s.a.state.LoggingOut? ==> s.place.Held? || s.place.Left? || s.place.Cleaned? || s.place.Quitting?)
  }

  lemma StepKeepsSteady(s: Sys, ev: Event)
    requires Inv(s) && Steady(s) && Enabled(s, ev) && !ev.EvSwap?
    ensures Steady(Step(s, ev))
  {
  }

  lemma {:induction false} RunKeepsSteady(s: Sys, evs: seq<Event>, k: nat)
    requires Inv(s) && Steady(s) && Runs(s, evs) && NoSwap(evs) && k <= |evs|
    ensures Inv(At(s, evs, k)) && Steady(At(s, evs, k))
    decreases k
  {
    if k > 0 {
      StepKeepsInv(s, evs[0]);
      StepKeepsSteady(s, evs[0]);
      RunKeepsSteady(Step(s, evs[0]), evs[1..], k - 1);
    }
  }

  lemma LoggingOutStep(s: Sys, ev: Event)
    requires Inv(s) && Steady(s) && Enabled(s, ev) && !ev.EvSwap? && s.a.state.LoggingOut?
    ensures Step(s, ev).a.state.LoggingOut? || ev.EvLogout?
    ensures !ev.EvJoin?
  {
  }

  /** Without swaps, only a logout ends LOGGING_OUT, and no such agent enters the holding bridge. */
  lemma LoggingOutEndsInLogout(cfg: Config, evs: seq<Event>, k: nat)
    requires Runs(Initial(cfg), evs) && NoSwap(evs) && k < |evs|
    ensures var before, after := At(Initial(cfg), evs, k), At(Initial(cfg), evs, k + 1);
            before.a.state == LoggingOut ==> (after.a.state == LoggingOut || evs[k] == EvLogout) && !evs[k].EvJoin?
  {
    RunKeepsSteady(Initial(cfg), evs, k);
    AtNext(Initial(cfg), evs, k);
    var before := At(Initial(cfg), evs, k);
    if before.a.state.LoggingOut? { LoggingOutStep(before, evs[k]); }
  }

  /** With a swap the agent being logged out comes back into the holding bridge, ready for calls. */
  lemma SwapRevivesAgent(s: Sys, chan: nat, at: nat)
    requires Inv(s) && s.place.Held? && s.a.state == LoggingOut
    ensures var evs := [EvSwap(chan), EvLeave, EvJoin(at)];
            Runs(s, evs) && After(s, evs).a == Ready(s.a.(logged := Some(chan)))
  {
    ThreeSteps(s, EvSwap(chan), EvLeave, EvJoin(at));
  }

  /** A channel that took another's place leaves the holding bridge while its agent is being logged out. */
  predicate SwappedLeave(s: Sys, ev: Event) {
    ev.EvLeave? && s.place.Held? && s.place.swapped && s.a.state.LoggingOut?
  }

  lemma JoiningStep(s: Sys, ev: Event)
    requires Inv(s) && Enabled(s, ev)
    requires Step(s, ev).place.Joining? && Step(s, ev).a.state.LoggingOut?
    ensures SwappedLeave(s, ev) || (s.place.Joining? && s.a.state.LoggingOut?)
  {
  }

  /** On its way into the holding bridge an agent being logged out has come straight from such a leave. */
  lemma {:induction false} CameFromSwap(cfg: Config, evs: seq<Event>, k: nat) returns (j: nat)
    requires Runs(Initial(cfg), evs) && k <= |evs|
    requires At(Initial(cfg), evs, k).place.Joining? && At(Initial(cfg), evs, k).a.state == LoggingOut
    ensures j < k && SwappedLeave(At(Initial(cfg), evs, j), evs[j])
    ensures forall i :: j < i <= k ==> At(Initial(cfg), evs, i).place.Joining?
    decreases k
  {
    RunKeepsInv(Initial(cfg), evs, k - 1);
    AtNext(Initial(cfg), evs, k - 1);
    var before := At(Initial(cfg), evs, k - 1);
    JoiningStep(before, evs[k - 1]);
    if SwappedLeave(before, evs[k - 1]) {
      j := k - 1;
    } else {
      j := CameFromSwap(cfg, evs, k - 1);
    }
  }

  lemma LeavesLoggingOut(s: Sys, ev: Event)
    requires Inv(s) && Enabled(s, ev) && s.a.state.LoggingOut?
    ensures Step(s, ev).a.state.LoggingOut? || ev.EvLogout? <==> !ev.EvJoin?
  {
  }

  /** Such a leave at step `j`, and nothing but waiting to join from there up to step `k`. */
  ghost predicate SwappedSince(cfg: Config, evs: seq<Event>, j: nat, k: nat)
    requires Runs(Initial(cfg), evs) && k <= |evs|
  {
    && j < k && SwappedLeave(At(Initial(cfg), evs, j), evs[j])
    && forall i :: j < i <= k ==> At(Initial(cfg), evs, i).place.Joining?
  }

  /**
   * In every run, a step in LOGGING_OUT stays there or logs out, unless the agent joins the holding
   * bridge straight after a channel that had been swapped in left it.
   */
  lemma LoggingOutEndsExactly(cfg: Config, evs: seq<Event>, k: nat)
    requires Runs(Initial(cfg), evs) && k < |evs| && At(Initial(cfg), evs, k).a.state == LoggingOut
    ensures At(Initial(cfg), evs, k + 1).a.state == LoggingOut || evs[k] == EvLogout
       <==> !(evs[k].EvJoin? && exists j :: SwappedSince(cfg, evs, j, k))
  {
    RunKeepsInv(Initial(cfg), evs, k);
    AtNext(Initial(cfg), evs, k);
    LeavesLoggingOut(At(Initial(cfg), evs, k), evs[k]);
    if evs[k].EvJoin? {
      var j := CameFromSwap(cfg, evs, k);
      assert SwappedSince(cfg, evs, j, k);
    }
  }

  // ---- A soft logoff -----------------------------------------------------------------

  /** A logoff is deferred, and the agent has been in the holding bridge in this login. */
  predicate Asked(s: Sys) {
    s.a.deferred && !s.place.Out? && !s.place.LoggingIn? && !s.place.Joining?
  }

  lemma StepKeepsAsked(s: Sys, ev: Event)
    requires Inv(s) && Steady(s) && Asked(s) && Enabled(s, ev) && !ev.EvSwap? && !ev.EvLogout?
    ensures Asked(Step(s, ev)) && !ev.EvJoin?
  {
  }

  /**
   * Once a logoff is deferred for an agent who is held, on a call or between the two, the agent does
   * not enter the holding bridge again before logging out.
   */
  lemma {:induction false} SoftLogoffEndsLogin(s: Sys, evs: seq<Event>)
    requires Inv(s) && Steady(s) && Asked(s) && Runs(s, evs) && NoSwap(evs) && NoLogout(evs)
    ensures forall i :: 0 <= i < |evs| ==> !evs[i].EvJoin?
    decreases |evs|
  {
    if evs != [] {
      StepKeepsInv(s, evs[0]);
      StepKeepsSteady(s, evs[0]);
      StepKeepsAsked(s, evs[0]);
      SoftLogoffEndsLogin(Step(s, evs[0]), evs[1..]);
      assert forall i :: 0 < i < |evs| ==> evs[i] == evs[1..][i - 1];
    }
  }

  // ---- After a call ------------------------------------------------------------------

  predicate AfterCall(a: Agent) {
    a.state.OnCall? || a.state.CallWrapup?
  }

  /** The two ways to be ready again after a call. */
  predicate Rested(s: Sys, ev: Event) {
    || (ev.EvHeartbeat? && s.a.state.CallWrapup? && WrapupOver(s.a, ev.at))
    || (ev.EvJoin? && WrapupTime(s.a) == 0)
  }

  lemma AfterCallStep(s: Sys, ev: Event)
    requires Inv(s) && Enabled(s, ev) && !ev.EvLogout? && AfterCall(s.a)
    ensures var a := Step(s, ev).a;
            AfterCall(a) || a.state.LoggingOut? || (a.state.ReadyForCall? && Rested(s, ev))
  {
  }

  lemma {:induction false} StaysLoggingOut(s: Sys, evs: seq<Event>)
    requires Inv(s) && Steady(s) && Runs(s, evs) && NoSwap(evs) && NoLogout(evs) && s.a.state.LoggingOut?
    ensures After(s, evs).a.state.LoggingOut?
    decreases |evs|
  {
    if evs != [] {
      StepKeepsInv(s, evs[0]);
      StepKeepsSteady(s, evs[0]);
      LoggingOutStep(s, evs[0]);
      StaysLoggingOut(Step(s, evs[0]), evs[1..]);
    }
  }

  lemma {:induction false} RestedFrom(s: Sys, evs: seq<Event>) returns (k: nat)
    requires Inv(s) && Steady(s) && Runs(s, evs) && NoSwap(evs) && NoLogout(evs)
    requires AfterCall(s.a) && After(s, evs).a.state == ReadyForCall
    ensures k < |evs| && Rested(At(s, evs, k), evs[k]) && At(s, evs, k + 1).a.state == ReadyForCall
    ensures forall j :: 0 <= j <= k ==> AfterCall(At(s, evs, j).a)
    decreases |evs|
  {
    var s1 := Step(s, evs[0]);
    StepKeepsInv(s, evs[0]);
    StepKeepsSteady(s, evs[0]);
    AfterCallStep(s, evs[0]);
    assert At(s, evs, 1) == s1;
    if AfterCall(s1.a) {
      var k1 := RestedFrom(s1, evs[1..]);
      k := k1 + 1;
      forall j | 0 <= j <= k
        ensures AfterCall(At(s, evs, j).a)
      {
        assert j > 0 ==> At(s, evs, j) == At(s1, evs[1..], j - 1);
      }
    } else {
      if s1.a.state.LoggingOut? { StaysLoggingOut(s1, evs[1..]); }
      k := 0;
    }
  }

  /**
   * Within one login the way from a call back to ready leads through a heartbeat that saw more than
   * the wrap-up time go by since the last disconnect, or a rejoin when there is no wrap-up time.
   */
  lemma ReadyOnlyWhenRested(cfg: Config, evs: seq<Event>, j: nat) returns (k: nat)
    requires Runs(Initial(cfg), evs) && NoSwap(evs) && j <= |evs| && NoLogout(evs[j..])
    requires At(Initial(cfg), evs, j).a.state == OnCall && After(Initial(cfg), evs).a.state == ReadyForCall
    ensures j <= k < |evs| && Rested(At(Initial(cfg), evs, k), evs[k])
    ensures At(Initial(cfg), evs, k + 1).a.state == ReadyForCall
    ensures forall i :: j <= i <= k ==> AfterCall(At(Initial(cfg), evs, i).a)
  {
    var s, rest := At(Initial(cfg), evs, j), evs[j..];
    RunKeepsSteady(Initial(cfg), evs, j);
    AtLater(Initial(cfg), evs, j, |rest|);
    var n := RestedFrom(s, rest);
    AtLater(Initial(cfg), evs, j, n);
    AtLater(Initial(cfg), evs, j, n + 1);
    k := j + n;
    forall i | j <= i <= k
      ensures AfterCall(At(Initial(cfg), evs, i).a)
    {
      AtLater(Initial(cfg), evs, j, i - j);
      assert AfterCall(At(s, rest, i - j).a);
    }
  }

  // ---- Into a call -------------------------------------------------------------------

  lemma EntersCall(s: Sys, ev: Event)
    requires Inv(s) && Enabled(s, ev) && !s.a.state.OnCall? && Step(s, ev).a.state.OnCall?
    ensures s.place.Held? && (s.a.state == if AckNeeded(s.a) then CallWaitAck else CallPresent)
  {
  }

  /** A call starts out of CALL_WAIT_ACK exactly when calls have to be acknowledged. */
  lemma CallStartsAcknowledged(cfg: Config, evs: seq<Event>, k: nat)
    requires Runs(Initial(cfg), evs) && k < |evs|
    requires At(Initial(cfg), evs, k).a.state != OnCall && At(Initial(cfg), evs, k + 1).a.state == OnCall
    ensures var before := At(Initial(cfg), evs, k);
            before.a.state == if AckNeeded(before.a) then CallWaitAck else CallPresent
  {
    RunKeepsInv(Initial(cfg), evs, k);
    AtNext(Initial(cfg), evs, k);
    EntersCall(At(Initial(cfg), evs, k), evs[k]);
  }
}
