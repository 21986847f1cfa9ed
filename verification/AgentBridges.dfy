/** The fate of every caller bridge stored in an agent (apps/app_agent_pool.c). */
module AgentBridges {
  import opened Options
  import opened AgentPool
  import opened AgentRuns
  import opened AgentLaws

  function Bridges(taken: seq<Taking>): (r: seq<nat>)
    ensures |r| == |taken| && forall i :: 0 <= i < |r| ==> r[i] == taken[i].bridge
  {
    seq(|taken|, i requires 0 <= i < |taken| => taken[i].bridge)
  }

  function Stored(a: Agent): multiset<nat> {
    if a.bridge.Some? then multiset{a.bridge.value} else multiset{}
  }

  /** Every bridge granted is taken, overwritten or still stored, and only one of them. */
  ghost predicate Accounted(s: Sys) {
    && (forall b :: multiset(s.grants)[b] <= 1)
    && multiset(s.grants) == multiset(Bridges(s.taken)) + multiset(s.lost) + Stored(s.a)
    && (s.a.bridge.Some? ==> s.grants != [] && s.a.bridge.value == s.grants[|s.grants| - 1])
  }

  lemma TakeEffect(s: Sys, taker: Taker)
    ensures multiset(Bridges(Take(s, taker))) == multiset(Bridges(s.taken)) + Stored(s.a)
  {
    if s.a.bridge.Some? {
      assert Bridges(Take(s, taker)) == Bridges(s.taken) + [s.a.bridge.value];
    }
  }

  /** One of the four takers empties the record. */
  lemma TakingKeepsAccounts(s: Sys, taker: Taker, s1: Sys)
    requires Accounted(s)
    requires s1.grants == s.grants && s1.lost == s.lost && s1.a.bridge.None? && s1.taken == Take(s, taker)
    ensures Accounted(s1)
  {
    TakeEffect(s, taker);
  }

  lemma GrantKeepsAccounts(s: Sys, b: nat)
    requires Accounted(s) && b !in s.grants
    ensures Accounted(Requested(s, b))
  {
    assert multiset(s.grants)[b] == 0;
  }

  /** The events that never touch the caller bridge. */
  predicate Aside(s: Sys, ev: Event)
    requires Enabled(s, ev)
  {
    match ev
    case EvRequest(_) => false
    case EvAbort => false
    case EvCleanup(_, _) => false
    case EvLogout => false
    case EvAck(_) => !s.a.state.CallWaitAck?
    case EvAlertEnd(_, _) => !s.a.state.CallPresent? || s.place.alert.value
    case _ => true
  }

  lemma AsideKeepsFields(s: Sys, ev: Event)
    requires Enabled(s, ev) && Aside(s, ev)
    ensures var s1 := Step(s, ev);
            s1.grants == s.grants && s1.lost == s.lost && s1.taken == s.taken && s1.a.bridge == s.a.bridge
  {
  }

  lemma TakerKeepsAccounts(s: Sys, ev: Event)
    requires Accounted(s) && Enabled(s, ev) && !Aside(s, ev) && !ev.EvRequest?
    ensures Accounted(Step(s, ev))
  {
    var taker :=
      if ev.EvAbort? then ByAbort else if ev.EvCleanup? then ByCleanup
      else if ev.EvLogout? then ByLogout else ByConnect;
    TakingKeepsAccounts(s, taker, Step(s, ev));
  }

  lemma StepKeepsAccounts(s: Sys, ev: Event)
    requires Accounted(s) && Enabled(s, ev)
    ensures Accounted(Step(s, ev))
  {
    if ev.EvRequest? {
      GrantKeepsAccounts(s, ev.bridge);
    } else if Aside(s, ev) {
      AsideKeepsFields(s, ev);
    } else {
      TakerKeepsAccounts(s, ev);
    }
  }

  lemma {:induction false} RunKeepsAccounts(s: Sys, evs: seq<Event>, k: nat)
    requires Accounted(s) && Runs(s, evs) && k <= |evs|
    ensures Accounted(At(s, evs, k))
    decreases k
  {
    if k > 0 {
      StepKeepsAccounts(s, evs[0]);
      RunKeepsAccounts(Step(s, evs[0]), evs[1..], k - 1);
    }
  }

  /** Over every run a granted bridge has one fate: taken once, overwritten once, or still stored. */
  lemma EachGrantHasOneFate(cfg: Config, evs: seq<Event>, b: nat)
    requires Runs(Initial(cfg), evs)
    ensures var s := After(Initial(cfg), evs);
            var fates := multiset(Bridges(s.taken))[b] + multiset(s.lost)[b] + Stored(s.a)[b];
            fates == if b in s.grants then 1 else 0
  {
    RunKeepsAccounts(Initial(cfg), evs, |evs|);
    var s := After(Initial(cfg), evs);
    assert b in s.grants <==> multiset(s.grants)[b] == 1;
  }

  /** The agent only ever moves into the bridge of the latest grant. */
  lemma ConnectsToLatestGrant(cfg: Config, evs: seq<Event>, k: nat)
    requires Runs(Initial(cfg), evs) && k < |evs|
    requires !At(Initial(cfg), evs, k).place.Talking? && At(Initial(cfg), evs, k + 1).place.Talking?
    ensures var before, after := At(Initial(cfg), evs, k), At(Initial(cfg), evs, k + 1);
            && before.grants != []
            && after.taken == before.taken + [Taking(before.grants[|before.grants| - 1], ByConnect)]
  {
    RunKeepsAccounts(Initial(cfg), evs, k);
    AtNext(Initial(cfg), evs, k);
  }

  // ---- Overwritten grants -------------------------------------------------------------

  /** A request finds the agent ready with a bridge still stored. */
  predicate Overwrites(s: Sys, ev: Event) {
    ev.EvRequest? && s.a.state.ReadyForCall? && s.a.bridge.Some?
  }

  ghost predicate NeverOverwrites(s: Sys, evs: seq<Event>)
    requires Runs(s, evs)
  {
    forall k :: 0 <= k < |evs| ==> !Overwrites(At(s, evs, k), evs[k])
  }

  lemma NeverOverwritesUnfolds(s: Sys, evs: seq<Event>)
    requires Runs(s, evs) && evs != []
    ensures NeverOverwrites(s, evs) <==> !Overwrites(s, evs[0]) && NeverOverwrites(Step(s, evs[0]), evs[1..])
  {
    var s1 := Step(s, evs[0]);
    assert At(s, evs, 0) == s;
    if NeverOverwrites(s, evs) {
      forall k | 0 <= k < |evs[1..]|
        ensures !Overwrites(At(s1, evs[1..], k), evs[1..][k])
      {
        assert At(s, evs, k + 1) == At(s1, evs[1..], k);
      }
    }
    if !Overwrites(s, evs[0]) && NeverOverwrites(s1, evs[1..]) {
      forall k | 0 <= k < |evs|
        ensures !Overwrites(At(s, evs, k), evs[k])
      {
        if k > 0 { assert At(s, evs, k) == At(s1, evs[1..], k - 1); }
      }
    }
  }

  /** A reference is lost exactly when a request overwrites one. */
  lemma {:induction false} LostExactlyWhenOverwritten(s: Sys, evs: seq<Event>)
    requires Runs(s, evs)
    ensures s.lost <= After(s, evs).lost
    ensures After(s, evs).lost == s.lost <==> NeverOverwrites(s, evs)
    decreases |evs|
  {
    if evs != [] {
      NeverOverwritesUnfolds(s, evs);
      LostExactlyWhenOverwritten(Step(s, evs[0]), evs[1..]);
    }
  }

  /** A grant that lands after the driver loop cleared the record and before the agent is held again. */
  predicate LateGrant(s: Sys, ev: Event) {
    ev.EvRequest? && s.a.state.ReadyForCall? && (s.place.Cleaned? || s.place.Joining?)
  }

  ghost predicate NoLateGrant(s: Sys, evs: seq<Event>)
    requires Runs(s, evs)
    decreases |evs|
  {
    evs == [] || (!LateGrant(s, evs[0]) && NoLateGrant(Step(s, evs[0]), evs[1..]))
  }

  /** Nothing is stored where nobody waits. */
  predicate Clear(s: Sys) {
    s.a.state.ReadyForCall? || s.place.Cleaned? || s.place.Joining? ==> s.a.bridge.None?
  }

  lemma StepKeepsClear(s: Sys, ev: Event)
    requires Inv(s) && Steady(s) && Clear(s) && Enabled(s, ev) && !ev.EvSwap? && !LateGrant(s, ev)
    ensures Clear(Step(s, ev)) && Step(s, ev).lost == s.lost
  {
  }

  /** Without swaps and late grants no reference is ever lost. */
  lemma {:induction false} OnTimeGrantsAreKept(s: Sys, evs: seq<Event>)
    requires Inv(s) && Steady(s) && Clear(s) && Runs(s, evs) && NoSwap(evs) && NoLateGrant(s, evs)
    ensures Clear(After(s, evs)) && After(s, evs).lost == s.lost
    decreases |evs|
  {
    if evs != [] {
      StepKeepsInv(s, evs[0]);
      StepKeepsSteady(s, evs[0]);
      StepKeepsClear(s, evs[0]);
      OnTimeGrantsAreKept(Step(s, evs[0]), evs[1..]);
    }
  }

  /** A late grant followed by another one loses its reference. */
  lemma LateGrantIsLost(s: Sys, late: nat, next: nat, at: nat)
    requires Inv(s) && s.place.Joining? && s.a.state == ReadyForCall
    requires late !in s.grants && next !in s.grants && late != next
    ensures var evs := [EvRequest(late), EvJoin(at), EvRequest(next)];
            Runs(s, evs) && late in After(s, evs).lost
  {
    ThreeSteps(s, EvRequest(late), EvJoin(at), EvRequest(next));
    var s2 := Step(Step(s, EvRequest(late)), EvJoin(at));
    assert Step(s2, EvRequest(next)).lost == s2.lost + [late];
  }

  /** So does a grant whose agent is swapped for another channel before it connects. */
  lemma SwappedGrantIsLost(s: Sys, chan: nat, next: nat, at: nat)
    requires Inv(s) && Accounted(s) && s.place.Held? && s.a.state == CallPresent && s.a.bridge.Some?
    requires next !in s.grants
    ensures var evs := [EvSwap(chan), EvLeave, EvJoin(at), EvRequest(next)];
            Runs(s, evs) && s.a.bridge.value in After(s, evs).lost
  {
    var s1 := Step(s, EvSwap(chan));
    var s2 := Step(s1, EvLeave);
    var s3 := Step(s2, EvJoin(at));
    assert s3.a.state.ReadyForCall? && s3.a.bridge == s.a.bridge && s3.grants == s.grants;
    FourSteps(s, EvSwap(chan), EvLeave, EvJoin(at), EvRequest(next));
    assert Step(s3, EvRequest(next)).lost == s3.lost + [s.a.bridge.value];
  }
}
