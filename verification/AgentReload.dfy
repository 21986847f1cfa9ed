/**
 * Applying a new configuration to the pool of agents by mark and sweep
 * (apps/app_agent_pool.c, agents_mark, agents_sweep and agents_post_apply_config).
 * The container maps user names to records; `id` is the identity of the allocated object.
 */
module AgentReload {
  import opened Options
  import opened AgentPool

  datatype Record = Record(id: nat, agent: Agent, mark: bool, dead: bool)

  datatype Entry = Entry(username: string, cfg: Config)

  datatype Pool = Pool(agents: map<string, Record>, nextId: nat)

  function NewAgent(cfg: Config): Agent {
    Agent(None, LoggedOut, Unavailable, None, false, NO_OVERRIDES, cfg, 0, 0, 0)
  }

  function Marked(agents: map<string, Record>): map<string, Record> {
    map n | n in agents :: agents[n].(mark := true)
  }

  function ApplyEntry(p: Pool, e: Entry): Pool {
    var n := e.username;
    if n in p.agents then
      p.(agents := p.agents[n := p.agents[n].(agent := Reload(p.agents[n].agent, e.cfg), mark := false)])
    else
      Pool(p.agents[n := Record(p.nextId, NewAgent(e.cfg), false, false)], p.nextId + 1)
  }

  function ApplyAll(p: Pool, entries: seq<Entry>): Pool
    decreases |entries|
  {
    if entries == [] then p else ApplyEntry(ApplyAll(p, entries[..|entries| - 1]), entries[|entries| - 1])
  }

  function Swept(agents: map<string, Record>): map<string, Record> {
    map n | n in agents && !agents[n].mark :: agents[n]
  }

  /** What the sweep unlinks. */
  function Doomed(agents: map<string, Record>): map<string, Record> {
    map n | n in agents && agents[n].mark :: agents[n].(mark := false, dead := true)
  }

  /** One reload: the container it leaves, and the records it unlinks. */
  function AfterReload(p: Pool, entries: seq<Entry>): (Pool, map<string, Record>) {
    var q := ApplyAll(p.(agents := Marked(p.agents)), entries);
    (q.(agents := Swept(q.agents)), Doomed(q.agents))
  }

  // ---- In place -----------------------------------------------------------------------

  class Agents {
    var agents: map<string, Record>
    var nextId: nat

    ghost function View(): Pool
      reads this
    {
      Pool(agents, nextId)
    }

    method AgentsMark()
      modifies this
      ensures View() == old(View()).(agents := Marked(old(agents)))
    {
      var before := agents;
      var todo := agents.Keys;
      while todo != {}
        invariant todo <= before.Keys && agents.Keys == before.Keys && nextId == old(nextId)
        invariant forall n :: n in agents ==> agents[n] == if n in todo then before[n] else before[n].(mark := true)
        decreases |todo|
      {
        var n :| n in todo;
        agents := agents[n := agents[n].(mark := true)];
        todo := todo - {n};
      }
      assert agents == Marked(before);
    }

    method ApplyOne(e: Entry)
      modifies this
      ensures View() == ApplyEntry(old(View()), e)
    {
      var n := e.username;
      if n in agents {
        var r := agents[n].(mark := false);
        if r.agent.logged.None? { r := r.(agent := r.agent.(cfg := e.cfg)); }
        agents := agents[n := r];
      } else {
        agents := agents[n := Record(nextId, NewAgent(e.cfg), false, false)];
        nextId := nextId + 1;
      }
    }

    /** The marked records are unlinked, and dead from here on. */
    method Unlink() returns (doomed: map<string, Record>)
      modifies this
      ensures View() == old(View()).(agents := Swept(old(agents))) && doomed == Doomed(old(agents))
    {
      var before := agents;
      var todo := agents.Keys;
      doomed := map[];
      while todo != {}
        invariant todo <= before.Keys && nextId == old(nextId)
        invariant forall n :: n in agents <==> n in before && (n in todo || !before[n].mark)
        invariant forall n :: n in agents ==> agents[n] == before[n]
        invariant forall n :: n in doomed <==> n in before && n !in todo && before[n].mark
        invariant forall n :: n in doomed ==> doomed[n] == before[n].(mark := false, dead := true)
        decreases |todo|
      {
        var n :| n in todo;
        todo := todo - {n};
        if before[n].mark {
          agents := agents - {n};
          doomed := doomed[n := before[n].(mark := false, dead := true)];
        }
      }
      assert agents == Swept(before) && doomed == Doomed(before);
    }

    /** `hangup` lists the unlinked agents that are still logged in. */
    method AgentsSweep() returns (doomed: map<string, Record>, hangup: set<string>)
      modifies this
      ensures View() == old(View()).(agents := Swept(old(agents))) && doomed == Doomed(old(agents))
      ensures hangup == set n | n in doomed && doomed[n].agent.logged.Some?
    {
      doomed := Unlink();
      var todo := doomed.Keys;
      hangup := {};
      while todo != {}
        invariant todo <= doomed.Keys
        invariant hangup == set n | n in doomed && n !in todo && doomed[n].agent.logged.Some?
        decreases |todo|
      {
        var n :| n in todo;
        todo := todo - {n};
        if doomed[n].agent.logged.Some? { hangup := hangup + {n}; }
      }
    }

    method PostApplyConfig(entries: seq<Entry>) returns (doomed: map<string, Record>, hangup: set<string>)
      modifies this
      ensures (View(), doomed) == AfterReload(old(View()), entries)
      ensures hangup == set n | n in doomed && doomed[n].agent.logged.Some?
    {
      AgentsMark();
      ghost var marked := View();
      for i := 0 to |entries|
        invariant View() == ApplyAll(marked, entries[..i])
      {
        ApplyOne(entries[i]);
        assert entries[..i + 1][..i] == entries[..i];
      }
      assert entries[..|entries|] == entries;
      doomed, hangup := AgentsSweep();
    }
  }

  // ---- What a reload leaves -----------------------------------------------------------

  ghost predicate Distinct(entries: seq<Entry>) {
    forall i, j :: 0 <= i < j < |entries| ==> entries[i].username != entries[j].username
  }

  predicate Names(entries: seq<Entry>, n: string) {
    exists i :: 0 <= i < |entries| && entries[i].username == n
  }

  ghost predicate Settled(p: Pool) {
    forall n :: n in p.agents ==> !p.agents[n].mark && !p.agents[n].dead && p.agents[n].id < p.nextId
  }

  /** The record of a name that was there before: same object, same login, same state. */
  predicate Survives(before: Record, after: Record, cfg: Config) {
    && after.id == before.id && !after.mark && !after.dead
    && after.agent == if before.agent.logged.Some? then before.agent else before.agent.(cfg := cfg)
  }

  predicate Created(p: Pool, after: Record, cfg: Config) {
    && after.id >= p.nextId && !after.mark && !after.dead
    && after.agent == Agent(None, LoggedOut, Unavailable, None, false, Overrides(None, None, None, None), cfg, 0, 0, 0)
  }

  /** How far the records agree with a part of the configuration, while the rest is still marked. */
  ghost predicate Applied(p: Pool, q: Pool, entries: seq<Entry>) {
    && p.nextId <= q.nextId
    && (forall n :: n in q.agents <==> n in p.agents || Names(entries, n))
    && (forall n :: n in p.agents && !Names(entries, n) ==> q.agents[n] == p.agents[n].(mark := true))
    && (forall n :: n in q.agents ==> q.agents[n].id < q.nextId)
    && (forall i :: 0 <= i < |entries| ==>
          var e := entries[i];
          if e.username in p.agents then Survives(p.agents[e.username], q.agents[e.username], e.cfg)
          else Created(p, q.agents[e.username], e.cfg))
  }

  lemma NamesAppend(entries: seq<Entry>, e: Entry)
    ensures forall n :: Names(entries + [e], n) <==> Names(entries, n) || n == e.username
  {
    forall n
      ensures Names(entries + [e], n) <==> Names(entries, n) || n == e.username
    {
      if Names(entries, n) {
        var i :| 0 <= i < |entries| && entries[i].username == n;
        assert (entries + [e])[i].username == n;
      }
      assert (entries + [e])[|entries|] == e;
    }
  }

  lemma ApplyEntryExtends(p: Pool, q: Pool, entries: seq<Entry>, e: Entry)
    requires Settled(p) && Applied(p, q, entries) && !Names(entries, e.username)
    ensures Applied(p, ApplyEntry(q, e), entries + [e])
  {
    NamesAppend(entries, e);
    var q1 := ApplyEntry(q, e);
    forall i | 0 <= i < |entries + [e]|
      ensures var d := (entries + [e])[i];
              if d.username in p.agents then Survives(p.agents[d.username], q1.agents[d.username], d.cfg)
              else Created(p, q1.agents[d.username], d.cfg)
    {
      if i < |entries| {
        assert entries[i].username != e.username;
      }
    }
  }

  lemma {:induction false} ApplyAllApplies(p: Pool, entries: seq<Entry>)
    requires Settled(p) && Distinct(entries)
    ensures Applied(p, ApplyAll(p.(agents := Marked(p.agents)), entries), entries)
    decreases |entries|
  {
    if entries != [] {
      var n := |entries| - 1;
      ApplyAllApplies(p, entries[..n]);
      ApplyEntryExtends(p, ApplyAll(p.(agents := Marked(p.agents)), entries[..n]), entries[..n], entries[n]);
      assert entries == entries[..n] + [entries[n]];
    }
  }

  /**
   * Exactly the configured names are left.  Who stays is the same object in the same state, with
   * the new configuration exactly when nobody is logged in; who goes is dead and otherwise as
   * before; no mark is left and the pool is ready for the next reload.
   */
  ghost predicate Matches(p: Pool, entries: seq<Entry>, q: Pool, doomed: map<string, Record>) {
    && Settled(q)
    && (forall n :: n in q.agents <==> Names(entries, n))
    && (forall i :: 0 <= i < |entries| ==>
          var e := entries[i];
          if e.username in p.agents then Survives(p.agents[e.username], q.agents[e.username], e.cfg)
          else Created(p, q.agents[e.username], e.cfg))
    && (forall n :: n in doomed <==> n in p.agents && !Names(entries, n))
    && (forall n :: n in doomed ==> doomed[n] == p.agents[n].(dead := true))
  }

  lemma ReloadMatchesConfig(p: Pool, entries: seq<Entry>)
    requires Settled(p) && Distinct(entries)
    ensures Matches(p, entries, AfterReload(p, entries).0, AfterReload(p, entries).1)
  {
    ApplyAllApplies(p, entries);
    var all := ApplyAll(p.(agents := Marked(p.agents)), entries);
    forall n | n in all.agents
      ensures all.agents[n].mark <==> !Names(entries, n)
      ensures !all.agents[n].mark ==> !all.agents[n].dead
    {
      if Names(entries, n) {
        var i :| 0 <= i < |entries| && entries[i].username == n;
        assert entries[i].username in all.agents;
      }
    }
  }

  lemma MatchAgain(
    p: Pool, entries: seq<Entry>, q: Pool, d: map<string, Record>, r: Pool, e: map<string, Record>, n: string)
    requires Matches(p, entries, q, d) && Matches(q, entries, r, e) && n in q.agents
    ensures n in r.agents && n !in e && r.agents[n] == q.agents[n]
  {
    var i :| 0 <= i < |entries| && entries[i].username == n;
    assert Survives(q.agents[n], r.agents[n], entries[i].cfg);
  }

  lemma MatchesAgain(p: Pool, entries: seq<Entry>, q: Pool, d: map<string, Record>, r: Pool, e: map<string, Record>)
    requires Matches(p, entries, q, d) && Matches(q, entries, r, e)
    ensures r.agents == q.agents && e == map[]
  {
    forall n | n in q.agents
      ensures n in r.agents && n !in e && r.agents[n] == q.agents[n]
    {
      MatchAgain(p, entries, q, d, r, e, n);
    }
  }

  /** Applying the same configuration twice is applying it once. */
  lemma ReloadIsIdempotent(p: Pool, entries: seq<Entry>)
    requires Settled(p) && Distinct(entries)
    ensures var q := AfterReload(p, entries).0;
            AfterReload(q, entries).0.agents == q.agents && AfterReload(q, entries).1 == map[]
  {
    var q := AfterReload(p, entries).0;
    ReloadMatchesConfig(p, entries);
    ReloadMatchesConfig(q, entries);
    MatchesAgain(p, entries, q, AfterReload(p, entries).1, AfterReload(q, entries).0, AfterReload(q, entries).1);
  }
}
