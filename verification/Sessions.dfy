/** What the statement-by-statement programs do is a run of the step machine: the calls of one process in a row.
    So every promise about runs holds for them, and for any interleaving of their calls. */
module Sessions {
  import opened Types
  import opened Pipeline
  import opened Machine
  import opened Stores
  import opened Safety
  import opened Invariant
  import opened Rules
  import opened Idempotence

  function Acts(i: nat, calls: seq<Outcome>): (es: seq<Event>) {
    seq(|calls|, k requires 0 <= k < |calls| => Act(i, calls[k]))
  }

  lemma {:induction false} RunSnoc(cfg: Config, s: System, es: seq<Event>, e: Event)
    requires Feasible(cfg, s, es) && Enabled(cfg, Run(cfg, s, es), e)
    ensures Feasible(cfg, s, es + [e]) && Run(cfg, s, es + [e]) == Apply(cfg, Run(cfg, s, es), e)
    decreases |es|
  {
    hide Step;
    if es == [] {
      assert [e][1..] == [];
    } else {
      assert (es + [e])[1..] == es[1..] + [e];
      RunSnoc(cfg, Apply(cfg, s, es[0]), es[1..], e);
    }
  }

  lemma {:induction false} RunConcat(cfg: Config, s: System, es: seq<Event>, more: seq<Event>)
    requires Feasible(cfg, s, es) && Feasible(cfg, Run(cfg, s, es), more)
    ensures Feasible(cfg, s, es + more) && Run(cfg, s, es + more) == Run(cfg, Run(cfg, s, es), more)
    decreases |es|
  {
    hide Step;
    if es == [] {
      assert es + more == more;
    } else {
      assert (es + more)[1..] == es[1..] + more;
      RunConcat(cfg, Apply(cfg, s, es[0]), es[1..], more);
    }
  }

  lemma {:induction false} RespectsSnoc(cfg: Config, rule: Rule, s: System, es: seq<Event>, e: Event)
    requires Feasible(cfg, s, es) && Respects(cfg, rule, s, es)
    requires Enabled(cfg, Run(cfg, s, es), e) && (e.Act? ==> Free(rule, Run(cfg, s, es).procs, e.i))
    ensures Feasible(cfg, s, es + [e]) && Respects(cfg, rule, s, es + [e])
    decreases |es|
  {
    hide Step, Free;
    RunSnoc(cfg, s, es, e);
    if es == [] {
      assert [e][1..] == [];
    } else {
      assert (es + [e])[1..] == es[1..] + [e];
      RespectsSnoc(cfg, rule, Apply(cfg, s, es[0]), es[1..], e);
    }
  }

  /** Nobody else is in the middle of anything. */
  ghost predicate OthersRest(procs: seq<Proc>, i: nat) {
    forall j :: 0 <= j < |procs| && j != i ==> !procs[j].Running()
  }

  lemma EmptyRun(cfg: Config, s: System, rule: Rule)
    ensures Feasible(cfg, s, []) && Run(cfg, s, []) == s && Respects(cfg, rule, s, [])
  {
  }

  lemma {:induction false} CallsAreRun(cfg: Config, s: System, i: nat, calls: seq<Outcome>, rule: Rule)
    requires i < |s.procs| && Busy(cfg, s.world, s.procs[i], calls)
    ensures Feasible(cfg, s, Acts(i, calls))
    ensures var (w, p, sent) := Follow(cfg, s.world, s.procs[i], calls);
      && Run(cfg, s, Acts(i, calls)) == System(w, s.procs[i := p] + sent)
      && (OthersRest(s.procs, i) ==> OthersRest(s.procs[i := p] + sent, i))
    ensures OthersRest(s.procs, i) ==> Respects(cfg, rule, s, Acts(i, calls))
    decreases |calls|
  {
    hide Step, Run, Feasible, Respects;
    EmptyRun(cfg, s, rule);
    if calls == [] {
      assert Acts(i, calls) == [];
      assert s.procs[i := s.procs[i]] + [] == s.procs;
    } else {
      var before, o := calls[..|calls| - 1], calls[|calls| - 1];
      CallsAreRun(cfg, s, i, before, rule);
      var (w, p, sent) := Follow(cfg, s.world, s.procs[i], before);
      var s1 := System(w, s.procs[i := p] + sent);
      assert Acts(i, calls) == Acts(i, before) + [Act(i, o)];
      RunSnoc(cfg, s, Acts(i, before), Act(i, o));
      var m := Step(cfg, w, p, o);
      SpawnIsIdle(cfg, w, p, o);
      assert s1.procs[i := m.proc] == s.procs[i := m.proc] + sent;
      assert Apply(cfg, s1, Act(i, o)).procs == s.procs[i := m.proc] + (sent + Sending(m.spawned));
      if OthersRest(s.procs, i) {
        RespectsSnoc(cfg, rule, s, Acts(i, before), Act(i, o));
      }
    }
  }

  /** A session that took over process `i` has run the system to what its tables, its position and its queue say,
      and broke no rule about overlapping while the others rested. */
  lemma SessionIsRun(stores: Stores, s: System, i: nat, rule: Rule)
    requires stores.Valid() && i < |s.procs| && stores.origin == s.world && stores.first == s.procs[i]
    ensures Feasible(stores.cfg, s, Acts(i, stores.calls))
    ensures Run(stores.cfg, s, Acts(i, stores.calls)) == System(stores.World(), s.procs[i := stores.pos] + stores.queue)
    ensures OthersRest(s.procs, i) ==> Respects(stores.cfg, rule, s, Acts(i, stores.calls))
  {
    hide Step, Run, Feasible, Respects;
    CallsAreRun(stores.cfg, s, i, stores.calls, rule);
  }
}
