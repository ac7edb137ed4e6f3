/** The lineage of retries: kept along every run whose writes are in line, and so along every run in which the
    processes of one analysis do not overlap and a retry does not meet the removal of its parent. */
module Retries {
  import opened Types
  import opened AnalysisTable
  import opened Pipeline
  import opened Machine
  import opened Rules
  import opened Invariant
  import opened Safety
  import opened TableWrites
  import opened Idempotence
  import opened Finality
  import ScanTask
  import UploadTask
  import ExtractTask
  import UploadRequest
  import Services
  import Consumer

  /** Each call of the run that writes is in line at its moment. */
  ghost predicate AllInLine(cfg: Config, s: System, es: seq<Event>)
    requires Feasible(cfg, s, es)
    decreases |es|
  {
    es != [] ==>
      && (es[0].Act? ==> InLine(s.world.analyses, WriteOf(s.world, s.procs[es[0].i], es[0].o)))
      && AllInLine(cfg, Apply(cfg, s, es[0]), es[1..])
  }

  lemma ParentIsOld(cfg: Config, w: World, p: Proc, o: Outcome)
    requires ProcOk(cfg, w, p)
    ensures var write := WriteOf(w, p, o);
      write.Insert? && write.retryOf.Some? ==> write.retryOf.value < w.analyses.next
  {
    hide RequestOk, ExtractOk, HandlerOk;
  }

  /** One step keeps the lineage exactly when its write is in line. */
  lemma StepLineageIff(cfg: Config, w: World, p: Proc, o: Outcome)
    requires WorldOk(cfg, w) && ProcOk(cfg, w, p) && Lineage(w.analyses)
    ensures Lineage(Step(cfg, w, p, o).world.analyses) <==> InLine(w.analyses, WriteOf(w, p, o))
  {
    hide WorldOk, ProcOk, Step, WriteOf, InLine, Lineage, Write.Apply;
    TableValid(cfg, w);
    StepTable(cfg, w, p, o);
    ParentIsOld(cfg, w, p, o);
    LineageIff(w.analyses, WriteOf(w, p, o));
  }

  /** Whatever interleaves: as long as every write is in line, every retry repeats an analysis that is there and
      failed for a passing reason. */
  lemma {:induction false} InLineKeepsLineage(cfg: Config, s: System, es: seq<Event>)
    requires cfg.CollisionFree() && Safe(cfg, s) && Numbered(s) && Lineage(s.world.analyses)
    requires Feasible(cfg, s, es) && AllInLine(cfg, s, es)
    ensures Lineage(Run(cfg, s, es).world.analyses)
    decreases |es|
  {
    hide WorldOk, ProcOk, Step, Lineage, WriteOf, InLine, Grows;
    if es != [] {
      ApplyKeepsSafety(cfg, s, es[0]);
      if es[0].Act? { StepLineageIff(cfg, s.world, s.procs[es[0].i], es[0].o); }
      InLineKeepsLineage(cfg, Apply(cfg, s, es[0]), es[1..]);
    }
  }

  // --- Overlapping ---

  /** What a retry knows of its parent, and a removal of its target. */
  ghost predicate KnowsKin(t: Table, p: Proc) {
    match p
    case Retrier(_, _, parent, FindChild(_)) => RetryableAt(t, parent)
    case Retrier(_, _, parent, Insert(_)) => RetryableAt(t, parent)
    case Remover(_, target, Delete) => target in t.rows ==> Childless(t, target)
    case _ => true
  }

  lemma UnfinishedIsChildless(t: Table, a: nat)
    requires Lineage(t) && a in t.rows && !t.rows[a].Terminal()
    ensures Childless(t, a)
  {
  }

  lemma KnownIsInLine(cfg: Config, w: World, p: Proc, o: Outcome)
    requires w.analyses.Valid() && Lineage(w.analyses) && ProcOk(cfg, w, p)
    requires Relies(w.analyses, p) && KnowsKin(w.analyses, p)
    ensures InLine(w.analyses, WriteOf(w, p, o))
  {
    hide Table.Valid, Lineage, Childless, RequestOk, ExtractOk, HandlerOk, ApiOk, Relies;
    WritesUnfinished(cfg, w, p, o);
    var write := WriteOf(w, p, o);
    if write.Update? {
      var found := w.analyses.Find(write.doc, write.req);
      if found.Some? && found.value in w.analyses.rows { UnfinishedIsChildless(w.analyses, found.value); }
    }
  }

  lemma NoChildFound(t: Table, a: nat)
    requires t.Valid()
    ensures t.FindChild(a).None? <==> Childless(t, a)
  {
  }

  lemma RetrierKnows(w: World, d: nat, req: nat, parent: nat, pc: ApiPc, o: Outcome)
    requires KnowsKin(w.analyses, Retrier(d, req, parent, pc))
    ensures var m := Services.StepRetry(w, d, req, parent, pc, o); m.proc.Retrier? && KnowsKin(m.world.analyses, m.proc)
  {
    hide Table.Insert, Table.Update;
  }

  lemma RemoverKnows(w: World, d: nat, target: nat, pc: RemovePc, o: Outcome)
    requires w.analyses.Valid()
    ensures var m := Services.StepRemove(w, d, target, pc, o); m.proc.Remover? && KnowsKin(m.world.analyses, m.proc)
  {
    hide Table.Valid, Table.Delete, Childless;
    NoChildFound(w.analyses, target);
  }

  lemma StepKnows(cfg: Config, w: World, p: Proc, o: Outcome)
    requires w.analyses.Valid() && KnowsKin(w.analyses, p)
    ensures var m := Step(cfg, w, p, o); KnowsKin(m.world.analyses, m.proc)
  {
    hide UploadRequest.Step, ScanTask.Step, UploadTask.Step, ExtractTask.Step, Consumer.Step, Table.Valid;
    hide Services.StepCancel, Services.StepCreate, Services.StepRetry, Services.StepRemove;
    match p
    case Request(req, pc) => RequestStays(cfg, w, req, pc, o);
    case Scanner(args, pc, left) => ScannerStays(cfg, w, args, pc, left, o);
    case Uploader(args, pc, left) => UploaderStays(w, args, pc, left, o);
    case Extractor(args, pc, left) => ExtractorStays(cfg, w, args, pc, left, o);
    case Canceller(d, pc) => CancellerStays(w, d, pc, o);
    case Creator(d, req, provider, pc) => CreatorStays(w, d, req, provider, pc, o);
    case Retrier(d, req, parent, pc) => RetrierKnows(w, d, req, parent, pc, o);
    case Remover(d, target, pc) => RemoverKnows(w, d, target, pc, o);
    case Handler(d, a, req, pc, n) => HandlerStays(w, d, a, req, pc, n, o);
  }

  lemma RestKnows(t: Table, p: Proc)
    requires !p.Running()
    ensures KnowsKin(t, p)
  {
  }

  lemma RetryableStable(t: Table, write: Write, parent: nat)
    requires t.Valid() && RetryableAt(t, parent) && KeepsFinal(t, write.Apply(t)) && write != Write.Delete(parent)
    ensures RetryableAt(write.Apply(t), parent)
  {
  }

  lemma ChildlessStable(t: Table, write: Write, a: nat)
    requires t.Valid() && (a in t.rows ==> Childless(t, a)) && (write.Insert? ==> write.retryOf != Some(a)) && a < t.next
    ensures a in write.Apply(t).rows ==> Childless(write.Apply(t), a)
  {
  }

  lemma KinStable(cfg: Config, w: World, p: Proc, o: Outcome, q: Proc)
    requires w.analyses.Valid() && ProcOk(cfg, w, q) && KnowsKin(w.analyses, q) && !Clash(RetryOrRemove, p, q)
    requires KeepsFinal(w.analyses, WriteOf(w, p, o).Apply(w.analyses))
    ensures KnowsKin(WriteOf(w, p, o).Apply(w.analyses), q)
  {
    hide Table.Valid, KeepsFinal, Childless, RetryableAt, Write.Apply, RequestOk, ExtractOk, HandlerOk, ApiOk;
    var t, write := w.analyses, WriteOf(w, p, o);
    match q
    case Retrier(_, _, parent, pc) => if pc.FindChild? || pc.Insert? { RetryableStable(t, write, parent); }
    case Remover(_, target, pc) => if pc.Delete? { ChildlessStable(t, write, target); }
    case _ =>
  }

  // --- Whole runs ---

  ghost predicate Kin(s: System) {
    Lineage(s.world.analyses) && forall i :: 0 <= i < |s.procs| ==> KnowsKin(s.world.analyses, s.procs[i])
  }

  lemma ActKeepsKin(cfg: Config, s: System, i: nat, o: Outcome)
    requires Safe(cfg, s) && Final(s) && Kin(s) && Enabled(cfg, s, Act(i, o))
    requires Free(OnePerAnalysis, s.procs, i) && Free(RetryOrRemove, s.procs, i)
    ensures Kin(Apply(cfg, s, Act(i, o)))
  {
    hide WorldOk, ProcOk, Step, Relies, KeepsFinal, WriteOf, Write.Apply, AllWellFormed, Clash, Lineage, KnowsKin, InLine;
    var w, p := s.world, s.procs[i];
    var s' := Apply(cfg, s, Act(i, o));
    TableValid(cfg, w);
    ActKeepsFinal(cfg, s, i, o);
    KnownIsInLine(cfg, w, p, o);
    StepLineageIff(cfg, w, p, o);
    StepTable(cfg, w, p, o);
    StepKnows(cfg, w, p, o);
    SpawnIsIdle(cfg, w, p, o);
    forall j | 0 <= j < |s'.procs| ensures KnowsKin(s'.world.analyses, s'.procs[j]) {
      if j != i {
        if s'.procs[j].Running() { KinStable(cfg, w, p, o, s.procs[j]); } else { RestKnows(s'.world.analyses, s'.procs[j]); }
      }
    }
  }

  lemma ArriveKeepsKin(cfg: Config, s: System, e: Event)
    requires Kin(s) && Enabled(cfg, s, e) && !e.Act?
    ensures Kin(Apply(cfg, s, e))
  {
    hide Lineage, KnowsKin;
    StartedRests(cfg, s, e);
    RestKnows(s.world.analyses, Started(s, e));
  }

  lemma {:induction false} RunKeepsKin(cfg: Config, s: System, es: seq<Event>)
    requires cfg.CollisionFree() && Safe(cfg, s) && Numbered(s) && Final(s) && Kin(s) && Feasible(cfg, s, es)
    requires Respects(cfg, OnePerAnalysis, s, es) && Respects(cfg, RetryOrRemove, s, es)
    ensures Kin(Run(cfg, s, es))
    decreases |es|
  {
    hide WorldOk, ProcOk, Final, Kin, Free, Step, Grows, KeepsFinal;
    if es != [] {
      ApplyKeepsSafety(cfg, s, es[0]);
      if es[0].Act? {
        ActKeepsFinal(cfg, s, es[0].i, es[0].o);
        ActKeepsKin(cfg, s, es[0].i, es[0].o);
      } else {
        ArriveKeepsFinal(cfg, s, es[0]);
        ArriveKeepsKin(cfg, s, es[0]);
      }
      RunKeepsKin(cfg, Apply(cfg, s, es[0]), es[1..]);
    }
  }
}
