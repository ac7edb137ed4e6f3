/** When the processes of one analysis do not overlap, its state is well formed and final. */
module Finality {
  import opened Types
  import opened AnalysisTable
  import opened Pipeline
  import opened BaseTask
  import opened Machine
  import opened Rules
  import opened Invariant
  import opened Safety
  import opened TableWrites
  import opened Idempotence
  import ScanTask
  import UploadTask
  import ExtractTask
  import UploadRequest
  import Services
  import Consumer

  ghost predicate QueuedAt(t: Table, d: nat, req: nat) {
    var found := t.Find(d, req);
    found.Some? && found.value in t.rows && t.rows[found.value].status == Queued
  }

  /** The analysis of a message is there and not finished. */
  ghost predicate Open(t: Table, a: nat, d: nat, req: nat) {
    a in t.rows && t.rows[a].doc == d && t.rows[a].req == req && !t.rows[a].Terminal()
  }

  ghost predicate FinishedIfThere(t: Table, a: nat) {
    a in t.rows ==> t.rows[a].Terminal()
  }

  predicate Reading(pc: HandlerPc) {
    pc.Start? || pc.Done? || pc.Recover?
  }

  /** What a process has read about its analysis and acts upon. */
  ghost predicate Relies(t: Table, p: Proc) {
    match p
    case Request(req, MarkWrite(d)) => QueuedAt(t, d, req)
    case Extractor(args, MarkWrite, _) => QueuedAt(t, args.doc, args.req)
    case Creator(d, req, _, MarkWrite(_)) => QueuedAt(t, d, req)
    case Retrier(d, req, _, MarkWrite(_)) => QueuedAt(t, d, req)
    case Remover(_, target, FindChild(terminal)) => terminal ==> FinishedIfThere(t, target)
    case Remover(_, target, Delete) => FinishedIfThere(t, target)
    case Handler(d, a, req, pc, _) => !Reading(pc) ==> Open(t, a, d, req)
    case _ => true
  }

  lemma OpenIsFound(t: Table, a: nat, d: nat, req: nat)
    requires t.Valid() && Open(t, a, d, req)
    ensures t.Find(d, req) == Some(a)
  {
  }

  /** So its next write finds an unfinished analysis, or none. */
  ghost predicate Unfinished(t: Table, write: Write) {
    match write
    case Update(d, req, _) =>
      var found := t.Find(d, req); found.Some? && found.value in t.rows ==> !t.rows[found.value].Terminal()
    case Delete(a) => FinishedIfThere(t, a)
    case _ => true
  }

  lemma WritesUnfinished(cfg: Config, w: World, p: Proc, o: Outcome)
    requires w.analyses.Valid() && ProcOk(cfg, w, p) && Relies(w.analyses, p)
    ensures Unfinished(w.analyses, WriteOf(w, p, o)) && Timely(w.analyses, WriteOf(w, p, o))
  {
    hide Table.Valid, RequestOk, ExtractOk, ApiOk, ParentOk;
    match p
    case Handler(d, a, req, pc, _) => if !Reading(pc) { OpenIsFound(w.analyses, a, d, req); }
    case _ =>
  }

  // --- Exactly when a call leaves finished analyses alone ---

  /** One step leaves finished analyses alone exactly when its write is timely: it lands on an unfinished analysis,
      on none, or repeats what is there. */
  lemma StepKeepsFinalIff(cfg: Config, w: World, p: Proc, o: Outcome)
    requires w.analyses.Valid()
    ensures KeepsFinal(w.analyses, Step(cfg, w, p, o).world.analyses) <==> Timely(w.analyses, WriteOf(w, p, o))
  {
    hide Step, WriteOf, KeepsFinal, Timely, Write.Apply;
    StepTable(cfg, w, p, o);
    KeepsFinalIff(w.analyses, WriteOf(w, p, o));
  }

  /** What the handler writes at this call. */
  function HandlerChange(pc: HandlerPc): Option<Change> {
    match pc
    case NoText => Some(Break(Permanent))
    case WriteAnalyzing(_, _) => Some(Begin)
    case WriteSuccess(report) => Some(Change.Finish(report))
    case WriteRefused => Some(Break(Permanent))
    case RecoverWrite => Some(Break(Transient))
    case _ => None
  }

  /** For each of the five writes of the handler, whether it raises afterwards or not: finished analyses stay exactly
      when its own is unfinished or already has this very state. */
  lemma HandlerKeepsFinalIff(cfg: Config, w: World, d: nat, a: nat, req: nat, pc: HandlerPc, n: nat, o: Outcome)
    requires w.analyses.Valid() && a in w.analyses.rows && Consumer.Matches(w.analyses.rows[a], d, req)
    requires HandlerChange(pc).Some? && (o.Raise? ==> o.landed)
    ensures KeepsFinal(w.analyses, Consumer.Step(w, d, a, req, pc, n, o).world.analyses) <==>
      !w.analyses.rows[a].Terminal() || Repeats(w.analyses.rows[a], HandlerChange(pc).value)
  {
    hide Consumer.Step, KeepsFinal, Table.Update, Repeats;
    HandlerTable(w, d, a, req, pc, n, o);
    var write := WriteOf(w, Handler(d, a, req, pc, n), o);
    KeepsFinalIff(w.analyses, write);
    assert w.analyses.Find(d, req) == Some(a);
  }

  // --- The process itself ---

  lemma RequestRelies(cfg: Config, w: World, req: nat, pc: RequestPc, o: Outcome)
    ensures var m := UploadRequest.Step(cfg, w, req, pc, o); m.proc.Request? && Relies(m.world.analyses, m.proc)
  {
    hide Table.Insert, Table.Update;
  }

  lemma ExtractorRelies(cfg: Config, w: World, args: Args, pc: ExtractPc, left: nat, o: Outcome)
    ensures var m := ExtractTask.Step(cfg, w, args, pc, left, o); m.proc.Extractor? && Relies(m.world.analyses, m.proc)
  {
    hide ExtractTask.StepDispatch, ExtractTask.StepFailure;
    if ExtractTask.Dispatching(pc) {
      hide *;
      DispatchRelies(cfg, w, args, pc, left, o);
    } else if pc.ReadExtracted? || pc.MarkFind? || pc.MarkWrite? || pc.Tail? {
      hide *;
      FailureRelies(cfg, w, args, pc, left, o);
    }
  }

  lemma DispatchRelies(cfg: Config, w: World, args: Args, pc: ExtractPc, left: nat, o: Outcome)
    requires ExtractTask.Dispatching(pc)
    ensures var m := ExtractTask.Step(cfg, w, args, pc, left, o); m.proc.Extractor? && Relies(m.world.analyses, m.proc)
  {
    hide ExtractTask.StepFailure, Table.Insert;
  }

  lemma FailureRelies(cfg: Config, w: World, args: Args, pc: ExtractPc, left: nat, o: Outcome)
    requires pc.ReadExtracted? || pc.MarkFind? || pc.MarkWrite? || pc.Tail?
    ensures var m := ExtractTask.Step(cfg, w, args, pc, left, o); m.proc.Extractor? && Relies(m.world.analyses, m.proc)
  {
    hide ExtractTask.StepDispatch, Table.Update, StepTail;
  }

  lemma CreatorRelies(w: World, d: nat, req: nat, provider: Provider, pc: ApiPc, o: Outcome)
    ensures var m := Services.StepCreate(w, d, req, provider, pc, o); m.proc.Creator? && Relies(m.world.analyses, m.proc)
  {
    hide Table.Insert, Table.Update;
  }

  lemma RetrierRelies(w: World, d: nat, req: nat, parent: nat, pc: ApiPc, o: Outcome)
    ensures var m := Services.StepRetry(w, d, req, parent, pc, o); m.proc.Retrier? && Relies(m.world.analyses, m.proc)
  {
    hide Table.Insert, Table.Update;
  }

  lemma RemoverRelies(w: World, d: nat, target: nat, pc: RemovePc, o: Outcome)
    requires Relies(w.analyses, Remover(d, target, pc))
    ensures var m := Services.StepRemove(w, d, target, pc, o); m.proc.Remover? && Relies(m.world.analyses, m.proc)
  {
    hide Table.Delete;
  }

  lemma BeginStaysOpen(t: Table, a: nat, d: nat, req: nat)
    requires t.Valid() && Open(t, a, d, req)
    ensures Open(t.Update(d, req, Begin), a, d, req)
  {
    OpenIsFound(t, a, d, req);
  }

  lemma HandlerRelies(cfg: Config, w: World, d: nat, a: nat, req: nat, pc: HandlerPc, n: nat, o: Outcome)
    requires w.analyses.Valid() && HandlerOk(w, d, a, req, pc) && Relies(w.analyses, Handler(d, a, req, pc, n))
    ensures var m := Consumer.Step(w, d, a, req, pc, n, o);
      m.proc == Handler(d, a, req, m.proc.hpc, m.proc.deliveries) && Relies(m.world.analyses, m.proc)
  {
    hide Table.Valid, Table.Update;
    if pc.WriteAnalyzing? { BeginStaysOpen(w.analyses, a, d, req); }
  }

  lemma StepRelies(cfg: Config, w: World, p: Proc, o: Outcome)
    requires w.analyses.Valid() && ProcOk(cfg, w, p) && Relies(w.analyses, p)
    ensures var m := Step(cfg, w, p, o); Relies(m.world.analyses, m.proc)
  {
    hide UploadRequest.Step, ScanTask.Step, UploadTask.Step, ExtractTask.Step, Consumer.Step, Table.Valid;
    hide Services.StepCancel, Services.StepCreate, Services.StepRetry, Services.StepRemove, RequestOk, ExtractOk;
    match p
    case Request(req, pc) => RequestRelies(cfg, w, req, pc, o);
    case Scanner(args, pc, left) => ScannerStays(cfg, w, args, pc, left, o);
    case Uploader(args, pc, left) => UploaderStays(w, args, pc, left, o);
    case Extractor(args, pc, left) => ExtractorRelies(cfg, w, args, pc, left, o);
    case Canceller(d, pc) => CancellerStays(w, d, pc, o);
    case Creator(d, req, provider, pc) => CreatorRelies(w, d, req, provider, pc, o);
    case Retrier(d, req, parent, pc) => RetrierRelies(w, d, req, parent, pc, o);
    case Remover(d, target, pc) => RemoverRelies(w, d, target, pc, o);
    case Handler(d, a, req, pc, n) => HandlerRelies(cfg, w, d, a, req, pc, n, o);
  }

  lemma CancellerStays(w: World, d: nat, pc: CancelPc, o: Outcome)
    ensures Services.StepCancel(w, d, pc, o).proc.Canceller?
  {
  }

  lemma RestRelies(t: Table, p: Proc)
    requires !p.Running()
    ensures Relies(t, p)
  {
  }

  // --- The other processes ---

  /** A write under another key, or the removal of a finished analysis. */
  ghost predicate Elsewhere(t: Table, write: Write, d: nat, req: nat) {
    match write
    case Nothing => true
    case Insert(e, req', _, _) => (e, req') != (d, req)
    case Update(e, req', _) => (e, req') != (d, req)
    case Delete(a) => FinishedIfThere(t, a)
  }

  lemma QueuedStable(t: Table, write: Write, d: nat, req: nat)
    requires t.Valid() && QueuedAt(t, d, req) && Elsewhere(t, write, d, req)
    ensures QueuedAt(write.Apply(t), d, req)
  {
    var a := t.Find(d, req).value;
    assert (t.rows[a].doc, t.rows[a].req) == (d, req);
  }

  lemma OpenStable(t: Table, write: Write, a: nat, d: nat, req: nat)
    requires t.Valid() && Open(t, a, d, req) && Elsewhere(t, write, d, req)
    ensures Open(write.Apply(t), a, d, req)
  {
  }

  lemma FinishedStable(t: Table, write: Write, a: nat)
    requires t.Valid() && FinishedIfThere(t, a) && a < t.next && KeepsFinal(t, write.Apply(t))
    ensures FinishedIfThere(write.Apply(t), a)
  {
  }

  /** A process writes under its own key. */
  lemma WritesOwnKey(cfg: Config, w: World, p: Proc, o: Outcome, d: nat, req: nat)
    requires ProcOk(cfg, w, p) && KeyOf(p) != Some((d, req))
    requires Unfinished(w.analyses, WriteOf(w, p, o))
    ensures Elsewhere(w.analyses, WriteOf(w, p, o), d, req)
  {
    hide RequestOk, ExtractOk, ApiOk, ParentOk;
  }

  lemma ReliesStable(cfg: Config, w: World, p: Proc, o: Outcome, q: Proc)
    requires w.analyses.Valid() && ProcOk(cfg, w, p) && ProcOk(cfg, w, q)
    requires Relies(w.analyses, p) && Relies(w.analyses, q) && !Clash(OnePerAnalysis, p, q)
    requires KeepsFinal(w.analyses, WriteOf(w, p, o).Apply(w.analyses))
    ensures Relies(WriteOf(w, p, o).Apply(w.analyses), q)
  {
    hide Table.Valid, RequestOk, ExtractOk, ApiOk, ParentOk, HandlerOk, WriteOf, KeepsFinal, Unfinished, Elsewhere, Write.Apply;
    hide QueuedAt, Open, FinishedIfThere, Timely;
    var t, write := w.analyses, WriteOf(w, p, o);
    WritesUnfinished(cfg, w, p, o);
    if KeyOf(q).Some? { WritesOwnKey(cfg, w, p, o, KeyOf(q).value.0, KeyOf(q).value.1); }
    match q
    case Request(req, pc) => if pc.MarkWrite? { QueuedStable(t, write, pc.doc, req); }
    case Extractor(args, pc, _) => if pc.MarkWrite? { QueuedStable(t, write, args.doc, args.req); }
    case Creator(d, req, _, pc) => if pc.MarkWrite? { QueuedStable(t, write, d, req); }
    case Retrier(d, req, _, pc) => if pc.MarkWrite? { QueuedStable(t, write, d, req); }
    case Remover(_, target, pc) =>
      if (pc.FindChild? && pc.terminal) || pc.Delete? { FinishedStable(t, write, target); }
    case Handler(d, a, req, pc, _) => if !Reading(pc) { OpenStable(t, write, a, d, req); }
    case _ =>
  }

  // --- Whole runs ---

  ghost predicate Final(s: System) {
    AllWellFormed(s.world.analyses) && forall i :: 0 <= i < |s.procs| ==> Relies(s.world.analyses, s.procs[i])
  }

  lemma ActKeepsFinal(cfg: Config, s: System, i: nat, o: Outcome)
    requires Safe(cfg, s) && Final(s) && Enabled(cfg, s, Act(i, o)) && Free(OnePerAnalysis, s.procs, i)
    ensures Final(Apply(cfg, s, Act(i, o)))
    ensures KeepsFinal(s.world.analyses, Apply(cfg, s, Act(i, o)).world.analyses)
  {
    hide WorldOk, ProcOk, Step, Relies, KeepsFinal, Timely, WriteOf, Write.Apply, AllWellFormed, Clash, Unfinished;
    var w, p := s.world, s.procs[i];
    var s' := Apply(cfg, s, Act(i, o));
    TableValid(cfg, w);
    StepTable(cfg, w, p, o);
    WritesUnfinished(cfg, w, p, o);
    KeepsFinalIff(w.analyses, WriteOf(w, p, o));
    TimelyWellFormed(w.analyses, WriteOf(w, p, o));
    StepRelies(cfg, w, p, o);
    SpawnIsIdle(cfg, w, p, o);
    forall j | 0 <= j < |s'.procs| ensures Relies(s'.world.analyses, s'.procs[j]) {
      if j != i {
        if s'.procs[j].Running() { ReliesStable(cfg, w, p, o, s.procs[j]); } else { RestRelies(s'.world.analyses, s'.procs[j]); }
      }
    }
  }

  lemma ArriveKeepsFinal(cfg: Config, s: System, e: Event)
    requires Final(s) && Enabled(cfg, s, e) && !e.Act?
    ensures Final(Apply(cfg, s, e)) && Apply(cfg, s, e).world.analyses == s.world.analyses
  {
    hide Relies;
    StartedRests(cfg, s, e);
    RestRelies(s.world.analyses, Started(s, e));
  }

  lemma {:induction false} RunIsFinal(cfg: Config, s: System, es: seq<Event>)
    requires cfg.CollisionFree() && Safe(cfg, s) && Numbered(s) && Final(s)
    requires Feasible(cfg, s, es) && Respects(cfg, OnePerAnalysis, s, es)
    ensures Final(Run(cfg, s, es))
    ensures KeepsFinal(s.world.analyses, Run(cfg, s, es).world.analyses)
    decreases |es|
  {
    hide WorldOk, ProcOk, Final, Free, Step, Grows;
    if es != [] {
      var s' := Apply(cfg, s, es[0]);
      ApplyKeepsSafety(cfg, s, es[0]);
      if es[0].Act? { ActKeepsFinal(cfg, s, es[0].i, es[0].o); } else { ArriveKeepsFinal(cfg, s, es[0]); }
      RunIsFinal(cfg, s', es[1..]);
      RunIsSafe(cfg, s', es[1..]);
      TableGrown(s'.world, Run(cfg, s', es[1..]).world);
      TableGrown(s.world, s'.world);
      TableValid(cfg, s.world);
    }
  }
}
