/** The histories kept beside the program are what they are said to be: bytes count as clean only after a scan said
    so, and a document or an analysis is given up exactly where a last resort fails. */
module Histories {
  import opened Types
  import opened AnalysisTable
  import opened Pipeline
  import opened BaseTask
  import opened Machine
  import opened Invariant
  import opened Safety
  import opened Idempotence
  import Progress
  import ScanTask
  import UploadTask
  import ExtractTask
  import UploadRequest
  import Services
  import Consumer

  // --- Scans ---

  /** This call is a scan of these bytes that came back clean. */
  ghost predicate CleanScan(w: World, p: Proc, o: Outcome, bytes: Bytes) {
    && p.Scanner? && p.spc.Scan? && p.args.req in w.temps && w.temps[p.args.req] == bytes
    && !o.Raise? && !o.Unavailable? && !o.Infected?
  }

  lemma StepClean(cfg: Config, w: World, p: Proc, o: Outcome, bytes: Bytes)
    requires bytes in Step(cfg, w, p, o).world.clean
    ensures bytes in w.clean || CleanScan(w, p, o, bytes)
  {
    hide UploadRequest.Step, ScanTask.Step, UploadTask.Step, ExtractTask.Step, Services.StepCancel, Services.StepCreate;
    hide Services.StepRetry, Services.StepRemove, Consumer.Step, CleanScan;
    match p
    case Request(req, pc) => RequestClean(cfg, w, req, pc, o);
    case Scanner(args, pc, left) => ScannerClean(cfg, w, args, pc, left, o, bytes);
    case Uploader(args, pc, left) => UploaderClean(w, args, pc, left, o);
    case Extractor(args, pc, left) => ExtractorClean(cfg, w, args, pc, left, o);
    case Canceller(d, pc) => CancellerClean(w, d, pc, o);
    case Creator(d, req, provider, pc) => CreatorClean(w, d, req, provider, pc, o);
    case Retrier(d, req, parent, pc) => RetrierClean(w, d, req, parent, pc, o);
    case Remover(d, target, pc) => RemoverClean(w, d, target, pc, o);
    case Handler(d, a, req, pc, n) => HandlerClean(w, d, a, req, pc, n, o);
  }

  lemma ScannerClean(cfg: Config, w: World, args: Args, pc: ScanPc, left: nat, o: Outcome, bytes: Bytes)
    requires bytes in ScanTask.Step(cfg, w, args, pc, left, o).world.clean
    ensures bytes in w.clean || CleanScan(w, Scanner(args, pc, left), o, bytes)
  {
  }

  lemma RequestClean(cfg: Config, w: World, req: nat, pc: RequestPc, o: Outcome)
    ensures UploadRequest.Step(cfg, w, req, pc, o).world.clean == w.clean
  {
  }

  lemma UploaderClean(w: World, args: Args, pc: UploadPc, left: nat, o: Outcome)
    ensures UploadTask.Step(w, args, pc, left, o).world.clean == w.clean
  {
  }

  lemma ExtractorClean(cfg: Config, w: World, args: Args, pc: ExtractPc, left: nat, o: Outcome)
    ensures ExtractTask.Step(cfg, w, args, pc, left, o).world.clean == w.clean
  {
  }

  lemma CancellerClean(w: World, d: nat, pc: CancelPc, o: Outcome)
    ensures Services.StepCancel(w, d, pc, o).world.clean == w.clean
  {
  }

  lemma CreatorClean(w: World, d: nat, req: nat, provider: Provider, pc: ApiPc, o: Outcome)
    ensures Services.StepCreate(w, d, req, provider, pc, o).world.clean == w.clean
  {
  }

  lemma RetrierClean(w: World, d: nat, req: nat, parent: nat, pc: ApiPc, o: Outcome)
    ensures Services.StepRetry(w, d, req, parent, pc, o).world.clean == w.clean
  {
  }

  lemma RemoverClean(w: World, d: nat, target: nat, pc: RemovePc, o: Outcome)
    ensures Services.StepRemove(w, d, target, pc, o).world.clean == w.clean
  {
  }

  lemma HandlerClean(w: World, d: nat, a: nat, req: nat, pc: HandlerPc, n: nat, o: Outcome)
    ensures Consumer.Step(w, d, a, req, pc, n, o).world.clean == w.clean
  {
    hide Consumer.Step;
    Progress.HandlerOnlyRuns(w, d, a, req, pc, n, o);
  }

  /** Some call of this run is a clean scan of these bytes. */
  ghost predicate ScannedClean(cfg: Config, s: System, es: seq<Event>, bytes: Bytes)
    requires Feasible(cfg, s, es)
    decreases |es|
  {
    es != [] &&
      ((es[0].Act? && CleanScan(s.world, s.procs[es[0].i], es[0].o, bytes))
       || ScannedClean(cfg, Apply(cfg, s, es[0]), es[1..], bytes))
  }

  lemma {:induction false} CleanMeansScanned(cfg: Config, s: System, es: seq<Event>, bytes: Bytes)
    requires Feasible(cfg, s, es) && bytes in Run(cfg, s, es).world.clean
    ensures bytes in s.world.clean || ScannedClean(cfg, s, es, bytes)
    decreases |es|
  {
    hide Step;
    if es != [] {
      CleanMeansScanned(cfg, Apply(cfg, s, es[0]), es[1..], bytes);
      if es[0].Act? && bytes in Apply(cfg, s, es[0]).world.clean {
        StepClean(cfg, s.world, s.procs[es[0].i], es[0].o, bytes);
      }
    }
  }

  // --- Last resorts ---

  /** The failure callback could not find out the status, or could not write it. */
  predicate TailGivesUp(t: Tail, o: Outcome) {
    o.Raise? && (t.ReadStatus? || (t.WriteFailed? && !o.landed))
  }

  /** The document this call gives up: its recovery raised, or it was created by an insert that raised, so that
      nobody knows it. */
  function GivenUpDoc(w: World, p: Proc, o: Outcome): Option<nat> {
    if !o.Raise? then None else
    match p
    case Request(_, CreateDoc(_)) => if o.landed then Some(|w.docs|) else None
    case Request(_, MarkFailed(d)) => if o.landed then None else Some(d)
    case Scanner(args, Tail(t), _) => if TailGivesUp(t, o) then Some(args.doc) else None
    case Uploader(args, Tail(t), _) => if TailGivesUp(t, o) then Some(args.doc) else None
    case Extractor(args, ReadExtracted, _) => Some(args.doc)
    case Extractor(args, Tail(t), _) => if TailGivesUp(t, o) then Some(args.doc) else None
    case _ => None
  }

  /** The handler is about to write, and its analysis was removed: the write hits what took its place. */
  predicate Detached(t: Table, a: nat, pc: HandlerPc) {
    a !in t.rows && (pc.NoText? || pc.WriteAnalyzing? || pc.WriteSuccess? || pc.WriteRefused?)
  }

  function InsertGivesUp(t: Table, d: nat, req: nat, retryOf: Option<nat>, o: Outcome): Option<nat> {
    if o.Raise? && o.landed && t.Accepts(d, req, retryOf) then Some(t.next) else None
  }

  function ApiGivesUp(t: Table, d: nat, req: nat, pc: ApiPc, retryOf: Option<nat>, o: Outcome): Option<nat> {
    match pc
    case Insert(_) => InsertGivesUp(t, d, req, retryOf, o)
    case MarkFind(_) => if o.Raise? then t.Find(d, req) else None
    case MarkWrite(_) => if o.Raise? && !o.landed then t.Find(d, req) else None
    case _ => None
  }

  /** The analysis this call gives up: marking it failed raised, it was created by an insert that raised, or a
      handler of a removed analysis wrote over it. */
  function GivenUpRun(w: World, p: Proc, o: Outcome): Option<nat> {
    var t := w.analyses;
    match p
    case Request(req, Insert(d)) => InsertGivesUp(t, d, req, None, o)
    case Request(req, MarkFind(d)) => if o.Raise? then t.Find(d, req) else None
    case Request(req, MarkWrite(d)) => if o.Raise? && !o.landed then t.Find(d, req) else None
    case Extractor(args, ReadExtracted, _) => if o.Raise? then t.Find(args.doc, args.req) else None
    case Extractor(args, MarkFind, _) => if o.Raise? then t.Find(args.doc, args.req) else None
    case Extractor(args, MarkWrite, _) => if o.Raise? && !o.landed then t.Find(args.doc, args.req) else None
    case Creator(d, req, _, pc) => ApiGivesUp(t, d, req, pc, None, o)
    case Retrier(d, req, parent, pc) => ApiGivesUp(t, d, req, pc, Some(parent), o)
    case Handler(d, a, req, pc, _) =>
      if pc.Recover? then (if o.Raise? then t.Find(d, req) else None)
      else if pc.RecoverWrite? then (if o.Raise? && !o.landed then t.Find(d, req) else None)
      else if Detached(t, a, pc) && !(o.Raise? && !o.landed) then t.Find(d, req) else None
    case _ => None
  }

  function With(lost: set<nat>, x: Option<nat>): set<nat> {
    if x.Some? then lost + {x.value} else lost
  }

  /** The histories grow by what the call gives up, and by nothing else. */
  ghost predicate Recorded(w: World, p: Proc, o: Outcome, w': World) {
    w'.lostDocs == With(w.lostDocs, GivenUpDoc(w, p, o)) && w'.lostRuns == With(w.lostRuns, GivenUpRun(w, p, o))
  }

  lemma RequestRecorded(cfg: Config, w: World, req: nat, pc: RequestPc, o: Outcome)
    ensures Recorded(w, Request(req, pc), o, UploadRequest.Step(cfg, w, req, pc, o).world)
  {
    hide UploadRequest.StepAnalyse;
    if pc.Insert? || pc.MarkFind? || pc.MarkWrite? {
      hide *;
      AnalyseRecorded(cfg, w, req, pc, o);
    } else if pc.UpsertText? || pc.Degrade? || pc.Unlink? || pc.Find? || pc.FindAgain? || pc.Publish? {
      hide *;
      CopyRecorded(cfg, w, req, pc, o);
    }
  }

  lemma AnalyseRecorded(cfg: Config, w: World, req: nat, pc: RequestPc, o: Outcome)
    requires pc.Insert? || pc.MarkFind? || pc.MarkWrite?
    ensures Recorded(w, Request(req, pc), o, UploadRequest.Step(cfg, w, req, pc, o).world)
  {
    hide Table.Update;
  }

  lemma CopyRecorded(cfg: Config, w: World, req: nat, pc: RequestPc, o: Outcome)
    requires pc.UpsertText? || pc.Degrade? || pc.Unlink? || pc.Find? || pc.FindAgain? || pc.Publish?
    ensures Recorded(w, Request(req, pc), o, UploadRequest.Step(cfg, w, req, pc, o).world)
  {
  }

  lemma ScannerRecorded(cfg: Config, w: World, args: Args, pc: ScanPc, left: nat, o: Outcome)
    ensures Recorded(w, Scanner(args, pc, left), o, ScanTask.Step(cfg, w, args, pc, left, o).world)
  {
    hide StepTail, With;
    NothingRecorded(w);
    if pc.Tail? { TailRecorded(w, args, pc.tail, o); }
  }

  lemma TailRecorded(w: World, args: Args, t: Tail, o: Outcome)
    ensures var w' := StepTail(w, args, t, o);
      w'.lostRuns == w.lostRuns && w'.lostDocs == With(w.lostDocs, if TailGivesUp(t, o) then Some(args.doc) else None)
  {
  }

  lemma UploaderRecorded(w: World, args: Args, pc: UploadPc, left: nat, o: Outcome)
    ensures Recorded(w, Uploader(args, pc, left), o, UploadTask.Step(w, args, pc, left, o).world)
  {
    hide StepTail, With;
    NothingRecorded(w);
    if pc.Tail? { TailRecorded(w, args, pc.tail, o); }
  }

  lemma NothingRecorded(w: World)
    ensures With(w.lostDocs, None) == w.lostDocs && With(w.lostRuns, None) == w.lostRuns
  {
  }

  lemma ExtractorRecorded(cfg: Config, w: World, args: Args, pc: ExtractPc, left: nat, o: Outcome)
    ensures Recorded(w, Extractor(args, pc, left), o, ExtractTask.Step(cfg, w, args, pc, left, o).world)
  {
    hide ExtractTask.StepDispatch, ExtractTask.StepFailure;
    if ExtractTask.Dispatching(pc) {
      hide *;
      DispatchRecorded(cfg, w, args, pc, left, o);
    } else if pc.ReadExtracted? || pc.MarkFind? || pc.MarkWrite? || pc.Tail? {
      hide *;
      FailureRecorded(cfg, w, args, pc, left, o);
    }
  }

  lemma DispatchRecorded(cfg: Config, w: World, args: Args, pc: ExtractPc, left: nat, o: Outcome)
    requires ExtractTask.Dispatching(pc)
    ensures Recorded(w, Extractor(args, pc, left), o, ExtractTask.Step(cfg, w, args, pc, left, o).world)
  {
    hide ExtractTask.StepFailure, Table.Insert;
  }

  lemma FailureRecorded(cfg: Config, w: World, args: Args, pc: ExtractPc, left: nat, o: Outcome)
    requires pc.ReadExtracted? || pc.MarkFind? || pc.MarkWrite? || pc.Tail?
    ensures Recorded(w, Extractor(args, pc, left), o, ExtractTask.Step(cfg, w, args, pc, left, o).world)
  {
    hide ExtractTask.StepDispatch, Table.Update, StepTail, With, World.LoseRun, Table.Find;
    NothingRecorded(w);
    LoseRunRecords(w, args.doc, args.req);
    LoseBothRecords(w, args.doc, args.req);
    if pc.Tail? { TailRecorded(w, args, pc.tail, o); }
  }

  lemma LoseBothRecords(w: World, d: nat, req: nat)
    ensures w.LoseDoc(d).LoseRun(d, req).lostDocs == With(w.lostDocs, Some(d))
    ensures w.LoseDoc(d).LoseRun(d, req).lostRuns == With(w.lostRuns, w.analyses.Find(d, req))
  {
  }

  lemma InsertRecorded(w: World, d: nat, req: nat, provider: Provider, retryOf: Option<nat>, o: Outcome)
    ensures var w' := Services.StepInsert(w, d, req, provider, retryOf, o).0;
      w'.lostDocs == w.lostDocs && w'.lostRuns == With(w.lostRuns, InsertGivesUp(w.analyses, d, req, retryOf, o))
  {
  }

  lemma DispatchApiRecorded(w: World, d: nat, req: nat, pc: ApiPc, retryOf: Option<nat>, o: Outcome)
    requires pc.Publish? || pc.MarkFind? || pc.MarkWrite?
    ensures var w' := Services.StepDispatch(w, d, req, pc, o).0;
      w'.lostDocs == w.lostDocs && w'.lostRuns == With(w.lostRuns, ApiGivesUp(w.analyses, d, req, pc, retryOf, o))
  {
    hide Table.Update;
  }

  lemma CreatorRecorded(w: World, d: nat, req: nat, provider: Provider, pc: ApiPc, o: Outcome)
    ensures Recorded(w, Creator(d, req, provider, pc), o, Services.StepCreate(w, d, req, provider, pc, o).world)
  {
    hide Services.StepInsert, Services.StepDispatch;
    if pc.Insert? {
      InsertRecorded(w, d, req, pc.provider, None, o);
    } else if pc.Publish? || pc.MarkFind? || pc.MarkWrite? {
      DispatchApiRecorded(w, d, req, pc, None, o);
    }
  }

  lemma RetrierRecorded(w: World, d: nat, req: nat, parent: nat, pc: ApiPc, o: Outcome)
    ensures Recorded(w, Retrier(d, req, parent, pc), o, Services.StepRetry(w, d, req, parent, pc, o).world)
  {
    hide Services.StepInsert, Services.StepDispatch;
    if pc.Insert? {
      InsertRecorded(w, d, req, pc.provider, Some(parent), o);
    } else if pc.Publish? || pc.MarkFind? || pc.MarkWrite? {
      DispatchApiRecorded(w, d, req, pc, Some(parent), o);
    }
  }

  lemma LoseRunRecords(w: World, d: nat, req: nat)
    ensures w.LoseRun(d, req).lostDocs == w.lostDocs
    ensures w.LoseRun(d, req).lostRuns == With(w.lostRuns, w.analyses.Find(d, req))
  {
  }

  lemma UpdatedLoses(w: World, d: nat, a: nat, req: nat, change: Change)
    ensures Consumer.Updated(w, d, a, req, change).lostDocs == w.lostDocs
    ensures a in w.analyses.rows ==> Consumer.Updated(w, d, a, req, change).lostRuns == w.lostRuns
    ensures a !in w.analyses.rows ==>
      Consumer.Updated(w, d, a, req, change).lostRuns == With(w.lostRuns, w.analyses.Find(d, req))
  {
    hide Table.Update, World.LoseRun, Table.Find, With;
    LoseRunRecords(w, d, req);
  }

  lemma HandlerRecorded(cfg: Config, w: World, d: nat, a: nat, req: nat, pc: HandlerPc, n: nat, o: Outcome)
    requires !pc.Corrupt?
    ensures Recorded(w, Handler(d, a, req, pc, n), o, Consumer.Step(w, d, a, req, pc, n, o).world)
  {
    hide Table.Update, Consumer.Updated;
    match pc
    case NoText => UpdatedLoses(w, d, a, req, Break(Permanent));
    case WriteAnalyzing(_, _) => UpdatedLoses(w, d, a, req, Begin);
    case WriteSuccess(report) => UpdatedLoses(w, d, a, req, Change.Finish(report));
    case WriteRefused => UpdatedLoses(w, d, a, req, Break(Permanent));
    case _ =>
  }

  lemma StepRecorded(cfg: Config, w: World, p: Proc, o: Outcome)
    requires p.Handler? ==> !p.hpc.Corrupt?
    ensures Recorded(w, p, o, Step(cfg, w, p, o).world)
  {
    hide UploadRequest.Step, ScanTask.Step, UploadTask.Step, ExtractTask.Step, Services.StepCancel, Services.StepCreate;
    hide Services.StepRetry, Services.StepRemove, Consumer.Step, Recorded;
    match p
    case Canceller(d, pc) => CancellerRecorded(w, d, pc, o);
    case Remover(d, target, pc) => RemoverRecorded(w, d, target, pc, o);
    case Request(req, pc) => RequestRecorded(cfg, w, req, pc, o);
    case Scanner(args, pc, left) => ScannerRecorded(cfg, w, args, pc, left, o);
    case Uploader(args, pc, left) => UploaderRecorded(w, args, pc, left, o);
    case Extractor(args, pc, left) => ExtractorRecorded(cfg, w, args, pc, left, o);
    case Creator(d, req, provider, pc) => CreatorRecorded(w, d, req, provider, pc, o);
    case Retrier(d, req, parent, pc) => RetrierRecorded(w, d, req, parent, pc, o);
    case Handler(d, a, req, pc, n) => HandlerRecorded(cfg, w, d, a, req, pc, n, o);
  }

  lemma CancellerRecorded(w: World, d: nat, pc: CancelPc, o: Outcome)
    ensures Recorded(w, Canceller(d, pc), o, Services.StepCancel(w, d, pc, o).world)
  {
  }

  lemma RemoverRecorded(w: World, d: nat, target: nat, pc: RemovePc, o: Outcome)
    ensures Recorded(w, Remover(d, target, pc), o, Services.StepRemove(w, d, target, pc, o).world)
  {
    hide Table.Delete;
  }

  /** Some call of this run gives up this document. */
  ghost predicate GaveUpDoc(cfg: Config, s: System, es: seq<Event>, d: nat)
    requires Feasible(cfg, s, es)
    decreases |es|
  {
    es != [] &&
      ((es[0].Act? && GivenUpDoc(s.world, s.procs[es[0].i], es[0].o) == Some(d))
       || GaveUpDoc(cfg, Apply(cfg, s, es[0]), es[1..], d))
  }

  /** Some call of this run gives up this analysis. */
  ghost predicate GaveUpRun(cfg: Config, s: System, es: seq<Event>, a: nat)
    requires Feasible(cfg, s, es)
    decreases |es|
  {
    es != [] &&
      ((es[0].Act? && GivenUpRun(s.world, s.procs[es[0].i], es[0].o) == Some(a))
       || GaveUpRun(cfg, Apply(cfg, s, es[0]), es[1..], a))
  }

  lemma NotCorrupt(cfg: Config, w: World, p: Proc)
    requires ProcOk(cfg, w, p)
    ensures p.Handler? ==> !p.hpc.Corrupt?
  {
  }

  /** What counts as lost at the end of a run was given up by one of its calls. */
  lemma {:induction false} LostIsGivenUp(cfg: Config, s: System, es: seq<Event>)
    requires cfg.CollisionFree() && Safe(cfg, s) && Numbered(s) && Feasible(cfg, s, es)
    ensures forall d :: d in Run(cfg, s, es).world.lostDocs <==> d in s.world.lostDocs || GaveUpDoc(cfg, s, es, d)
    ensures forall a :: a in Run(cfg, s, es).world.lostRuns <==> a in s.world.lostRuns || GaveUpRun(cfg, s, es, a)
    decreases |es|
  {
    hide Step, WorldOk, ProcOk, Grows, GivenUpDoc, GivenUpRun;
    if es != [] {
      ApplyKeepsSafety(cfg, s, es[0]);
      if es[0].Act? {
        NotCorrupt(cfg, s.world, s.procs[es[0].i]);
        StepRecorded(cfg, s.world, s.procs[es[0].i], es[0].o);
      }
      LostIsGivenUp(cfg, Apply(cfg, s, es[0]), es[1..]);
    }
  }
}
