/** Nothing gets stuck: at every moment of every interleaving, unfinished work is covered by a process
    that will either finish it, hand it on, or record the failure. */
module Progress {
  import opened Types
  import opened AnalysisTable
  import opened Pipeline
  import opened BaseTask
  import opened Machine
  import opened Invariant
  import opened Safety
  import opened Runs
  import ScanTask
  import UploadTask
  import ExtractTask
  import UploadRequest
  import Services
  import Consumer

  /** How strong a process a status needs: 2 while the object is not stored, 1 while the text is missing. */
  function Need(status: DocumentStatus): nat {
    match status
    case Created => 2
    case Scanning => 2
    case Uploading => 2
    case Uploaded => 1
    case Extracting => 1
    case _ => 0
  }

  /** What a process promises for document `d`: 2 takes over whatever the status is, 1 takes over a stored object.
      An extraction that finds a weaker status drops out, so it never promises 2 before its failure callback. */
  function Covers(p: Proc, d: nat): nat {
    if p.Doc() != Some(d) then 0 else
    match p
    case Request(_, pc) =>
      if pc.EnqueueFirst? || pc.MarkFailed? then 2 else if pc.EnqueueExtract? then 1 else 0
    case Scanner(_, pc, _) => if pc.Done? || pc == ScanPc.Tail(Tail.Unlink) then 0 else 2
    case Uploader(_, pc, _) =>
      if pc.Done? || pc == UploadPc.Tail(Tail.Unlink) then 0 else if pc.Enqueue? then 1 else 2
    case Extractor(_, pc, _) =>
      if pc.Done? || pc == ExtractPc.Tail(Tail.Unlink) || pc.Unlink? || ExtractTask.Dispatching(pc) || pc.MarkFind?
         || pc.MarkWrite? then 0
      else if pc.Tail? then 2 else 1
    case _ => 0
  }

  function Max(a: nat, b: nat): nat { if a < b then b else a }

  function SpawnCovers(m: Move, d: nat): nat {
    if m.spawned.Some? then Covers(m.spawned.value, d) else 0
  }

  ghost predicate DocCovered(w: World, d: nat, level: nat)
    requires d < |w.docs|
  {
    d in w.lostDocs || Need(w.docs[d].status) <= level
  }

  /** One step, seen from document `d`, when the other processes cover it up to `level`. */
  ghost predicate DocStepOk(w: World, p: Proc, m: Move, d: nat, level: nat) {
    d < |m.world.docs| && (d < |w.docs| ==> DocCovered(w, d, Max(level, Covers(p, d)))) ==>
      DocCovered(m.world, d, Max(level, Max(Covers(m.proc, d), SpawnCovers(m, d))))
  }

  lemma ScannerCovers(cfg: Config, w: World, args: Args, pc: ScanPc, left: nat, o: Outcome, level: nat)
    requires args.doc < |w.docs|
    ensures DocStepOk(w, Scanner(args, pc, left), ScanTask.Step(cfg, w, args, pc, left, o), args.doc, level)
  {
    hide *;
    if pc.Start? || pc.CheckPath? || pc.Scan? || pc.Enqueue? || pc.Done? {
      ScanReadingCovers(cfg, w, args, pc, left, o, level);
    } else if pc.Tail? {
      ScanTailCovers(cfg, w, args, pc, left, o, level);
    } else {
      ScanWritingCovers(cfg, w, args, pc, left, o, level);
    }
  }

  lemma ScanReadingCovers(cfg: Config, w: World, args: Args, pc: ScanPc, left: nat, o: Outcome, level: nat)
    requires args.doc < |w.docs| && (pc.Start? || pc.CheckPath? || pc.Scan? || pc.Enqueue? || pc.Done?)
    ensures DocStepOk(w, Scanner(args, pc, left), ScanTask.Step(cfg, w, args, pc, left, o), args.doc, level)
  {
  }

  lemma ScanTailCovers(cfg: Config, w: World, args: Args, pc: ScanPc, left: nat, o: Outcome, level: nat)
    requires args.doc < |w.docs| && pc.Tail?
    ensures DocStepOk(w, Scanner(args, pc, left), ScanTask.Step(cfg, w, args, pc, left, o), args.doc, level)
  {
  }

  lemma ScanWritingCovers(cfg: Config, w: World, args: Args, pc: ScanPc, left: nat, o: Outcome, level: nat)
    requires args.doc < |w.docs| && (pc.WriteCancelled? || pc.WriteScanning? || pc.WriteInfected? || pc.WriteFailed?)
    ensures DocStepOk(w, Scanner(args, pc, left), ScanTask.Step(cfg, w, args, pc, left, o), args.doc, level)
  {
  }

  lemma UploaderCovers(w: World, args: Args, pc: UploadPc, left: nat, o: Outcome, level: nat)
    requires args.doc < |w.docs|
    ensures DocStepOk(w, Uploader(args, pc, left), UploadTask.Step(w, args, pc, left, o), args.doc, level)
  {
    hide StepTail;
    if pc.Tail? {
      hide *;
      UploadTailCovers(w, args, pc, left, o, level);
    }
  }

  lemma UploadTailCovers(w: World, args: Args, pc: UploadPc, left: nat, o: Outcome, level: nat)
    requires args.doc < |w.docs| && pc.Tail?
    ensures DocStepOk(w, Uploader(args, pc, left), UploadTask.Step(w, args, pc, left, o), args.doc, level)
  {
  }

  lemma ExtractorCovers(cfg: Config, w: World, args: Args, pc: ExtractPc, left: nat, o: Outcome, level: nat)
    requires args.doc < |w.docs|
    ensures DocStepOk(w, Extractor(args, pc, left), ExtractTask.Step(cfg, w, args, pc, left, o), args.doc, level)
  {
    hide ExtractTask.StepDispatch, ExtractTask.StepFailure;
    if pc.Find? || pc.Insert? || pc.FindAgain? || pc.Publish? {
      hide *;
      DispatchCovers(cfg, w, args, pc, left, o, level);
    } else if pc.Start? || pc.CheckPath? || pc.Extract? || pc.Upsert? || pc.Unlink? {
      hide *;
      ReadingCovers(cfg, w, args, pc, left, o, level);
    } else if pc.Restore? {
      hide *;
      RestoreCovers(cfg, w, args, pc, left, o, level);
    } else if pc.ReadExtracted? || pc.MarkFind? || pc.MarkWrite? || pc.Tail? {
      hide *;
      FailureCovers(cfg, w, args, pc, left, o, level);
    }
  }

  lemma RestoreCovers(cfg: Config, w: World, args: Args, pc: ExtractPc, left: nat, o: Outcome, level: nat)
    requires args.doc < |w.docs| && pc.Restore?
    ensures DocStepOk(w, Extractor(args, pc, left), ExtractTask.Step(cfg, w, args, pc, left, o), args.doc, level)
  {
    hide ExtractTask.StepDispatch, ExtractTask.StepFailure, DocStepOk;
    ElsewhereCovers(w, Extractor(args, pc, left), ExtractTask.Step(cfg, w, args, pc, left, o), args.doc, level);
  }

  /** A step that leaves the documents alone and does not promise less. */
  lemma ElsewhereCovers(w: World, p: Proc, m: Move, d: nat, level: nat)
    requires m.world.docs == w.docs && m.world.lostDocs == w.lostDocs && d < |w.docs|
    requires Max(Covers(m.proc, d), SpawnCovers(m, d)) >= Covers(p, d)
    ensures DocStepOk(w, p, m, d, level)
  {
  }

  lemma ReadingCovers(cfg: Config, w: World, args: Args, pc: ExtractPc, left: nat, o: Outcome, level: nat)
    requires args.doc < |w.docs| && (pc.Start? || pc.CheckPath? || pc.Extract? || pc.Upsert? || pc.Unlink?)
    ensures DocStepOk(w, Extractor(args, pc, left), ExtractTask.Step(cfg, w, args, pc, left, o), args.doc, level)
  {
    hide ExtractTask.StepDispatch, ExtractTask.StepFailure;
  }

  lemma DispatchCovers(cfg: Config, w: World, args: Args, pc: ExtractPc, left: nat, o: Outcome, level: nat)
    requires args.doc < |w.docs| && (pc.Find? || pc.Insert? || pc.FindAgain? || pc.Publish?)
    ensures DocStepOk(w, Extractor(args, pc, left), ExtractTask.Step(cfg, w, args, pc, left, o), args.doc, level)
  {
  }

  lemma FailureCovers(cfg: Config, w: World, args: Args, pc: ExtractPc, left: nat, o: Outcome, level: nat)
    requires args.doc < |w.docs| && (pc.ReadExtracted? || pc.MarkFind? || pc.MarkWrite? || pc.Tail?)
    ensures DocStepOk(w, Extractor(args, pc, left), ExtractTask.Step(cfg, w, args, pc, left, o), args.doc, level)
  {
    hide *;
    if pc.Tail? {
      ExtractTailCovers(cfg, w, args, pc, left, o, level);
    } else if pc.ReadExtracted? {
      ReadExtractedCovers(cfg, w, args, pc, left, o, level);
    } else {
      MarkCovers(cfg, w, args, pc, left, o, level);
    }
  }

  lemma ReadExtractedCovers(cfg: Config, w: World, args: Args, pc: ExtractPc, left: nat, o: Outcome, level: nat)
    requires args.doc < |w.docs| && pc.ReadExtracted?
    ensures DocStepOk(w, Extractor(args, pc, left), ExtractTask.Step(cfg, w, args, pc, left, o), args.doc, level)
  {
    hide ExtractTask.StepDispatch;
  }

  lemma MarkCovers(cfg: Config, w: World, args: Args, pc: ExtractPc, left: nat, o: Outcome, level: nat)
    requires args.doc < |w.docs| && (pc.MarkFind? || pc.MarkWrite?)
    ensures DocStepOk(w, Extractor(args, pc, left), ExtractTask.Step(cfg, w, args, pc, left, o), args.doc, level)
  {
    hide World.Update, World.LoseRun, ExtractTask.StepDispatch, DocStepOk;
    UpdateOnlyRuns(w, args.doc, 0, args.req, Break(Transient));
    ElsewhereCovers(w, Extractor(args, pc, left), ExtractTask.Step(cfg, w, args, pc, left, o), args.doc, level);
  }

  lemma ExtractTailCovers(cfg: Config, w: World, args: Args, pc: ExtractPc, left: nat, o: Outcome, level: nat)
    requires args.doc < |w.docs| && pc.Tail?
    ensures DocStepOk(w, Extractor(args, pc, left), ExtractTask.Step(cfg, w, args, pc, left, o), args.doc, level)
  {
    hide ExtractTask.StepDispatch;
  }

  lemma RequestCovers(cfg: Config, w: World, req: nat, pc: RequestPc, o: Outcome, level: nat)
    requires RequestOk(cfg, w, req, pc)
    ensures DocStepOk(w, Request(req, pc), UploadRequest.Step(cfg, w, req, pc, o), ScopeOf(w, Request(req, pc)).doc, level)
  {
    hide UploadRequest.StepAnalyse;
    if pc.Find? || pc.Insert? || pc.FindAgain? || pc.Publish? || pc.MarkFind? || pc.MarkWrite? || pc.Unlink? {
      hide *;
      AnalyseCovers(cfg, w, req, pc, o, level);
    } else if pc.UpsertText? || pc.Degrade? {
      hide *;
      CopyCovers(cfg, w, req, pc, o, level);
    }
  }

  lemma AnalyseCovers(cfg: Config, w: World, req: nat, pc: RequestPc, o: Outcome, level: nat)
    requires RequestOk(cfg, w, req, pc)
    requires pc.Find? || pc.Insert? || pc.FindAgain? || pc.Publish? || pc.MarkFind? || pc.MarkWrite? || pc.Unlink?
    ensures DocStepOk(w, Request(req, pc), UploadRequest.Step(cfg, w, req, pc, o), ScopeOf(w, Request(req, pc)).doc, level)
  {
    hide Table.Insert, Table.Update, DocStepOk;
    ElsewhereCovers(w, Request(req, pc), UploadRequest.Step(cfg, w, req, pc, o), pc.doc, level);
  }

  lemma CopyCovers(cfg: Config, w: World, req: nat, pc: RequestPc, o: Outcome, level: nat)
    requires RequestOk(cfg, w, req, pc) && (pc.UpsertText? || pc.Degrade?)
    ensures DocStepOk(w, Request(req, pc), UploadRequest.Step(cfg, w, req, pc, o), ScopeOf(w, Request(req, pc)).doc, level)
  {
  }

  lemma CancellerCovers(w: World, d: nat, pc: CancelPc, o: Outcome, level: nat)
    ensures DocStepOk(w, Canceller(d, pc), Services.StepCancel(w, d, pc, o), d, level)
  {
  }

  ghost predicate SameDocs(w: World, w': World) {
    w'.docs == w.docs && w'.lostDocs == w.lostDocs
  }

  lemma CreatorCovers(w: World, d: nat, req: nat, provider: Provider, pc: ApiPc, o: Outcome)
    ensures SameDocs(w, Services.StepCreate(w, d, req, provider, pc, o).world)
  {
  }

  lemma RetrierCovers(w: World, d: nat, req: nat, parent: nat, pc: ApiPc, o: Outcome)
    ensures SameDocs(w, Services.StepRetry(w, d, req, parent, pc, o).world)
  {
  }

  lemma RemoverCovers(w: World, d: nat, target: nat, pc: RemovePc, o: Outcome)
    ensures SameDocs(w, Services.StepRemove(w, d, target, pc, o).world)
  {
  }

  /** What no status write of an analysis touches. */
  ghost predicate OnlyRuns(w: World, w': World) {
    SameDocs(w, w') && w'.temps == w.temps && w'.clean == w.clean && w'.leaked == w.leaked
  }

  lemma UpdateOnlyRuns(w: World, d: nat, a: nat, req: nat, change: Change)
    ensures OnlyRuns(w, Consumer.Updated(w, d, a, req, change))
    ensures OnlyRuns(w, w.Update(d, req, change)) && OnlyRuns(w, w.LoseRun(d, req))
  {
    hide Table.Update;
  }

  lemma HandlerOnlyRuns(w: World, d: nat, a: nat, req: nat, pc: HandlerPc, n: nat, o: Outcome)
    ensures OnlyRuns(w, Consumer.Step(w, d, a, req, pc, n, o).world)
  {
    hide Consumer.Updated, World.Update, World.LoseRun, OnlyRuns;
    assert OnlyRuns(w, w) by { NoChange(w); }
    UpdateOnlyRuns(w, d, a, req, Break(Permanent));
    match pc
    case Corrupt => if a in w.analyses.rows { UpdateOnlyRuns(w, w.analyses.rows[a].doc, a, w.analyses.rows[a].req, Break(Permanent)); }
    case WriteAnalyzing(_, _) => UpdateOnlyRuns(w, d, a, req, Begin);
    case WriteSuccess(report) => UpdateOnlyRuns(w, d, a, req, Change.Finish(report));
    case RecoverWrite => UpdateOnlyRuns(w, d, a, req, Break(Transient));
    case _ =>
  }

  lemma NoChange(w: World)
    ensures OnlyRuns(w, w)
  {
  }

  lemma HandlerCovers(w: World, d: nat, a: nat, req: nat, pc: HandlerPc, n: nat, o: Outcome)
    ensures SameDocs(w, Consumer.Step(w, d, a, req, pc, n, o).world)
  {
    hide Consumer.Step;
    HandlerOnlyRuns(w, d, a, req, pc, n, o);
  }

  lemma StepKeepsCover(cfg: Config, w: World, p: Proc, o: Outcome, d: nat, level: nat)
    requires ProcOk(cfg, w, p) && Framed(ScopeOf(w, p), w, Step(cfg, w, p, o).world)
    ensures DocStepOk(w, p, Step(cfg, w, p, o), d, level)
  {
    hide UploadRequest.Step, ScanTask.Step, UploadTask.Step, ExtractTask.Step, Services.StepCancel, Services.StepCreate;
    hide Services.StepRetry, Services.StepRemove, Consumer.Step;
    if d == ScopeOf(w, p).doc {
      match p
      case Request(req, pc) => RequestCovers(cfg, w, req, pc, o, level);
      case Scanner(args, pc, left) => ScannerCovers(cfg, w, args, pc, left, o, level);
      case Uploader(args, pc, left) => UploaderCovers(w, args, pc, left, o, level);
      case Extractor(args, pc, left) => ExtractorCovers(cfg, w, args, pc, left, o, level);
      case Canceller(_, pc) => CancellerCovers(w, d, pc, o, level);
      case Creator(_, req, provider, pc) => CreatorCovers(w, d, req, provider, pc, o);
      case Retrier(_, req, parent, pc) => RetrierCovers(w, d, req, parent, pc, o);
      case Remover(_, target, pc) => RemoverCovers(w, d, target, pc, o);
      case Handler(_, a, req, pc, n) => HandlerCovers(w, d, a, req, pc, n, o);
    }
  }

  // --- Whole systems ---

  ghost predicate DocHeld(s: System, d: nat)
    requires d < |s.world.docs|
  {
    DocCovered(s.world, d, 0) || exists i :: 0 <= i < |s.procs| && DocCovered(s.world, d, Covers(s.procs[i], d))
  }

  ghost predicate RunHeld(s: System, a: nat)
    requires a in s.world.analyses.rows
  {
    var row := s.world.analyses.rows[a];
    || Settled(s.world.docs, s.world.lostRuns, a, row)
    || exists i :: 0 <= i < |s.procs| && Works(s.world.docs, s.procs[i], a, row)
  }

  /** Every unfinished document and every unfinished analysis is in somebody's hands. */
  ghost predicate Live(s: System) {
    && (forall d :: 0 <= d < |s.world.docs| ==> DocHeld(s, d))
    && (forall a <- s.world.analyses.rows :: RunHeld(s, a))
  }

  lemma ActHoldsDoc(cfg: Config, s: System, i: nat, o: Outcome, d: nat)
    requires i < |s.procs| && Enabled(cfg, s, Act(i, o)) && ProcOk(cfg, s.world, s.procs[i])
    requires Framed(ScopeOf(s.world, s.procs[i]), s.world, Step(cfg, s.world, s.procs[i], o).world)
    requires d < |s.world.docs| ==> DocHeld(s, d)
    ensures var s' := Apply(cfg, s, Act(i, o)); d < |s'.world.docs| ==> DocHeld(s', d)
  {
    hide ProcOk, Framed, Step;
    var m := Step(cfg, s.world, s.procs[i], o);
    var s' := Apply(cfg, s, Act(i, o));
    if d < |m.world.docs| {
      var j := if d < |s.world.docs| && !DocCovered(s.world, d, 0)
        then (var j :| 0 <= j < |s.procs| && DocCovered(s.world, d, Covers(s.procs[j], d)); j) else i;
      StepKeepsCover(cfg, s.world, s.procs[i], o, d, if j == i then 0 else Covers(s.procs[j], d));
      assert s'.procs[i] == m.proc && s'.procs[j] == if j == i then m.proc else s.procs[j];
      assert m.spawned.Some? ==> s'.procs[|s.procs|] == m.spawned.value;
    }
  }

  lemma ActHoldsRun(cfg: Config, s: System, i: nat, o: Outcome, a: nat)
    requires i < |s.procs| && Enabled(cfg, s, Act(i, o)) && WorldOk(cfg, s.world) && ProcOk(cfg, s.world, s.procs[i])
    requires Grows(s.world, Step(cfg, s.world, s.procs[i], o).world)
    requires a in s.world.analyses.rows ==> a < s.world.analyses.next && RunHeld(s, a)
    ensures var s' := Apply(cfg, s, Act(i, o)); a in s'.world.analyses.rows ==> RunHeld(s', a)
  {
    hide WorldOk, ProcOk, Step, Settled, Works;
    var m := Step(cfg, s.world, s.procs[i], o);
    var s' := Apply(cfg, s, Act(i, o));
    if a in m.world.analyses.rows {
      StepKeepsRuns(cfg, s.world, s.procs[i], o, a);
      var row' := m.world.analyses.rows[a];
      assert s'.procs[i] == m.proc;
      assert m.spawned.Some? ==> s'.procs[|s.procs|] == m.spawned.value;
      if a in s.world.analyses.rows {
        var row := s.world.analyses.rows[a];
        if !Settled(s.world.docs, s.world.lostRuns, a, row) && !Works(s.world.docs, s.procs[i], a, row) {
          var j :| 0 <= j < |s.procs| && Works(s.world.docs, s.procs[j], a, row);
          assert s'.procs[j] == s.procs[j];
          OthersWork(s.world.docs, m.world, s.procs[j], a, row, row');
          HandlesWorks(m.world.docs, m.proc, a, row');
        }
      }
    }
  }

  lemma HandlesWorks(docs: seq<Document>, p: Proc, a: nat, row: Analysis)
    ensures Handles(p, a) ==> Works(docs, p, a, row)
  {
  }

  /** A process that does not step keeps its analysis, unless the analysis left the state `queued`. */
  lemma OthersWork(docs: seq<Document>, w': World, p: Proc, a: nat, row: Analysis, row': Analysis)
    requires Works(docs, p, a, row) && SameRun(row, row')
    requires |docs| <= |w'.docs| && forall d :: 0 <= d < |docs| ==> w'.docs[d].req == docs[d].req
    ensures Works(w'.docs, p, a, row') || (row.status == Queued && row'.status != Queued)
    ensures row'.Terminal() || a in w'.lostRuns ==> Settled(w'.docs, w'.lostRuns, a, row')
  {
  }

  lemma ApplyKeepsLive(cfg: Config, s: System, e: Event)
    requires cfg.CollisionFree() && Safe(cfg, s) && Numbered(s) && Enabled(cfg, s, e) && Live(s)
    ensures Live(Apply(cfg, s, e))
  {
    hide WorldOk, ProcOk, DocHeld, RunHeld, Grows;
    var s' := Apply(cfg, s, e);
    if e.Act? {
      StepKeepsSafety(cfg, s.world, s.procs[e.i], e.o);
      forall d | 0 <= d < |s'.world.docs| ensures DocHeld(s', d) {
        ActHoldsDoc(cfg, s, e.i, e.o, d);
      }
      forall a <- s'.world.analyses.rows ensures RunHeld(s', a) {
        RowBelow(cfg, s.world, a);
        ActHoldsRun(cfg, s, e.i, e.o, a);
      }
    } else {
      forall d | 0 <= d < |s'.world.docs| ensures DocHeld(s', d) { MoreHoldDoc(s, s', d); }
      forall a <- s'.world.analyses.rows ensures RunHeld(s', a) { MoreHoldRun(s, s', a); }
    }
  }

  lemma MoreHoldDoc(s: System, s': System, d: nat)
    requires s'.world == s.world.(uploads := s'.world.uploads) && s.procs <= s'.procs
    requires d < |s.world.docs| && DocHeld(s, d)
    ensures DocHeld(s', d)
  {
    if !DocCovered(s.world, d, 0) {
      var i :| 0 <= i < |s.procs| && DocCovered(s.world, d, Covers(s.procs[i], d));
      assert s'.procs[i] == s.procs[i];
    }
  }

  lemma MoreHoldRun(s: System, s': System, a: nat)
    requires s'.world == s.world.(uploads := s'.world.uploads) && s.procs <= s'.procs
    requires a in s.world.analyses.rows && RunHeld(s, a)
    ensures RunHeld(s', a)
  {
    hide Settled, Works;
    var row := s.world.analyses.rows[a];
    if !Settled(s.world.docs, s.world.lostRuns, a, row) {
      var i :| 0 <= i < |s.procs| && Works(s.world.docs, s.procs[i], a, row);
      assert s'.procs[i] == s.procs[i];
    }
  }

  lemma {:induction false} RunKeepsLive(cfg: Config, s: System, es: seq<Event>)
    requires cfg.CollisionFree() && Safe(cfg, s) && Numbered(s) && Live(s) && Feasible(cfg, s, es)
    ensures Live(Run(cfg, s, es))
    decreases |es|
  {
    hide Live, Safe, Enabled;
    if es != [] {
      ApplyKeepsSafety(cfg, s, es[0]);
      ApplyKeepsLive(cfg, s, es[0]);
      RunKeepsLive(cfg, Apply(cfg, s, es[0]), es[1..]);
    }
  }

  /** No task, message or request is left. */
  ghost predicate Quiescent(s: System) {
    forall i :: 0 <= i < |s.procs| ==> s.procs[i].Ended()
  }

  lemma NobodyHolds(p: Proc, docs: seq<Document>, d: nat, a: nat, row: Analysis)
    requires p.Ended()
    ensures Covers(p, d) == 0 && !Works(docs, p, a, row)
  {
  }

  /** With nothing pending, every document has reached a final status, and every analysis has a result or a
      recorded failure or waits for a document that has none; except for those whose last resort failed. */
  lemma QuiescentIsFinished(s: System)
    requires Live(s) && Quiescent(s)
    ensures forall d :: 0 <= d < |s.world.docs| && d !in s.world.lostDocs ==>
      s.world.docs[d].status.Extracted? || s.world.docs[d].status.Bad()
    ensures forall a <- s.world.analyses.rows :: a !in s.world.lostRuns ==>
      var row := s.world.analyses.rows[a];
      row.Terminal() || (row.status == Queued && OfUpload(s.world.docs, row)
        && (s.world.docs[row.doc].status.Bad() || row.doc in s.world.lostDocs))
  {
    hide Covers, Works;
    forall d | 0 <= d < |s.world.docs| && d !in s.world.lostDocs
      ensures s.world.docs[d].status.Extracted? || s.world.docs[d].status.Bad()
    {
      assert DocHeld(s, d);
      if !DocCovered(s.world, d, 0) {
        var i :| 0 <= i < |s.procs| && DocCovered(s.world, d, Covers(s.procs[i], d));
        NobodyHolds(s.procs[i], s.world.docs, d, 0, Analysis(0, 0, Gemini, Queued, None, None, None, None));
      }
    }
    forall a | a in s.world.analyses.rows && a !in s.world.lostRuns
      ensures var row := s.world.analyses.rows[a]; Settled(s.world.docs, s.world.lostRuns, a, row)
    {
      var row := s.world.analyses.rows[a];
      assert RunHeld(s, a);
      if !Settled(s.world.docs, s.world.lostRuns, a, row) {
        var i :| 0 <= i < |s.procs| && Works(s.world.docs, s.procs[i], a, row);
        NobodyHolds(s.procs[i], s.world.docs, 0, a, row);
      }
    }
  }
}
