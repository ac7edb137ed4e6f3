/** Exactly when a temp file is left behind, over all interleavings: at the two branches that let a file go without
    looking whether anybody else works with it. */
module Leaks {
  import opened Types
  import opened AnalysisTable
  import opened Pipeline
  import opened BaseTask
  import opened Machine
  import opened Rules
  import opened Temps
  import opened Safety
  import opened Idempotence
  import ScanTask
  import UploadTask
  import ExtractTask
  import UploadRequest
  import Services
  import Consumer

  /** `p` works with the temp file `n`: it has not removed it and not handed it on. */
  predicate Holder(p: Proc, n: nat) {
    match p
    case Request(req, pc) =>
      req == n && !(pc.Find? || pc.Insert? || pc.FindAgain? || pc.Publish? || pc.MarkFind? || pc.MarkWrite? || pc.Done?)
    case Scanner(args, pc, _) => args.req == n && !pc.Done?
    case Uploader(args, pc, _) => args.req == n && !pc.Done?
    case Extractor(args, pc, _) => args.req == n && !pc.Done? && !ExtractTask.Dispatching(pc)
    case _ => false
  }

  ghost predicate SpawnHolds(p: Option<Proc>, n: nat) {
    p.Some? && Holder(p.value, n)
  }

  /** The file is there: a scan or upload that found it gone cancels the document and ends, or an extraction that
      finds the object not stored drops out. */
  ghost predicate LetsGo(w: World, p: Proc, o: Outcome, n: nat) {
    && !Clear(w, n) && !o.Raise?
    && match p
       case Scanner(args, pc, _) => args.req == n && pc.WriteCancelled?
       case Uploader(args, pc, _) => args.req == n && pc.WriteCancelled?
       case Extractor(args, pc, _) =>
         args.req == n && pc.Start? && args.doc < |w.docs| && Unstored(w.docs[args.doc].status)
       case _ => false
  }

  /** After the step neither the process nor what it enqueued works with the file, and the file is there. */
  ghost predicate Drops(m: Move, n: nat) {
    !Clear(m.world, n) && !Holder(m.proc, n) && !SpawnHolds(m.spawned, n)
  }

  lemma ScannerDropsIff(cfg: Config, w: World, args: Args, pc: ScanPc, left: nat, o: Outcome)
    requires !pc.Done?
    ensures Drops(ScanTask.Step(cfg, w, args, pc, left, o), args.req) <==> LetsGo(w, Scanner(args, pc, left), o, args.req)
  {
  }

  lemma UploaderDropsIff(w: World, args: Args, pc: UploadPc, left: nat, o: Outcome)
    requires !pc.Done?
    ensures Drops(UploadTask.Step(w, args, pc, left, o), args.req) <==> LetsGo(w, Uploader(args, pc, left), o, args.req)
  {
  }

  lemma ExtractorDropsIff(cfg: Config, w: World, args: Args, pc: ExtractPc, left: nat, o: Outcome)
    requires !pc.Done? && !ExtractTask.Dispatching(pc)
    ensures Drops(ExtractTask.Step(cfg, w, args, pc, left, o), args.req) <==> LetsGo(w, Extractor(args, pc, left), o, args.req)
  {
    hide ExtractTask.Step, Drops;
    if pc.Tail? {
      TailDropsIff(cfg, w, args, pc, left, o);
    } else if pc.ReadExtracted? || pc.MarkFind? || pc.MarkWrite? {
      FailureElsewhere(cfg, w, args, pc, left, o);
      FailureHolds(cfg, w, args, pc, left, o);
    } else if pc.Start? {
      StartDropsIff(cfg, w, args, pc, left, o);
    } else {
      WorkingHolds(cfg, w, args, pc, left, o);
    }
  }

  lemma TailDropsIff(cfg: Config, w: World, args: Args, pc: ExtractPc, left: nat, o: Outcome)
    requires pc.Tail?
    ensures Drops(ExtractTask.Step(cfg, w, args, pc, left, o), args.req) <==> LetsGo(w, Extractor(args, pc, left), o, args.req)
  {
    hide ExtractTask.StepDispatch;
  }

  lemma StartDropsIff(cfg: Config, w: World, args: Args, pc: ExtractPc, left: nat, o: Outcome)
    requires pc.Start?
    ensures Drops(ExtractTask.Step(cfg, w, args, pc, left, o), args.req) <==> LetsGo(w, Extractor(args, pc, left), o, args.req)
  {
    hide ExtractTask.StepDispatch, ExtractTask.StepFailure;
  }

  lemma FailureHolds(cfg: Config, w: World, args: Args, pc: ExtractPc, left: nat, o: Outcome)
    requires pc.ReadExtracted? || pc.MarkFind? || pc.MarkWrite?
    ensures !Drops(ExtractTask.Step(cfg, w, args, pc, left, o), args.req)
  {
    hide ExtractTask.StepDispatch, Table.Update;
  }

  lemma WorkingHolds(cfg: Config, w: World, args: Args, pc: ExtractPc, left: nat, o: Outcome)
    requires pc.CheckPath? || pc.Restore? || pc.WriteExtracting? || pc.Extract? || pc.Upsert? || pc.WriteExtracted?
             || pc.WriteFailed? || pc.Unlink?
    ensures !Drops(ExtractTask.Step(cfg, w, args, pc, left, o), args.req)
  {
    hide *;
    if pc.CheckPath? || pc.Extract? || pc.Restore? {
      ReadingHolds(cfg, w, args, pc, left, o);
    } else {
      WritingHolds(cfg, w, args, pc, left, o);
    }
  }

  lemma ReadingHolds(cfg: Config, w: World, args: Args, pc: ExtractPc, left: nat, o: Outcome)
    requires pc.CheckPath? || pc.Extract? || pc.Restore?
    ensures !Drops(ExtractTask.Step(cfg, w, args, pc, left, o), args.req)
  {
    hide ExtractTask.StepDispatch, ExtractTask.StepFailure;
  }

  lemma WritingHolds(cfg: Config, w: World, args: Args, pc: ExtractPc, left: nat, o: Outcome)
    requires pc.WriteExtracting? || pc.Upsert? || pc.WriteExtracted? || pc.WriteFailed? || pc.Unlink?
    ensures !Drops(ExtractTask.Step(cfg, w, args, pc, left, o), args.req)
  {
    hide ExtractTask.StepDispatch, ExtractTask.StepFailure;
  }

  lemma RequestHolds(cfg: Config, w: World, req: nat, pc: RequestPc, o: Outcome)
    requires Holder(Request(req, pc), req)
    ensures !Drops(UploadRequest.Step(cfg, w, req, pc, o), req)
  {
    hide Table.Insert, Table.Update;
  }

  /** A process that works with a file drops it at exactly these branches. */
  lemma StepDropsIff(cfg: Config, w: World, p: Proc, o: Outcome, n: nat)
    requires Holder(p, n)
    ensures Drops(Step(cfg, w, p, o), n) <==> LetsGo(w, p, o, n)
  {
    hide UploadRequest.Step, ScanTask.Step, UploadTask.Step, ExtractTask.Step, Services.StepCancel, Services.StepCreate;
    hide Services.StepRetry, Services.StepRemove, Consumer.Step, Drops;
    match p
    case Request(req, pc) => RequestHolds(cfg, w, req, pc, o);
    case Scanner(args, pc, left) => ScannerDropsIff(cfg, w, args, pc, left, o);
    case Uploader(args, pc, left) => UploaderDropsIff(w, args, pc, left, o);
    case Extractor(args, pc, left) => ExtractorDropsIff(cfg, w, args, pc, left, o);
  }

  // --- Others ---

  /** Nobody else makes the file appear. */
  ghost predicate NoNewFile(w: World, w': World, n: nat) {
    Clear(w, n) ==> Clear(w', n)
  }

  lemma ScannerNoFile(cfg: Config, w: World, args: Args, pc: ScanPc, left: nat, o: Outcome, n: nat)
    ensures NoNewFile(w, ScanTask.Step(cfg, w, args, pc, left, o).world, n)
  {
  }

  lemma UploaderNoFile(w: World, args: Args, pc: UploadPc, left: nat, o: Outcome, n: nat)
    ensures NoNewFile(w, UploadTask.Step(w, args, pc, left, o).world, n)
  {
  }

  lemma RequestNoFile(cfg: Config, w: World, req: nat, pc: RequestPc, o: Outcome, n: nat)
    requires !(pc.Save? && req == n)
    ensures NoNewFile(w, UploadRequest.Step(cfg, w, req, pc, o).world, n)
  {
    hide Table.Insert, Table.Update;
  }

  lemma ExtractorNoFile(cfg: Config, w: World, args: Args, pc: ExtractPc, left: nat, o: Outcome, n: nat)
    requires !(pc.Restore? && args.req == n)
    ensures NoNewFile(w, ExtractTask.Step(cfg, w, args, pc, left, o).world, n)
  {
    hide Table.Insert, Table.Update, ExtractTask.StepDispatch, ExtractTask.StepFailure;
    if ExtractTask.Dispatching(pc) || pc.Tail? {
      hide *;
      OtherNoFile(cfg, w, args, pc, left, o, n);
    } else if pc.ReadExtracted? || pc.MarkFind? || pc.MarkWrite? {
      hide ExtractTask.Step;
      FailureElsewhere(cfg, w, args, pc, left, o);
    }
  }

  lemma OtherNoFile(cfg: Config, w: World, args: Args, pc: ExtractPc, left: nat, o: Outcome, n: nat)
    requires ExtractTask.Dispatching(pc) || pc.Tail?
    ensures NoNewFile(w, ExtractTask.Step(cfg, w, args, pc, left, o).world, n)
  {
    hide Table.Insert;
  }

  lemma OthersMakeNoFile(cfg: Config, w: World, p: Proc, o: Outcome, n: nat)
    requires !Holder(p, n)
    ensures NoNewFile(w, Step(cfg, w, p, o).world, n)
  {
    hide UploadRequest.Step, ScanTask.Step, UploadTask.Step, ExtractTask.Step, Services.StepCancel, Services.StepCreate;
    hide Services.StepRetry, Services.StepRemove, Consumer.Step;
    match p
    case Request(req, pc) => RequestNoFile(cfg, w, req, pc, o, n);
    case Scanner(args, pc, left) => ScannerNoFile(cfg, w, args, pc, left, o, n);
    case Uploader(args, pc, left) => UploaderNoFile(w, args, pc, left, o, n);
    case Extractor(args, pc, left) => ExtractorNoFile(cfg, w, args, pc, left, o, n);
    case _ => hide Step; OffFileIsHarmless(cfg, w, p, o);
  }

  // --- Whole runs ---

  /** The file is gone, or somebody works with it. */
  ghost predicate Held(s: System, n: nat) {
    Clear(s.world, n) || exists i :: 0 <= i < |s.procs| && Holder(s.procs[i], n)
  }

  ghost predicate OnlyHolder(procs: seq<Proc>, i: nat, n: nat)
    requires i < |procs|
  {
    Holder(procs[i], n) && forall j :: 0 <= j < |procs| && j != i ==> !Holder(procs[j], n)
  }

  /** This event lets go of the file, and nobody else works with it. */
  ghost predicate LastLetsGo(s: System, e: Event, n: nat) {
    e.Act? && e.i < |s.procs| && OnlyHolder(s.procs, e.i, n) && LetsGo(s.world, s.procs[e.i], e.o, n)
  }

  lemma ActUnheldIff(cfg: Config, s: System, i: nat, o: Outcome, n: nat)
    requires Enabled(cfg, s, Act(i, o)) && Held(s, n)
    ensures !Held(Apply(cfg, s, Act(i, o)), n) <==> LastLetsGo(s, Act(i, o), n)
  {
    hide Step, Holder, Clear, LetsGo;
    var p, m := s.procs[i], Step(cfg, s.world, s.procs[i], o);
    var s' := Apply(cfg, s, Act(i, o));
    assert s'.procs[i] == m.proc;
    assert m.spawned.Some? ==> s'.procs[|s.procs|] == m.spawned.value;
    assert forall j :: 0 <= j < |s.procs| && j != i ==> s'.procs[j] == s.procs[j];
    if Holder(p, n) {
      StepDropsIff(cfg, s.world, p, o, n);
    } else {
      OthersMakeNoFile(cfg, s.world, p, o, n);
      LetsGoHolds(s.world, p, o, n);
      if !Clear(s.world, n) {
        var j :| 0 <= j < |s.procs| && Holder(s.procs[j], n);
        assert s'.procs[j] == s.procs[j];
      }
    }
  }

  lemma LetsGoHolds(w: World, p: Proc, o: Outcome, n: nat)
    ensures LetsGo(w, p, o, n) ==> Holder(p, n)
  {
  }

  lemma ArriveHolds(cfg: Config, s: System, e: Event, n: nat)
    requires Enabled(cfg, s, e) && !e.Act? && Held(s, n)
    ensures Held(Apply(cfg, s, e), n)
  {
    hide Holder;
    var s' := Apply(cfg, s, e);
    if !Clear(s.world, n) {
      var i :| 0 <= i < |s.procs| && Holder(s.procs[i], n);
      assert s'.procs[i] == s.procs[i];
    }
  }

  /** At some moment of the run the file is there and nobody works with it. */
  ghost predicate SometimeUnheld(cfg: Config, s: System, es: seq<Event>, n: nat)
    requires Feasible(cfg, s, es)
    decreases |es|
  {
    !Held(s, n) || (es != [] && SometimeUnheld(cfg, Apply(cfg, s, es[0]), es[1..], n))
  }

  /** Some event of the run is the last one to let go of the file. */
  ghost predicate SometimeLetGo(cfg: Config, s: System, es: seq<Event>, n: nat)
    requires Feasible(cfg, s, es)
    decreases |es|
  {
    es != [] && (LastLetsGo(s, es[0], n) || SometimeLetGo(cfg, Apply(cfg, s, es[0]), es[1..], n))
  }

  /** In any interleaving a file is left alone exactly when its last holder lets it go at one of these branches. */
  lemma {:induction false} UnheldIffLetGo(cfg: Config, s: System, es: seq<Event>, n: nat)
    requires Feasible(cfg, s, es) && Held(s, n)
    ensures SometimeUnheld(cfg, s, es, n) <==> SometimeLetGo(cfg, s, es, n)
    decreases |es|
  {
    hide Step, Held, LastLetsGo;
    if es != [] {
      var e := es[0];
      if e.Act? { ActUnheldIff(cfg, s, e.i, e.o, n); } else { ArriveHolds(cfg, s, e, n); OnlyActs(s, e, n); }
      if Held(Apply(cfg, s, e), n) {
        UnheldIffLetGo(cfg, Apply(cfg, s, e), es[1..], n);
      }
    }
  }

  lemma OnlyActs(s: System, e: Event, n: nat)
    ensures LastLetsGo(s, e, n) ==> e.Act?
  {
  }

  /** The end of a run is one of its moments. */
  lemma {:induction false} EndIsMoment(cfg: Config, s: System, es: seq<Event>, n: nat)
    requires Feasible(cfg, s, es) && !Held(Run(cfg, s, es), n)
    ensures SometimeUnheld(cfg, s, es, n)
    decreases |es|
  {
    hide Step, Held;
    if es != [] { EndIsMoment(cfg, Apply(cfg, s, es[0]), es[1..], n); }
  }
}
