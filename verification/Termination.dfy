/** Every run is finite: each external call lowers a weighted sum over all processes, and what a process
    enqueues weighs less than the call that enqueues it. */
module Termination {
  import opened Types
  import opened AnalysisTable
  import opened Pipeline
  import opened BaseTask
  import opened Machine
  import ScanTask
  import UploadTask
  import ExtractTask
  import UploadRequest
  import Services
  import Consumer

  function TailRank(t: Tail): nat {
    match t case ReadStatus => 13 case WriteFailed => 12 case Unlink => 11
  }

  function ScanRank(pc: ScanPc): nat {
    match pc
    case Start => 9999
    case CheckPath => 9998
    case WriteCancelled => 9997
    case WriteScanning => 9996
    case Scan => 9995
    case WriteInfected => 9994
    case WriteFailed => 9994
    case Enqueue => 9993
    case Tail(t) => TailRank(t)
    case Done => 0
  }

  function UploadRank(pc: UploadPc): nat {
    match pc
    case Start => 999
    case CheckPath => 998
    case WriteCancelled => 997
    case WriteUploading => 996
    case Head => 995
    case Put => 994
    case WriteUploaded => 993
    case WriteFailed => 992
    case Enqueue => 991
    case Tail(t) => TailRank(t)
    case Done => 0
  }

  function ExtractRank(pc: ExtractPc): nat {
    match pc
    case Start => 99
    case CheckPath(_) => 98
    case Restore(_, again) => if again then 94 else 97
    case WriteExtracting(_) => 96
    case Extract(_, again) => if again then 93 else 95
    case Upsert(_) => 92
    case WriteExtracted => 91
    case WriteFailed => 90
    case Unlink => 89
    case Find => 88
    case Insert => 87
    case FindAgain => 86
    case Publish(_) => 85
    case ReadExtracted => 20
    case MarkFind => 19
    case MarkWrite => 18
    case Tail(t) => TailRank(t)
    case Done => 0
  }

  function RequestRank(pc: RequestPc): nat {
    match pc
    case Save => 49999
    case Candidates => 49998
    case Content(_) => 49997
    case CreateDoc(_) => 49996
    case UpsertText(_, _) => 49995
    case Degrade(_) => 49994
    case EnqueueFirst(_) => 49993
    case EnqueueExtract(_) => 49992
    case Unlink(_) => 999
    case Find(_) => 998
    case Insert(_) => 997
    case FindAgain(_) => 996
    case Publish(_, _) => 995
    case MarkFind(_) => 99
    case MarkWrite(_) => 98
    case MarkFailed(_) => 97
    case Discard(_) => 96
    case Done => 0
  }

  function ApiRank(pc: ApiPc): nat {
    match pc
    case Start => 99
    case ReadText => 98
    case Get => 97
    case FindChild(_) => 96
    case Insert(_) => 95
    case FindAgain => 94
    case Publish(_) => 93
    case MarkFind(_) => 9
    case MarkWrite(_) => 8
    case Done => 0
  }

  function HandlerRank(pc: HandlerPc): nat {
    match pc
    case Start => 11
    case Corrupt => 10
    case ReadText => 10
    case NoText => 9
    case ReadPrompt(_) => 9
    case WriteAnalyzing(_, _) => 8
    case Ask(_, _) => 7
    case WriteSuccess(_) => 6
    case WriteRefused => 6
    case Recover => 2
    case RecoverWrite => 1
    case Done => 0
  }

  /** An upper bound for the calls this process, and everything it enqueues, can still make. */
  function Weight(p: Proc): nat {
    match p
    case Request(_, pc) => RequestRank(pc)
    case Scanner(_, pc, left) => if pc.Tail? || pc.Done? then ScanRank(pc) else left * 10000 + ScanRank(pc)
    case Uploader(_, pc, left) => if pc.Tail? || pc.Done? then UploadRank(pc) else left * 1000 + UploadRank(pc)
    case Extractor(_, pc, left) =>
      if pc.Tail? || pc.Done? || pc.ReadExtracted? || pc.MarkFind? || pc.MarkWrite? then ExtractRank(pc)
      else left * 100 + ExtractRank(pc)
    case Canceller(_, pc) => (match pc case Start => 3 case Write(_) => 2 case Unlink(_) => 1 case Done => 0)
    case Creator(_, _, _, pc) => ApiRank(pc)
    case Retrier(_, _, _, pc) => ApiRank(pc)
    case Remover(_, _, pc) => (match pc case Start => 4 case Get => 3 case FindChild(_) => 2 case Delete => 1 case Done => 0)
    case Handler(_, _, _, pc, n) =>
      if pc.Recover? || pc.RecoverWrite? || pc.Done? then HandlerRank(pc)
      else (if n < MAX_RETRIES then MAX_RETRIES - n else 0) * 12 + HandlerRank(pc)
  }

  function SpawnWeight(p: Option<Proc>): nat {
    if p.Some? then Weight(p.value) else 0
  }

  /** A step makes the process lighter by more than it enqueues. */
  ghost predicate Lighter(p: Proc, m: Move) {
    Weight(m.proc) + SpawnWeight(m.spawned) < Weight(p)
  }

  lemma ExtractorLighter(cfg: Config, w: World, args: Args, pc: ExtractPc, left: nat, o: Outcome)
    requires !pc.Done?
    ensures Lighter(Extractor(args, pc, left), ExtractTask.Step(cfg, w, args, pc, left, o))
  {
    hide ExtractTask.StepDispatch, ExtractTask.StepFailure;
    if ExtractTask.Dispatching(pc) {
      DispatchLighter(w, args, pc, left, o);
    } else if pc.ReadExtracted? || pc.MarkFind? || pc.MarkWrite? || pc.Tail? {
      FailureLighter(w, args, pc, left, o);
    } else if pc.Start? || pc.CheckPath? || pc.Extract? || pc.Unlink? {
      hide *;
      ReadingLighter(cfg, w, args, pc, left, o);
    } else {
      hide *;
      WritingLighter(cfg, w, args, pc, left, o);
    }
  }

  lemma ReadingLighter(cfg: Config, w: World, args: Args, pc: ExtractPc, left: nat, o: Outcome)
    requires pc.Start? || pc.CheckPath? || pc.Extract? || pc.Unlink?
    ensures Lighter(Extractor(args, pc, left), ExtractTask.Step(cfg, w, args, pc, left, o))
  {
    hide ExtractTask.StepDispatch, ExtractTask.StepFailure, ExtractTask.Write;
  }

  lemma WritingLighter(cfg: Config, w: World, args: Args, pc: ExtractPc, left: nat, o: Outcome)
    requires pc.Restore? || pc.WriteExtracting? || pc.Upsert? || pc.WriteExtracted? || pc.WriteFailed?
    ensures Lighter(Extractor(args, pc, left), ExtractTask.Step(cfg, w, args, pc, left, o))
  {
    hide ExtractTask.StepDispatch, ExtractTask.StepFailure;
  }

  lemma DispatchLighter(w: World, args: Args, pc: ExtractPc, left: nat, o: Outcome)
    requires ExtractTask.Dispatching(pc)
    ensures Lighter(Extractor(args, pc, left), ExtractTask.StepDispatch(w, args, pc, left, o))
  {
    hide Table.Insert;
  }

  lemma FailureLighter(w: World, args: Args, pc: ExtractPc, left: nat, o: Outcome)
    requires pc.ReadExtracted? || pc.MarkFind? || pc.MarkWrite? || pc.Tail?
    ensures Lighter(Extractor(args, pc, left), ExtractTask.StepFailure(w, args, pc, left, o))
  {
  }

  lemma StepIsLighter(cfg: Config, w: World, p: Proc, o: Outcome)
    requires !p.Ended()
    ensures Lighter(p, Step(cfg, w, p, o))
  {
    match p
    case Request(req, pc) => RequestLighter(cfg, w, req, pc, o);
    case Scanner(args, pc, left) => ScannerLighter(cfg, w, args, pc, left, o);
    case Uploader(args, pc, left) => UploaderLighter(w, args, pc, left, o);
    case Extractor(args, pc, left) => ExtractorLighter(cfg, w, args, pc, left, o);
    case Canceller(d, pc) =>
    case Creator(d, req, provider, pc) => CreatorLighter(w, d, req, provider, pc, o);
    case Retrier(d, req, parent, pc) => RetrierLighter(w, d, req, parent, pc, o);
    case Remover(d, target, pc) =>
    case Handler(d, a, req, pc, n) => HandlerLighter(w, d, a, req, pc, n, o);
  }

  lemma RequestLighter(cfg: Config, w: World, req: nat, pc: RequestPc, o: Outcome)
    requires !pc.Done?
    ensures Lighter(Request(req, pc), UploadRequest.Step(cfg, w, req, pc, o))
  {
    hide UploadRequest.StepAnalyse;
    if pc.Unlink? || pc.Find? || pc.Insert? || pc.FindAgain? || pc.Publish? || pc.MarkFind? || pc.MarkWrite? {
      hide *;
      AnalyseLighter(cfg, w, req, pc, o);
    } else if pc.UpsertText? || pc.Degrade? {
      hide *;
      CopyLighter(cfg, w, req, pc, o);
    }
  }

  lemma CopyLighter(cfg: Config, w: World, req: nat, pc: RequestPc, o: Outcome)
    requires pc.UpsertText? || pc.Degrade?
    ensures Lighter(Request(req, pc), UploadRequest.Step(cfg, w, req, pc, o))
  {
  }

  lemma AnalyseLighter(cfg: Config, w: World, req: nat, pc: RequestPc, o: Outcome)
    requires pc.Unlink? || pc.Find? || pc.Insert? || pc.FindAgain? || pc.Publish? || pc.MarkFind? || pc.MarkWrite?
    ensures Lighter(Request(req, pc), UploadRequest.Step(cfg, w, req, pc, o))
  {
    hide Table.Insert, Table.Update;
  }

  lemma ScannerLighter(cfg: Config, w: World, args: Args, pc: ScanPc, left: nat, o: Outcome)
    requires !pc.Done?
    ensures Lighter(Scanner(args, pc, left), ScanTask.Step(cfg, w, args, pc, left, o))
  {
  }

  lemma UploaderLighter(w: World, args: Args, pc: UploadPc, left: nat, o: Outcome)
    requires !pc.Done?
    ensures Lighter(Uploader(args, pc, left), UploadTask.Step(w, args, pc, left, o))
  {
  }

  lemma CreatorLighter(w: World, d: nat, req: nat, provider: Provider, pc: ApiPc, o: Outcome)
    requires !pc.Done?
    ensures Lighter(Creator(d, req, provider, pc), Services.StepCreate(w, d, req, provider, pc, o))
  {
  }

  lemma RetrierLighter(w: World, d: nat, req: nat, parent: nat, pc: ApiPc, o: Outcome)
    requires !pc.Done?
    ensures Lighter(Retrier(d, req, parent, pc), Services.StepRetry(w, d, req, parent, pc, o))
  {
  }

  lemma HandlerLighter(w: World, d: nat, a: nat, req: nat, pc: HandlerPc, n: nat, o: Outcome)
    requires !pc.Done?
    ensures Lighter(Handler(d, a, req, pc, n), Consumer.Step(w, d, a, req, pc, n, o))
  {
  }

  function Total(procs: seq<Proc>): nat {
    if procs == [] then 0 else Total(procs[..|procs| - 1]) + Weight(procs[|procs| - 1])
  }

  lemma {:induction false} TotalUpdate(procs: seq<Proc>, i: nat, p: Proc)
    requires i < |procs|
    ensures Total(procs[i := p]) == Total(procs) - Weight(procs[i]) + Weight(p)
  {
    var last := |procs| - 1;
    if i == last {
      assert procs[i := p][..last] == procs[..last];
    } else {
      assert procs[i := p][..last] == procs[..last][i := p];
      TotalUpdate(procs[..last], i, p);
    }
  }

  lemma TotalPush(procs: seq<Proc>, p: Proc)
    ensures Total(procs + [p]) == Total(procs) + Weight(p)
  {
    assert (procs + [p])[..|procs|] == procs;
  }

  /** What an event of the outside world may add. */
  function Load(cfg: Config, s: System, e: Event): nat
    requires Enabled(cfg, s, e)
  {
    if e.Act? then 0 else Weight(Started(s, e))
  }

  lemma ApplyLowers(cfg: Config, s: System, e: Event)
    requires Enabled(cfg, s, e)
    ensures e.Act? ==> Total(Apply(cfg, s, e).procs) < Total(s.procs)
    ensures !e.Act? ==> Total(Apply(cfg, s, e).procs) == Total(s.procs) + Load(cfg, s, e)
  {
    if e.Act? {
      var m := Step(cfg, s.world, s.procs[e.i], e.o);
      StepIsLighter(cfg, s.world, s.procs[e.i], e.o);
      TotalUpdate(s.procs, e.i, m.proc);
      if m.spawned.Some? { TotalPush(s.procs[e.i := m.proc], m.spawned.value); }
      else { assert s.procs[e.i := m.proc] + [] == s.procs[e.i := m.proc]; }
    } else {
      TotalPush(s.procs, Started(s, e));
    }
  }

  /** The heaviest thing that can arrive is an upload. */
  const HEAVIEST: nat := 49999

  lemma LoadBound(cfg: Config, s: System, e: Event)
    requires Enabled(cfg, s, e)
    ensures Load(cfg, s, e) <= HEAVIEST
  {
    if e.Duplicate? {
      assert Weight(Copy(s.procs[e.i], e.count)) <= MAX_RETRIES * 10000 + 9999;
    }
  }

  function Calls(es: seq<Event>): nat {
    if es == [] then 0 else (if es[0].Act? then 1 else 0) + Calls(es[1..])
  }

  /** Any run with k events of the outside world makes at most Total + k * HEAVIEST external calls, and whatever
      is left to do afterwards is bounded by what it did not use up. */
  lemma {:induction false} RunsAreBounded(cfg: Config, s: System, es: seq<Event>)
    requires Feasible(cfg, s, es)
    ensures Calls(es) + Total(Run(cfg, s, es).procs) <= Total(s.procs) + (|es| - Calls(es)) * HEAVIEST
    decreases |es|
  {
    if es != [] {
      var s' := Apply(cfg, s, es[0]);
      ApplyLowers(cfg, s, es[0]);
      LoadBound(cfg, s, es[0]);
      RunsAreBounded(cfg, s', es[1..]);
    }
  }

  /** How many times the broker or Celery can still start a task or message afresh. */
  function Attempts(p: Proc): nat {
    match p
    case Scanner(_, pc, left) => if pc.Done? || pc.Tail? then 0 else left + if pc.Start? then 1 else 0
    case Uploader(_, pc, left) => if pc.Done? || pc.Tail? then 0 else left + if pc.Start? then 1 else 0
    case Extractor(_, pc, left) =>
      if pc.Done? || pc.Tail? || pc.ReadExtracted? || pc.MarkFind? || pc.MarkWrite? then 0
      else left + if pc.Start? then 1 else 0
    case Handler(_, _, _, pc, n) =>
      (if pc.Done? || n > MAX_RETRIES then 0 else MAX_RETRIES - n) + if pc.Start? then 1 else 0
    case _ => 0
  }

  /** The number of times process `i` begins an attempt in this run. */
  ghost function Begun(cfg: Config, s: System, es: seq<Event>, i: nat): nat
    requires Feasible(cfg, s, es) && i < |s.procs|
    decreases |es|
  {
    if es == [] then 0 else
    (if es[0].Act? && es[0].i == i && s.procs[i].Idle() && (s.procs[i].IsTask() || s.procs[i].Handler?) then 1 else 0)
      + Begun(cfg, Apply(cfg, s, es[0]), es[1..], i)
  }

  lemma StepUsesAttempts(cfg: Config, w: World, p: Proc, o: Outcome)
    requires p.IsTask() || p.Handler?
    ensures var p' := Step(cfg, w, p, o).proc;
      (p'.IsTask() || p'.Handler?) && Attempts(p') + (if p.Idle() then 1 else 0) <= Attempts(p)
  {
    hide UploadRequest.Step, ScanTask.Step, UploadTask.Step, ExtractTask.Step, Consumer.Step;
    hide Services.StepCancel, Services.StepCreate, Services.StepRetry, Services.StepRemove;
    match p
    case Extractor(args, pc, left) => ExtractorAttempts(cfg, w, args, pc, left, o);
    case Scanner(args, pc, left) => ScannerAttempts(cfg, w, args, pc, left, o);
    case Uploader(args, pc, left) => UploaderAttempts(w, args, pc, left, o);
    case Handler(d, a, req, pc, n) => HandlerAttempts(cfg, w, d, a, req, pc, n, o);
  }

  lemma ScannerAttempts(cfg: Config, w: World, args: Args, pc: ScanPc, left: nat, o: Outcome)
    ensures var p, p' := Scanner(args, pc, left), ScanTask.Step(cfg, w, args, pc, left, o).proc;
      p'.Scanner? && Attempts(p') + (if p.Idle() then 1 else 0) <= Attempts(p)
  {
  }

  lemma UploaderAttempts(w: World, args: Args, pc: UploadPc, left: nat, o: Outcome)
    ensures var p, p' := Uploader(args, pc, left), UploadTask.Step(w, args, pc, left, o).proc;
      p'.Uploader? && Attempts(p') + (if p.Idle() then 1 else 0) <= Attempts(p)
  {
  }

  lemma HandlerAttempts(cfg: Config, w: World, d: nat, a: nat, req: nat, pc: HandlerPc, n: nat, o: Outcome)
    ensures var p, p' := Handler(d, a, req, pc, n), Consumer.Step(w, d, a, req, pc, n, o).proc;
      p'.Handler? && Attempts(p') + (if p.Idle() then 1 else 0) <= Attempts(p)
  {
  }

  lemma ExtractorAttempts(cfg: Config, w: World, args: Args, pc: ExtractPc, left: nat, o: Outcome)
    ensures var p, p' := Extractor(args, pc, left), ExtractTask.Step(cfg, w, args, pc, left, o).proc;
      p'.Extractor? && Attempts(p') + (if p.Idle() then 1 else 0) <= Attempts(p)
  {
  }

  /** A task or message that was enqueued once is started at most four times. */
  lemma {:induction false} AttemptsAreBounded(cfg: Config, s: System, es: seq<Event>, i: nat)
    requires Feasible(cfg, s, es) && i < |s.procs| && (s.procs[i].IsTask() || s.procs[i].Handler?)
    ensures Begun(cfg, s, es, i) <= Attempts(s.procs[i])
    decreases |es|
  {
    if es != [] {
      var s' := Apply(cfg, s, es[0]);
      if es[0].Act? && es[0].i == i { StepUsesAttempts(cfg, s.world, s.procs[i], es[0].o); }
      AttemptsAreBounded(cfg, s', es[1..], i);
    }
  }
}
