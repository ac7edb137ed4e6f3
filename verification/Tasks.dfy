/** The Celery tasks, statement by statement: their methods make the calls the step machine prescribes, in the same
    order, under the same conditions. An exception is an out-parameter. The `hide` statements only
    keep the verifier from unfolding the steps of other processes. */
module Tasks {
  import opened Types
  import opened AnalysisTable
  import opened Pipeline
  import opened BaseTask
  import opened Machine
  import opened Stores
  import ScanTask
  import UploadTask
  import ExtractTask
  import UploadRequest
  import Services
  import Consumer

  datatype Kind = Scanning | Storing | Extracting

  lemma ScanEnding(cfg: Config, w: World, args: Args, t: Tail, left: nat, o: Outcome)
    ensures var m := Step(cfg, w, Scanner(args, ScanPc.Tail(t), left), o);
      && m.world == StepTail(w, args, t, o) && m.spawned.None?
      && m.proc == var next := NextTail(w, args, t, o);
           Scanner(args, if next.Some? then ScanPc.Tail(next.value) else ScanPc.Done, left)
  {
  }

  lemma UploadEnding(cfg: Config, w: World, args: Args, t: Tail, left: nat, o: Outcome)
    ensures var m := Step(cfg, w, Uploader(args, UploadPc.Tail(t), left), o);
      && m.world == StepTail(w, args, t, o) && m.spawned.None?
      && m.proc == var next := NextTail(w, args, t, o);
           Uploader(args, if next.Some? then UploadPc.Tail(next.value) else UploadPc.Done, left)
  {
  }

  lemma ExtractEnding(cfg: Config, w: World, args: Args, t: Tail, left: nat, o: Outcome)
    ensures var m := Step(cfg, w, Extractor(args, ExtractPc.Tail(t), left), o);
      && m.world == StepTail(w, args, t, o) && m.spawned.None?
      && m.proc == var next := NextTail(w, args, t, o);
           Extractor(args, if next.Some? then ExtractPc.Tail(next.value) else ExtractPc.Done, left)
  {
  }

  /** What all tasks share. */
  class Task {
    const kind: Kind
    const args: Args
    const left: nat
    const stores: Stores

    constructor (kind: Kind, args: Args, left: nat, stores: Stores)
      ensures this.kind == kind && this.args == args && this.left == left && this.stores == stores
    {
      this.kind, this.args, this.left, this.stores := kind, args, left, stores;
    }

    ghost function Fresh(left: nat): Proc {
      match kind
      case Scanning => Scanner(args, ScanPc.Start, left)
      case Storing => Uploader(args, UploadPc.Start, left)
      case Extracting => Extractor(args, ExtractPc.Start, left)
    }

    ghost function Checking(): Proc {
      match kind
      case Scanning => Scanner(args, ScanPc.CheckPath, left)
      case Storing => Uploader(args, UploadPc.CheckPath, left)
      case Extracting => Extractor(args, ExtractPc.CheckPath(None), left)
    }

    ghost function Working(): Proc {
      match kind
      case Scanning => Scanner(args, WriteScanning, left)
      case Storing => Uploader(args, WriteUploading, left)
      case Extracting => Extractor(args, WriteExtracting(None), left)
    }

    ghost function Ending(tail: Tail): Proc {
      match kind
      case Scanning => Scanner(args, ScanPc.Tail(tail), left)
      case Storing => Uploader(args, UploadPc.Tail(tail), left)
      case Extracting => Extractor(args, ExtractPc.Tail(tail), left)
    }

    ghost function Ended(): Proc {
      match kind
      case Scanning => Scanner(args, ScanPc.Done, left)
      case Storing => Uploader(args, UploadPc.Done, left)
      case Extracting => Extractor(args, ExtractPc.Done, left)
    }

    /** Where a raised call leads: back into the queue, or into the failure callback. */
    ghost function Raised(o: Outcome): Proc {
      if left > 0 && !Final(left, o) then Fresh(left - 1)
      else if kind.Extracting? then Extractor(args, ReadExtracted, left) else Ending(ReadStatus)
    }

    ghost predicate At(p: Proc)
      reads stores
    {
      stores.Valid() && stores.pos == p
    }

    twostate predicate MovedTo(p: Proc)
      reads stores
    {
      stores.Continues() && stores.pos == p
    }

    ghost function AfterTail(w: World, t: Tail, o: Outcome): Proc {
      var next := NextTail(w, args, t, o);
      if next.Some? then Ending(next.value) else Ended()
    }

    /** The common end of the three tasks is the same sequence of calls. */
    lemma EndingCalls(w: World, t: Tail)
      ensures t.ReadStatus? ==> Reads(stores.cfg, w, Ending(t))
      ensures t.WriteFailed? ==> Writes(stores.cfg, w, Ending(t), w.Finish(args.doc, Failed), Lands)
      ensures t.Unlink? ==> Unlinks(stores.cfg, w, Ending(t), args.req)
      ensures forall o :: Step(stores.cfg, w, Ending(t), o).proc == AfterTail(w, t, o)
    {
      hide Step;
      forall o ensures var m := Step(stores.cfg, w, Ending(t), o);
        && m.world == StepTail(w, args, t, o) && m.spawned.None?
        && m.proc == AfterTail(w, t, o)
      {
        ScanEnding(stores.cfg, w, args, t, left, o);
        UploadEnding(stores.cfg, w, args, t, left, o);
        ExtractEnding(stores.cfg, w, args, t, left, o);
      }
    }

    /** Remove the temp file; an error is only logged. */
    method CleanupFile()
      requires At(Ending(Tail.Unlink))
      modifies stores
      ensures MovedTo(Ended())
    {
      hide Step, Unlinks;
      EndingCalls(stores.World(), Tail.Unlink);
      var _ := stores.Unlink(args.req);
    }

    ghost function Worked(): Proc {
      if kind.Scanning? then Scanner(args, Scan, left) else Uploader(args, Head, left)
    }

    lemma WorkingCall(w: World)
      requires !kind.Extracting?
      ensures Writes(stores.cfg, w, Working(), w.SetStatus(args.doc, if kind.Scanning? then DocumentStatus.Scanning else Uploading), Lands)
      ensures forall o :: Step(stores.cfg, w, Working(), o).proc == (if o.Raise? then Raised(o) else Worked())
    {
      hide UploadRequest.Step, Consumer.Step, Services.StepCancel, Services.StepCreate, Services.StepRetry,
        Services.StepRemove;
      hide ExtractTask.Step, StepTail, World.SetStatus;
    }

    /** Write the status of a task that is about to work. */
    method MarkWorking() returns (error: Option<Outcome>)
      requires !kind.Extracting? && At(Working())
      modifies stores
      ensures MovedTo(if error.Some? then Raised(error.value) else Worked())
    {
      hide Step, Writes, Follow, Busy;
      WorkingCall(stores.World());
      error := None;
      var o := stores.SetStatus(args.doc, if kind.Scanning? then DocumentStatus.Scanning else Uploading);
      if o.Raise? { error := Some(o); }
    }

    method IsDocumentCancelled() returns (cancelled: bool, error: Option<Outcome>)
      requires !kind.Extracting? && At(Fresh(left))
      modifies stores
      ensures MovedTo(if error.Some? then Raised(error.value) else if cancelled then Ended() else Checking())
      ensures error.None? && !cancelled ==> args.doc < |stores.docs|
    {
      hide UploadRequest.Step, Consumer.Step, Services.StepCancel, Services.StepCreate, Services.StepRetry,
        Services.StepRemove;
      cancelled, error := false, None;
      var o := stores.Read();
      if o.Raise? { return false, Some(o); }
      if args.doc >= |stores.docs| || stores.docs[args.doc].status == Cancelled {
        CleanupFile();
        cancelled := true;
      }
    }

    ghost function Missing(): Proc {
      match kind
      case Scanning => Scanner(args, ScanPc.WriteCancelled, left)
      case Storing => Uploader(args, UploadPc.WriteCancelled, left)
      case Extracting => Extractor(args, ExtractPc.Restore(None, false), left)
    }

    lemma CheckingCalls(w: World)
      requires !kind.Extracting?
      ensures Reads(stores.cfg, w, Checking())
      ensures forall o :: Step(stores.cfg, w, Checking(), o).proc == (if args.req in w.temps then Working() else Missing())
      ensures Writes(stores.cfg, w, Missing(), w.Finish(args.doc, Cancelled), Lands)
      ensures forall o :: Step(stores.cfg, w, Missing(), o).proc == (if o.Raise? then Raised(o) else Ended())
    {
      hide World.Finish, UploadRequest.Step, ExtractTask.Step, Consumer.Step;
      hide Services.StepCancel, Services.StepCreate, Services.StepRetry, Services.StepRemove;
    }

    method IsPathExists() returns (exists_: bool, error: Option<Outcome>)
      requires !kind.Extracting? && At(Checking())
      modifies stores
      ensures MovedTo(if error.Some? then Raised(error.value) else if exists_ then Working() else Ended())
    {
      hide Step, Reads, Writes, Follow, Busy;
      exists_, error := true, None;
      CheckingCalls(stores.World());
      var _ := stores.Read();
      CheckingCalls(stores.World());
      if args.req !in stores.temps {
        var o := stores.Finish(args.doc, Cancelled);
        if o.Raise? { error := Some(o); }
        exists_ := false;
      }
    }

    /** The two guards in front of scan and upload. */
    method Admit() returns (admitted: bool, error: Option<Outcome>)
      requires !kind.Extracting? && At(Fresh(left))
      modifies stores
      ensures MovedTo(if error.Some? then Raised(error.value) else if admitted then Working() else Ended())
    {
      hide Step, Follow, Busy;
      var cancelled;
      admitted := false;
      cancelled, error := IsDocumentCancelled();
      if error.Some? || cancelled { return; }
      admitted, error := IsPathExists();
    }

    method UpdateStatusAfterFailure()
      requires At(Ending(ReadStatus))
      modifies stores
      ensures MovedTo(Ending(Tail.Unlink))
    {
      hide Step, Reads, Writes, Follow, Busy;
      EndingCalls(stores.World(), ReadStatus);
      var o := stores.Read();
      EndingCalls(stores.World(), Tail.WriteFailed);
      if o.Raise? { return; }
      if args.doc < |stores.docs| && stores.docs[args.doc].status != Cancelled {
        var _ := stores.Finish(args.doc, Failed);
      }
    }

    /** The callback once no retry is left: its own errors are swallowed. */
    method OnTaskFailure()
      requires At(Ending(ReadStatus))
      modifies stores
      ensures MovedTo(Ended())
    {
      hide UploadRequest.Step, Consumer.Step, Services.StepCancel, Services.StepCreate, Services.StepRetry,
        Services.StepRemove;
      UpdateStatusAfterFailure();
      CleanupFile();
    }

    ghost function Failing(): Proc {
      match kind
      case Scanning => Scanner(args, ScanPc.WriteFailed, left)
      case Storing => Uploader(args, UploadPc.WriteFailed, left)
      case Extracting => Extractor(args, ExtractPc.WriteFailed, left)
    }

    lemma FailingCall(w: World)
      ensures Writes(stores.cfg, w, Failing(), w.Finish(args.doc, Failed), Lands)
      ensures forall o :: Step(stores.cfg, w, Failing(), o).proc == (if o.Raise? then Raised(o) else Ending(Tail.Unlink))
    {
      hide UploadRequest.Step, Consumer.Step, Services.StepCancel, Services.StepCreate, Services.StepRetry,
        Services.StepRemove;
      hide World.Finish, StepTail, ExtractTask.StepDispatch, ExtractTask.StepFailure;
    }

    /** Write the status `failed`, forget the temp file and remove it. */
    method GiveUp() returns (error: Option<Outcome>)
      requires At(Failing())
      modifies stores
      ensures MovedTo(if error.Some? then Raised(error.value) else Ended())
    {
      hide Step, Writes, Follow, Busy;
      FailingCall(stores.World());
      error := None;
      var o := stores.Finish(args.doc, Failed);
      if o.Raise? { return Some(o); }
      CleanupFile();
    }
  }

  class DocumentScanTask {
    const task: Task
    const failOnUnavailable: bool

    constructor (task: Task)
      ensures this.task == task && failOnUnavailable == task.stores.cfg.failClosed
    {
      this.task, failOnUnavailable := task, task.stores.cfg.failClosed;
    }

    ghost predicate At(pc: ScanPc)
      reads task.stores
    {
      task.kind.Scanning? && failOnUnavailable == task.stores.cfg.failClosed && task.At(Scanner(task.args, pc, task.left))
    }

    twostate predicate MovedTo(pc: ScanPc)
      reads task.stores
    {
      task.MovedTo(Scanner(task.args, pc, task.left))
    }

    method PublishToUpload() returns (error: Option<Outcome>)
      requires At(ScanPc.Enqueue)
      modifies task.stores
      ensures task.MovedTo(if error.Some? then task.Raised(error.value) else task.Ended())
    {
      hide UploadRequest.Step, Consumer.Step, Services.StepCancel, Services.StepCreate, Services.StepRetry,
        Services.StepRemove, UploadTask.Step, ExtractTask.Step;
      error := None;
      var o := task.stores.Enqueue(Uploader(task.args, UploadPc.Start, MAX_RETRIES));
      if o.Raise? { error := Some(o); }
    }

    ghost function Judged(infected: Option<bool>): ScanPc {
      if infected == Some(true) then WriteInfected
      else if infected.None? && failOnUnavailable then ScanPc.WriteFailed else ScanPc.Enqueue
    }

    /** The verdict, or none when the scanner could not be reached or the file is gone. */
    method ProcessScanning() returns (infected: Option<bool>, error: Option<Outcome>)
      requires At(Scan)
      modifies task.stores
      ensures if error.Some? then task.MovedTo(task.Raised(error.value))
              else MovedTo(Judged(infected))
      ensures exists o ::
        && task.stores.calls == old(task.stores.calls) + [o]
        && error == (if o.Raise? then Some(o) else None)
        && infected == (if o.Raise? || task.args.req !in task.stores.temps || o.Unavailable? then None else Some(o.Infected?))
    {
      hide UploadRequest.Step, Consumer.Step, Services.StepCancel, Services.StepCreate, Services.StepRetry,
        Services.StepRemove, UploadTask.Step, ExtractTask.Step;
      var o := task.stores.Read();
      infected, error := None, None;
      if o.Raise? { return None, Some(o); }
      if task.args.req in task.stores.temps && !o.Unavailable? { infected := Some(o.Infected?); }
    }

    method Quarantine() returns (error: Option<Outcome>)
      requires At(WriteInfected)
      modifies task.stores
      ensures task.MovedTo(if error.Some? then task.Raised(error.value) else task.Ended())
    {
      hide UploadRequest.Step, Consumer.Step, Services.StepCancel, Services.StepCreate, Services.StepRetry,
        Services.StepRemove, UploadTask.Step, ExtractTask.Step;
      error := None;
      var o := task.stores.Finish(task.args.doc, DocumentStatus.Infected);
      if o.Raise? { return Some(o); }
      task.CleanupFile();
    }

    method Execute() returns (error: Option<Outcome>)
      requires At(ScanPc.Start)
      modifies task.stores
      ensures task.MovedTo(if error.Some? then task.Raised(error.value) else task.Ended())
    {
      hide Step, Follow, Busy;
      var admitted, infected;
      admitted, error := task.Admit();
      if error.Some? || !admitted { return; }
      error := task.MarkWorking();
      if error.Some? { return; }
      infected, error := ProcessScanning();
      if error.None? { error := HandleVerdict(infected); }
    }

    /** No verdict fails the document or lets it pass, by the setting. */
    method HandleVerdict(infected: Option<bool>) returns (error: Option<Outcome>)
      requires At(Judged(infected))
      modifies task.stores
      ensures task.MovedTo(if error.Some? then task.Raised(error.value) else task.Ended())
    {
      hide Step, Follow, Busy;
      if infected.None? {
        if failOnUnavailable {
          error := task.GiveUp();
        } else {
          error := PublishToUpload();
        }
      } else if infected.value {
        error := Quarantine();
      } else {
        error := PublishToUpload();
      }
    }

    /** One delivery: Celery puts the task back while it may be retried, and calls back otherwise. */
    method Deliver()
      requires At(ScanPc.Start)
      modifies task.stores
      ensures task.MovedTo(task.Ended()) || (task.left > 0 && task.MovedTo(task.Fresh(task.left - 1)))
    {
      hide UploadRequest.Step, Consumer.Step, Services.StepCancel, Services.StepCreate, Services.StepRetry,
        Services.StepRemove, UploadTask.Step, ExtractTask.Step;
      var error := Execute();
      if error.Some? && Final(task.left, error.value) { task.OnTaskFailure(); }
    }
  }

  class DocumentUploadTask {
    const task: Task

    constructor (task: Task)
      ensures this.task == task
    {
      this.task := task;
    }

    ghost predicate At(pc: UploadPc)
      reads task.stores
    {
      task.kind.Storing? && task.At(Uploader(task.args, pc, task.left))
    }

    twostate predicate MovedTo(pc: UploadPc)
      reads task.stores
    {
      task.MovedTo(Uploader(task.args, pc, task.left))
    }

    /** The storage refused exactly when one of its answers was a refusal. */
    twostate predicate Answered(refused: bool, error: Option<Outcome>)
      reads task.stores
    {
      refused <==> error.None? && exists i :: |old(task.stores.calls)| <= i < |task.stores.calls| && task.stores.calls[i].Refuse?
    }

    /** Store the temp file unless an object is there already. */
    method UploadDocument() returns (refused: bool, error: Option<Outcome>)
      requires At(Head)
      modifies task.stores
      ensures if error.Some? then task.MovedTo(task.Raised(error.value))
              else MovedTo(if refused then UploadPc.WriteFailed else WriteUploaded)
      ensures Answered(refused, error)
      ensures error.None? && !refused ==> task.args.req in task.stores.objects
      ensures task.args.req in old(task.stores.objects) ==> task.stores.objects == old(task.stores.objects)
    {
      hide UploadRequest.Step, Consumer.Step, Services.StepCancel, Services.StepCreate, Services.StepRetry,
        Services.StepRemove, ScanTask.Step, ExtractTask.Step;
      var stores, args := task.stores, task.args;
      refused, error := false, None;
      var o := stores.Read();
      if o.Raise? { return false, Some(o); }
      if o.Refuse? { return true, None; }
      if args.req !in stores.objects {
        refused, error := UploadFile();
      }
    }

    lemma PutCall(w: World)
      requires task.kind.Storing?
      ensures var cfg, args, p := task.stores.cfg, task.args, Uploader(task.args, Put, task.left);
        if args.req in w.temps then
          && Writes(cfg, w, p, w.(objects := w.objects[args.req := w.temps[args.req]]), LandsUnlessRefused)
          && forall o :: Step(cfg, w, p, o).proc ==
               (if o.Raise? then task.Raised(o)
                else Uploader(args, if o.Refuse? then UploadPc.WriteFailed else WriteUploaded, task.left))
        else
          Reads(cfg, w, p) && forall o :: Step(cfg, w, p, o).proc == task.Raised(Raise(false, true))
    {
      hide UploadRequest.Step, Consumer.Step, Services.StepCancel, Services.StepCreate, Services.StepRetry,
        Services.StepRemove, ScanTask.Step, ExtractTask.Step;
    }

    method UploadFile() returns (refused: bool, error: Option<Outcome>)
      requires At(Put)
      modifies task.stores
      ensures if error.Some? then task.MovedTo(task.Raised(error.value))
              else MovedTo(if refused then UploadPc.WriteFailed else WriteUploaded)
      ensures Answered(refused, error)
      ensures error.None? && !refused ==> task.args.req in task.stores.objects
    {
      hide Step, Reads, Writes, Follow, Busy;
      var stores, args := task.stores, task.args;
      PutCall(stores.World());
      if args.req !in stores.temps {
        stores.Pass();
        return false, Some(Raise(false, true));
      }
      var o := stores.PutObject(args.req);
      refused, error := o.Refuse?, if o.Raise? then Some(o) else None;
      assert stores.Latest() == o;
    }

    method Execute() returns (error: Option<Outcome>)
      requires At(UploadPc.Start)
      modifies task.stores
      ensures task.MovedTo(if error.Some? then task.Raised(error.value) else task.Ended())
    {
      hide Step, Follow, Busy, Stores.Valid, Stores.World, Final;
      var admitted, refused;
      admitted, error := task.Admit();
      if error.Some? || !admitted { return; }
      error := task.MarkWorking();
      if error.Some? { return; }
      refused, error := UploadDocument();
      if error.Some? { return; }
      if refused { error := task.GiveUp(); } else { error := Complete(); }
    }

    lemma StoredCalls(w: World)
      requires task.kind.Storing?
      ensures var cfg, args, p := task.stores.cfg, task.args, Uploader(task.args, WriteUploaded, task.left);
        && Writes(cfg, w, p, UploadTask.SetUploaded(w, args.doc, args.req), Lands)
        && forall o :: Step(cfg, w, p, o).proc == (if o.Raise? then task.Raised(o) else Uploader(args, UploadPc.Enqueue, task.left))
      ensures var cfg, p := task.stores.cfg, Uploader(task.args, UploadPc.Enqueue, task.left);
        && Enqueues(cfg, w, p, Extractor(task.args, ExtractPc.Start, MAX_RETRIES))
        && forall o :: Step(cfg, w, p, o).proc == (if o.Raise? then task.Raised(o) else task.Ended())
    {
      hide UploadRequest.Step, Consumer.Step, Services.StepCancel, Services.StepCreate, Services.StepRetry,
        Services.StepRemove, ScanTask.Step, ExtractTask.Step;
      hide UploadTask.SetUploaded;
    }

    method Complete() returns (error: Option<Outcome>)
      requires At(WriteUploaded)
      modifies task.stores
      ensures task.MovedTo(if error.Some? then task.Raised(error.value) else task.Ended())
    {
      hide Step, Writes, Enqueues, Follow, Busy, Agrees;
      error := None;
      StoredCalls(task.stores.World());
      var o := task.stores.SetUploaded(task.args.doc, task.args.req);
      if o.Raise? { return Some(o); }
      StoredCalls(task.stores.World());
      o := task.stores.Enqueue(Extractor(task.args, ExtractPc.Start, MAX_RETRIES));
      if o.Raise? { return Some(o); }
    }

    method Deliver()
      requires At(UploadPc.Start)
      modifies task.stores
      ensures task.MovedTo(task.Ended()) || (task.left > 0 && task.MovedTo(task.Fresh(task.left - 1)))
    {
      hide UploadRequest.Step, Consumer.Step, Services.StepCancel, Services.StepCreate, Services.StepRetry,
        Services.StepRemove, ScanTask.Step, ExtractTask.Step;
      var error := Execute();
      if error.Some? && Final(task.left, error.value) { task.OnTaskFailure(); }
    }
  }

  /** What became of an attempt to extract the text. */
  datatype Extraction = Extracted | FileGone | Unreadable

  class DocumentExtractionTask {
    const task: Task

    constructor (task: Task)
      ensures this.task == task
    {
      this.task := task;
    }

    ghost predicate At(pc: ExtractPc)
      reads task.stores
    {
      task.kind.Extracting? && task.At(Extractor(task.args, pc, task.left))
    }

    twostate predicate MovedTo(pc: ExtractPc)
      reads task.stores
    {
      task.MovedTo(Extractor(task.args, pc, task.left))
    }

    ghost function Pos(pc: ExtractPc): Proc {
      Extractor(task.args, pc, task.left)
    }

    ghost function Restored(key: Option<nat>, again: bool): Proc {
      Pos(if again then Extract(key, true) else WriteExtracting(key))
    }

    /** One outcome of a download. */
    lemma RestoreOne(w: World, key: nat, again: bool, o: Outcome)
      requires task.kind.Extracting? && key in w.objects
      ensures var m := Step(task.stores.cfg, w, Pos(Restore(Some(key), again)), o);
        && Agrees(m.world, if Downloads(o) then w.(temps := w.temps[task.args.req := w.objects[key]]) else w)
        && m.spawned.None?
        && m.proc == if o.Raise? then task.Raised(o) else if o.Refuse? then task.Failing() else Restored(Some(key), again)
    {
      hide ExtractTask.StepDispatch, ExtractTask.StepFailure;
      hide UploadRequest.Step, Consumer.Step, Services.StepCancel, Services.StepCreate, Services.StepRetry,
        Services.StepRemove, ScanTask.Step, UploadTask.Step;
    }

    /** Nothing to download. */
    lemma RestoreNone(w: World, key: Option<nat>, again: bool, o: Outcome)
      requires task.kind.Extracting? && (key.Some? ==> key.value !in w.objects)
      ensures var m := Step(task.stores.cfg, w, Pos(Restore(key, again)), o);
        && m.world == w && m.spawned.None?
        && m.proc == if key.None? then task.Raised(ExtractTask.PERMANENT)
                     else if o.Raise? then task.Raised(o) else task.Failing()
    {
      hide ExtractTask.StepDispatch, ExtractTask.StepFailure;
      hide UploadRequest.Step, Consumer.Step, Services.StepCancel, Services.StepCreate, Services.StepRetry,
        Services.StepRemove, ScanTask.Step, UploadTask.Step;
    }

    lemma RestoreCall(w: World, key: Option<nat>, again: bool)
      requires task.kind.Extracting?
      ensures var cfg, p := task.stores.cfg, Pos(Restore(key, again));
        if key.Some? && key.value in w.objects then
          && Writes(cfg, w, p, w.(temps := w.temps[task.args.req := w.objects[key.value]]), Downloads)
          && forall o :: Step(cfg, w, p, o).proc == (if o.Raise? then task.Raised(o) else if o.Refuse? then task.Failing()
                                                     else Restored(key, again))
        else
          && Reads(cfg, w, p)
          && forall o :: Step(cfg, w, p, o).proc == (if key.None? then task.Raised(ExtractTask.PERMANENT)
                                                     else if o.Raise? then task.Raised(o) else task.Failing())
    {
      hide Step;
      if key.Some? && key.value in w.objects {
        forall o { RestoreOne(w, key.value, again, o); }
      } else {
        forall o { RestoreNone(w, key, again, o); }
      }
    }

    /** Fetch the file from the object store; a refusal ends the document. */
    method RestoreFileFromStorage(key: Option<nat>, again: bool) returns (restored: bool, error: Option<Outcome>)
      requires At(Restore(key, again))
      modifies task.stores
      ensures task.MovedTo(if error.Some? then task.Raised(error.value)
                           else if restored then Restored(key, again) else task.Ended())
    {
      hide Step, Writes, Reads, Follow, Busy;
      RestoreCall(task.stores.World(), key, again);
      restored, error := false, None;
      if key.None? {
        task.stores.Pass();
        return false, Some(ExtractTask.PERMANENT);
      }
      if key.value in task.stores.objects {
        var o := task.stores.Download(key.value, task.args.req);
        if o.Raise? { return false, Some(o); }
        restored := !o.Refuse?;
      } else {
        var o := task.stores.Read();
        if o.Raise? { return false, Some(o); }
      }
      if !restored { error := task.GiveUp(); }
    }

    /** Read the file, store its text, and mark the document extracted. */
    method ExtractText(key: Option<nat>, again: bool) returns (result: Extraction, error: Option<Outcome>)
      requires At(Extract(key, again))
      modifies task.stores
      ensures if error.Some? then task.MovedTo(task.Raised(error.value))
              else match result
                case Extracted => MovedTo(ExtractPc.Unlink)
                case FileGone => !again && MovedTo(Restore(key, true))
                case Unreadable => !again && MovedTo(ExtractPc.WriteFailed)
    {
      hide UploadRequest.Step, Consumer.Step, Services.StepCancel, Services.StepCreate, Services.StepRetry,
        Services.StepRemove, ScanTask.Step, UploadTask.Step;
      var text;
      text, result, error := ReadText(key, again);
      if error.Some? || !result.Extracted? { return; }
      error := StoreText(text);
    }

    lemma ExtractCall(w: World, key: Option<nat>, again: bool)
      requires task.kind.Extracting?
      ensures var cfg, args, p := task.stores.cfg, task.args, Pos(Extract(key, again));
        && Reads(cfg, w, p)
        && forall o :: Step(cfg, w, p, o).proc ==
             if args.req !in w.temps then (if again then task.Raised(ExtractTask.PERMANENT) else Pos(Restore(key, true)))
             else if o.Raise? then task.Raised(o)
             else match cfg.extract(w.temps[args.req], args.mime)
               case Some(text) => Pos(Upsert(text))
               case None => if again then task.Raised(ExtractTask.PERMANENT) else task.Failing()
    {
      hide UploadRequest.Step, Consumer.Step, Services.StepCancel, Services.StepCreate, Services.StepRetry,
        Services.StepRemove, ScanTask.Step, UploadTask.Step;
      hide ExtractTask.StepDispatch, ExtractTask.StepFailure;
    }

    method ReadText(key: Option<nat>, again: bool) returns (text: string, result: Extraction, error: Option<Outcome>)
      requires At(Extract(key, again))
      modifies task.stores
      ensures if error.Some? then task.MovedTo(task.Raised(error.value))
              else match result
                case Extracted => MovedTo(Upsert(text))
                case FileGone => !again && MovedTo(Restore(key, true))
                case Unreadable => !again && MovedTo(ExtractPc.WriteFailed)
    {
      hide Step, Reads, Follow, Busy;
      text, error := "", None;
      ExtractCall(task.stores.World(), key, again);
      var o := task.stores.Read();
      if task.args.req !in task.stores.temps {
        result := FileGone;
        if again { error := Some(ExtractTask.PERMANENT); }
        return;
      }
      result := Extraction.Extracted;
      if o.Raise? { error := Some(o); return; }
      match task.stores.cfg.extract(task.stores.temps[task.args.req], task.args.mime)
      case Some(found) => text := found;
      case None =>
        result := Unreadable;
        if again { error := Some(ExtractTask.PERMANENT); }
    }

    lemma StoreCalls(w: World, text: string)
      requires task.kind.Extracting?
      ensures var cfg, p := task.stores.cfg, Pos(Upsert(text));
        && Writes(cfg, w, p, w.(texts := w.texts[task.args.doc := text]), Lands)
        && forall o :: Step(cfg, w, p, o).proc == (if o.Raise? then task.Raised(o) else Pos(WriteExtracted))
      ensures var cfg, p := task.stores.cfg, Pos(WriteExtracted);
        && Writes(cfg, w, p, w.Finish(task.args.doc, DocumentStatus.Extracted), Lands)
        && forall o :: Step(cfg, w, p, o).proc == (if o.Raise? then task.Raised(o) else Pos(ExtractPc.Unlink))
    {
      hide UploadRequest.Step, Consumer.Step, Services.StepCancel, Services.StepCreate, Services.StepRetry,
        Services.StepRemove, ScanTask.Step, UploadTask.Step;
      hide World.Finish;
    }

    method StoreText(text: string) returns (error: Option<Outcome>)
      requires At(Upsert(text))
      modifies task.stores
      ensures if error.Some? then task.MovedTo(task.Raised(error.value)) else MovedTo(ExtractPc.Unlink)
    {
      hide Step, Writes, Follow, Busy;
      error := None;
      StoreCalls(task.stores.World(), text);
      var o := task.stores.UpsertText(task.args.doc, text, Lands);
      if o.Raise? { return Some(o); }
      StoreCalls(task.stores.World(), text);
      o := task.stores.Finish(task.args.doc, DocumentStatus.Extracted);
      if o.Raise? { return Some(o); }
    }

    /** The analysis of this document and upload request, whoever created it. */
    method GetOrCreateAnalysis() returns (run: nat, error: Option<Outcome>)
      requires At(ExtractPc.Find)
      modifies task.stores
      ensures if error.Some? then task.MovedTo(task.Raised(error.value)) else MovedTo(ExtractPc.Publish(run))
    {
      hide UploadRequest.Step, Consumer.Step, Services.StepCancel, Services.StepCreate, Services.StepRetry,
        Services.StepRemove, ScanTask.Step, UploadTask.Step;
      var stores, args := task.stores, task.args;
      run, error := 0, None;
      var o := stores.Read();
      if o.Raise? { return 0, Some(o); }
      var found := stores.analyses.Find(args.doc, args.req);
      if found.None? {
        run, found, error := CreateAnalysis();
        if error.Some? || found.None? { return; }
      }
      run := found.value;
      if !(run in stores.analyses.rows && stores.analyses.rows[run].provider == args.provider) {
        error := Some(Raise(false, false));
      }
    }

    lemma InsertCall(w: World)
      requires task.kind.Extracting?
      ensures var cfg, p, d, req := task.stores.cfg, Pos(ExtractPc.Insert), task.args.doc, task.args.req;
        if w.analyses.Accepts(d, req, None) then
          && Writes(cfg, w, p, w.(analyses := w.analyses.Insert(d, req, task.args.provider, None)), Lands)
          && forall o :: Step(cfg, w, p, o).proc == (if o.Raise? then task.Raised(o) else Pos(ExtractPc.Publish(w.analyses.next)))
        else
          && Reads(cfg, w, p)
          && forall o :: Step(cfg, w, p, o).proc == (if o.Raise? then task.Raised(o) else Pos(ExtractPc.FindAgain))
    {
      hide UploadRequest.Step, Consumer.Step, Services.StepCancel, Services.StepCreate, Services.StepRetry,
        Services.StepRemove, ScanTask.Step, UploadTask.Step;
      hide Table.Insert, Table.Accepts;
    }

    /** Insert, or look again when a unique index refuses. */
    method CreateAnalysis() returns (created: nat, found: Option<nat>, error: Option<Outcome>)
      requires At(ExtractPc.Insert)
      modifies task.stores
      ensures error.Some? ==> task.MovedTo(task.Raised(error.value))
      ensures error.None? && found.None? ==> MovedTo(ExtractPc.Publish(created))
      ensures error.None? && found.Some? ==>
        && task.stores.Continues() && task.stores.analyses.Find(task.args.doc, task.args.req) == found
        && task.stores.pos == ExtractTask.Got(task.stores.World(), task.args, found.value, task.left).proc
    {
      hide Step, Writes, Reads, Follow, Busy, Table.Insert, Table.Accepts, ExtractTask.Got;
      var stores, args := task.stores, task.args;
      InsertCall(stores.World());
      created, found, error := stores.analyses.next, None, None;
      var o;
      if stores.analyses.Accepts(args.doc, args.req, None) {
        o := stores.InsertAnalysis(args.doc, args.req, args.provider, None);
        if o.Raise? { error := Some(o); }
      } else {
        o := stores.Read();
        if o.Raise? { error := Some(o); return; }
        found, error := LookAgain();
      }
    }

    method LookAgain() returns (found: Option<nat>, error: Option<Outcome>)
      requires At(ExtractPc.FindAgain)
      modifies task.stores
      ensures error.Some? ==> task.MovedTo(task.Raised(error.value))
      ensures error.None? ==>
        && task.stores.Continues() && found.Some? && task.stores.analyses.Find(task.args.doc, task.args.req) == found
        && task.stores.pos == ExtractTask.Got(task.stores.World(), task.args, found.value, task.left).proc
    {
      hide UploadRequest.Step, Consumer.Step, Services.StepCancel, Services.StepCreate, Services.StepRetry,
        Services.StepRemove, ScanTask.Step, UploadTask.Step;
      found, error := None, None;
      var o := task.stores.Read();
      if o.Raise? { error := Some(o); return; }
      found := task.stores.analyses.Find(task.args.doc, task.args.req);
      if found.None? { error := Some(Raise(false, false)); }
    }

    lemma PublishCall(w: World, run: nat)
      requires task.kind.Extracting?
      ensures var cfg, p := task.stores.cfg, Pos(ExtractPc.Publish(run));
        && Enqueues(cfg, w, p, Handler(task.args.doc, run, task.args.req, HandlerPc.Start, 0))
        && forall o :: Step(cfg, w, p, o).proc == (if o.Raise? then task.Raised(o) else task.Ended())
    {
      hide UploadRequest.Step, Consumer.Step, Services.StepCancel, Services.StepCreate, Services.StepRetry,
        Services.StepRemove, ScanTask.Step, UploadTask.Step;
      hide ExtractTask.StepFailure;
    }

    method DispatchAnalysis() returns (error: Option<Outcome>)
      requires At(ExtractPc.Find)
      modifies task.stores
      ensures task.MovedTo(if error.Some? then task.Raised(error.value) else task.Ended())
    {
      hide Step, Enqueues, Follow, Busy;
      var run;
      run, error := GetOrCreateAnalysis();
      if error.Some? { return; }
      PublishCall(task.stores.World(), run);
      var o := task.stores.Enqueue(Handler(task.args.doc, run, task.args.req, HandlerPc.Start, 0));
      if o.Raise? { error := Some(o); }
    }

    lemma ExtractingCall(w: World, key: Option<nat>)
      requires task.kind.Extracting?
      ensures var cfg, p := task.stores.cfg, Pos(WriteExtracting(key));
        && Writes(cfg, w, p, w.SetStatus(task.args.doc, DocumentStatus.Extracting), Lands)
        && forall o :: Step(cfg, w, p, o).proc == (if o.Raise? then task.Raised(o) else Pos(Extract(key, false)))
    {
      hide UploadRequest.Step, Consumer.Step, Services.StepCancel, Services.StepCreate, Services.StepRetry,
        Services.StepRemove, ScanTask.Step, UploadTask.Step;
      hide World.SetStatus;
    }

    method MarkExtracting(key: Option<nat>) returns (error: Option<Outcome>)
      requires At(WriteExtracting(key))
      modifies task.stores
      ensures task.MovedTo(if error.Some? then task.Raised(error.value) else Pos(Extract(key, false)))
    {
      hide Step, Writes, Follow, Busy;
      ExtractingCall(task.stores.World(), key);
      error := None;
      var o := task.stores.SetStatus(task.args.doc, DocumentStatus.Extracting);
      if o.Raise? { error := Some(o); }
    }

    /** Once the text is stored: remove the file, then create and publish the analysis. */
    method Complete() returns (error: Option<Outcome>)
      requires At(ExtractPc.Unlink)
      modifies task.stores
      ensures task.MovedTo(if error.Some? then task.Raised(error.value) else task.Ended())
    {
      hide UploadRequest.Step, Consumer.Step, Services.StepCancel, Services.StepCreate, Services.StepRetry,
        Services.StepRemove, ScanTask.Step, UploadTask.Step;
      var _ := task.stores.Unlink(task.args.req);
      error := DispatchAnalysis();
    }

    method ProcessExtraction(key: Option<nat>) returns (error: Option<Outcome>)
      requires At(Extract(key, false))
      modifies task.stores
      ensures task.MovedTo(if error.Some? then task.Raised(error.value) else task.Ended())
    {
      hide Step, Follow, Busy, Stores.Valid, Stores.World, Final;
      var result;
      result, error := ExtractText(key, false);
      if error.Some? { return; }
      match result
      case Extracted =>
        error := Complete();
      case FileGone =>
        var restored;
        restored, error := RestoreFileFromStorage(key, true);
        if error.Some? || !restored { return; }
        result, error := ExtractText(key, true);
        if error.Some? { return; }
        error := Complete();
      case Unreadable =>
        error := task.GiveUp();
    }

    /** The widest dispatch: what an extraction does depends on the status it finds. */
    method Execute() returns (error: Option<Outcome>)
      requires At(ExtractPc.Start)
      modifies task.stores
      ensures task.MovedTo(if error.Some? then task.Raised(error.value) else task.Ended())
    {
      hide UploadRequest.Step, Consumer.Step, Services.StepCancel, Services.StepCreate, Services.StepRetry,
        Services.StepRemove, ScanTask.Step, UploadTask.Step;
      var key, status;
      status, key, error := GetDocument();
      hide Step, Follow, Busy;
      if error.Some? { return; }
      match status
      case None =>
        task.CleanupFile();
      case Some(found) =>
        if found.Uploaded? || found.Extracting? {
          error := Start(key);
        } else if found.Bad() {
          task.CleanupFile();
        } else if found.Created? || found.Scanning? || found.Uploading? {
          return;
        } else {
          error := Complete();
        }
    }

    method GetDocument() returns (status: Option<DocumentStatus>, key: Option<nat>, error: Option<Outcome>)
      requires At(ExtractPc.Start)
      modifies task.stores
      ensures task.MovedTo(
        if error.Some? then task.Raised(error.value)
        else if status.None? then task.Ending(Tail.Unlink)
        else if status.value.Uploaded? || status.value.Extracting? then Pos(ExtractPc.CheckPath(key))
        else if status.value.Bad() then task.Ending(Tail.Unlink)
        else if status.value.Extracted? then Pos(ExtractPc.Unlink) else task.Ended())
    {
      hide UploadRequest.Step, Consumer.Step, Services.StepCancel, Services.StepCreate, Services.StepRetry,
        Services.StepRemove, ScanTask.Step, UploadTask.Step;
      status, key, error := None, None, None;
      var o := task.stores.Read();
      if o.Raise? { error := Some(o); return; }
      if task.args.doc < |task.stores.docs| {
        var document := task.stores.docs[task.args.doc];
        status, key := Some(document.status), document.key;
      }
    }

    method Start(key: Option<nat>) returns (error: Option<Outcome>)
      requires At(ExtractPc.CheckPath(key))
      modifies task.stores
      ensures task.MovedTo(if error.Some? then task.Raised(error.value) else task.Ended())
    {
      hide Step, Follow, Busy;
      var there := IsTempDocumentExists(key);
      if !there {
        var restored;
        restored, error := RestoreFileFromStorage(key, false);
        if error.Some? || !restored { return; }
      }
      error := MarkExtracting(key);
      if error.Some? { return; }
      error := ProcessExtraction(key);
    }

    method IsTempDocumentExists(key: Option<nat>) returns (there: bool)
      requires At(ExtractPc.CheckPath(key))
      modifies task.stores
      ensures MovedTo(if there then WriteExtracting(key) else Restore(key, false))
    {
      hide UploadRequest.Step, Consumer.Step, Services.StepCancel, Services.StepCreate, Services.StepRetry,
        Services.StepRemove, ScanTask.Step, UploadTask.Step;
      var _ := task.stores.Read();
      there := task.args.req in task.stores.temps;
    }

    lemma ReadExtractedCall(w: World)
      requires task.kind.Extracting?
      ensures var cfg, p, d := task.stores.cfg, Pos(ReadExtracted), task.args.doc;
        && Reads(cfg, w, p)
        && forall o :: Step(cfg, w, p, o).proc ==
             (if o.Raise? || d >= |w.docs| then task.Ending(Tail.Unlink)
              else if w.docs[d].status == DocumentStatus.Extracted then Pos(ExtractPc.MarkFind) else task.Ending(ReadStatus))
    {
      hide ExtractTask.StepDispatch, StepTail;
      hide UploadRequest.Step, Consumer.Step, Services.StepCancel, Services.StepCreate, Services.StepRetry,
        Services.StepRemove, ScanTask.Step, UploadTask.Step;
    }

    /** An extracted document keeps its status; its analysis, if it is still queued, is marked failed. */
    method HandleFinalFailure()
      requires At(ReadExtracted)
      modifies task.stores
      ensures task.MovedTo(task.Ending(Tail.Unlink))
    {
      hide Step, Reads, Follow, Busy;
      ReadExtractedCall(task.stores.World());
      var o := task.stores.Read();
      if o.Raise? || task.args.doc >= |task.stores.docs| { return; }
      if task.stores.docs[task.args.doc].status != DocumentStatus.Extracted {
        task.UpdateStatusAfterFailure();
      } else {
        MarkDispatchFailed();
      }
    }

    lemma MarkCalls(w: World)
      requires task.kind.Extracting?
      ensures var cfg, p, found := task.stores.cfg, Pos(ExtractPc.MarkFind), w.analyses.Find(task.args.doc, task.args.req);
        && Reads(cfg, w, p)
        && forall o :: Step(cfg, w, p, o).proc ==
             (if !o.Raise? && found.Some? && found.value in w.analyses.rows && w.analyses.rows[found.value].status == Queued
              then Pos(ExtractPc.MarkWrite) else task.Ending(Tail.Unlink))
      ensures var cfg, p := task.stores.cfg, Pos(ExtractPc.MarkWrite);
        && Writes(cfg, w, p, w.Update(task.args.doc, task.args.req, Break(Transient)), Lands)
        && forall o :: Step(cfg, w, p, o).proc == task.Ending(Tail.Unlink)
    {
      hide UploadRequest.Step, Consumer.Step, Services.StepCancel, Services.StepCreate, Services.StepRetry,
        Services.StepRemove, ScanTask.Step, UploadTask.Step;
      hide World.Update, Table.Update;
    }

    method MarkDispatchFailed()
      requires At(ExtractPc.MarkFind)
      modifies task.stores
      ensures task.MovedTo(task.Ending(Tail.Unlink))
    {
      hide Step, Writes, Reads, Follow, Busy, World.Update, Table.Update;
      var stores, args := task.stores, task.args;
      MarkCalls(stores.World());
      var o := stores.Read();
      var found := stores.analyses.Find(args.doc, args.req);
      if !o.Raise? && found.Some? && found.value in stores.analyses.rows && stores.analyses.rows[found.value].status == Queued {
        MarkCalls(stores.World());
        o := stores.UpdateAnalysis(args.doc, args.req, Break(Transient));
      }
    }

    method OnTaskFailure()
      requires At(ReadExtracted)
      modifies task.stores
      ensures task.MovedTo(task.Ended())
    {
      hide UploadRequest.Step, Consumer.Step, Services.StepCancel, Services.StepCreate, Services.StepRetry,
        Services.StepRemove, ScanTask.Step, UploadTask.Step;
      HandleFinalFailure();
      task.CleanupFile();
    }

    method Deliver()
      requires At(ExtractPc.Start)
      modifies task.stores
      ensures task.MovedTo(task.Ended()) || (task.left > 0 && task.MovedTo(task.Fresh(task.left - 1)))
    {
      hide UploadRequest.Step, Consumer.Step, Services.StepCancel, Services.StepCreate, Services.StepRetry,
        Services.StepRemove, ScanTask.Step, UploadTask.Step;
      var error := Execute();
      if error.Some? && Final(task.left, error.value) { OnTaskFailure(); }
    }
  }
}
