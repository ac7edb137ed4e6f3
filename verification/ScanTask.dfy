/** The antivirus task. */
module ScanTask {
  import opened Types
  import opened Pipeline
  import opened BaseTask

  function At(w: World, args: Args, pc: ScanPc, left: nat): Move {
    Move(w, Scanner(args, pc, left), None)
  }

  function Fail(w: World, args: Args, left: nat, o: Outcome, sent: Option<Proc>): Move {
    if Final(left, o) then Move(w, Scanner(args, ScanPc.Tail(ReadStatus), left), sent)
    else Move(w, Scanner(args, ScanPc.Start, left - 1), sent)
  }

  /** A database write followed by `pc`. */
  function Write(w: World, w': World, args: Args, pc: ScanPc, left: nat, o: Outcome): Move {
    if o.Raise? then Fail(Landed(w, w', o), args, left, o, None) else At(w', args, pc, left)
  }

  function Step(cfg: Config, w: World, args: Args, pc: ScanPc, left: nat, o: Outcome): Move {
    var d := args.doc;
    match pc
    case Start =>
      if o.Raise? then Fail(w, args, left, o, None)
      else At(w, args, if Stopped(w, d) then ScanPc.Tail(Tail.Unlink) else ScanPc.CheckPath, left)
    case CheckPath =>
      At(w, args, if args.req in w.temps then WriteScanning else ScanPc.WriteCancelled, left)
    case WriteCancelled => Write(w, w.Finish(d, Cancelled), args, ScanPc.Done, left, o)
    case WriteScanning => Write(w, w.SetStatus(d, Scanning), args, ScanPc.Scan, left, o)
    case Scan =>
      if o.Raise? then Fail(w, args, left, o, None)
      else if args.req !in w.temps || o.Unavailable? then
        // a missing file is an OSError, which the scanner reports as unavailability
        At(w, args, if cfg.failClosed then ScanPc.WriteFailed else ScanPc.Enqueue, left)
      else if o.Infected? then At(w, args, WriteInfected, left)
      else At(w.(clean := w.clean + {w.temps[args.req]}), args, ScanPc.Enqueue, left)
    case WriteInfected => Write(w, w.Finish(d, DocumentStatus.Infected), args, ScanPc.Tail(Tail.Unlink), left, o)
    case WriteFailed => Write(w, w.Finish(d, Failed), args, ScanPc.Tail(Tail.Unlink), left, o)
    case Enqueue =>
      var sent := Sent(Uploader(args, UploadPc.Start, MAX_RETRIES), o);
      if o.Raise? then Fail(w, args, left, o, sent) else Move(w, Scanner(args, ScanPc.Done, left), sent)
    case Tail(t) =>
      var next := NextTail(w, args, t, o);
      At(StepTail(w, args, t, o), args, if next.Some? then ScanPc.Tail(next.value) else ScanPc.Done, left)
    case Done => At(w, args, pc, left)
  }
}
