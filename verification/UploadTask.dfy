/** The object storage task. */
module UploadTask {
  import opened Types
  import opened Pipeline
  import opened BaseTask

  function At(w: World, args: Args, pc: UploadPc, left: nat): Move {
    Move(w, Uploader(args, pc, left), None)
  }

  function Fail(w: World, args: Args, left: nat, o: Outcome, sent: Option<Proc>): Move {
    if Final(left, o) then Move(w, Uploader(args, UploadPc.Tail(ReadStatus), left), sent)
    else Move(w, Uploader(args, UploadPc.Start, left - 1), sent)
  }

  function Write(w: World, w': World, args: Args, pc: UploadPc, left: nat, o: Outcome): Move {
    if o.Raise? then Fail(Landed(w, w', o), args, left, o, None) else At(w', args, pc, left)
  }

  /** The object key and the status `uploaded` are one row update. */
  function SetUploaded(w: World, d: nat, key: nat): World {
    if d < |w.docs| then w.(docs := w.docs[d := w.docs[d].(key := Some(key), status := Uploaded)]) else w
  }

  function Step(w: World, args: Args, pc: UploadPc, left: nat, o: Outcome): Move {
    var d := args.doc;
    match pc
    case Start =>
      if o.Raise? then Fail(w, args, left, o, None)
      else At(w, args, if Stopped(w, d) then UploadPc.Tail(Tail.Unlink) else UploadPc.CheckPath, left)
    case CheckPath =>
      At(w, args, if args.req in w.temps then WriteUploading else UploadPc.WriteCancelled, left)
    case WriteCancelled => Write(w, w.Finish(d, Cancelled), args, UploadPc.Done, left, o)
    case WriteUploading => Write(w, w.SetStatus(d, Uploading), args, Head, left, o)
    case Head =>
      if o.Raise? then Fail(w, args, left, o, None)
      else if o.Refuse? then At(w, args, UploadPc.WriteFailed, left)
      else At(w, args, if args.req in w.objects then WriteUploaded else Put, left)
    case Put =>
      // a temp file that vanished raises FileNotFoundError, which is not retried
      if args.req !in w.temps then Fail(w, args, left, Raise(false, true), None) else
      var stored := w.(objects := w.objects[args.req := w.temps[args.req]]);
      if o.Raise? then Fail(Landed(w, stored, o), args, left, o, None)
      else if o.Refuse? then At(if o.landed then stored else w, args, UploadPc.WriteFailed, left)
      else At(stored, args, WriteUploaded, left)
    case WriteUploaded => Write(w, SetUploaded(w, d, args.req), args, UploadPc.Enqueue, left, o)
    case WriteFailed => Write(w, w.Finish(d, Failed), args, UploadPc.Tail(Tail.Unlink), left, o)
    case Enqueue =>
      var sent := Sent(Extractor(args, ExtractPc.Start, MAX_RETRIES), o);
      if o.Raise? then Fail(w, args, left, o, sent) else Move(w, Uploader(args, UploadPc.Done, left), sent)
    case Tail(t) =>
      var next := NextTail(w, args, t, o);
      At(StepTail(w, args, t, o), args, if next.Some? then UploadPc.Tail(next.value) else UploadPc.Done, left)
    case Done => At(w, args, pc, left)
  }
}
