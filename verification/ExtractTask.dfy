/** The text extraction task. */
module ExtractTask {
  import opened Types
  import opened AnalysisTable
  import opened Pipeline
  import opened BaseTask

  function At(w: World, args: Args, pc: ExtractPc, left: nat): Move {
    Move(w, Extractor(args, pc, left), None)
  }

  /** The failure callback of this task first looks whether the text was already extracted. */
  function Fail(w: World, args: Args, left: nat, o: Outcome, sent: Option<Proc>): Move {
    if Final(left, o) then Move(w, Extractor(args, ReadExtracted, left), sent)
    else Move(w, Extractor(args, ExtractPc.Start, left - 1), sent)
  }

  function Write(w: World, w': World, args: Args, pc: ExtractPc, left: nat, o: Outcome): Move {
    if o.Raise? then Fail(Landed(w, w', o), args, left, o, None) else At(w', args, pc, left)
  }

  /** An ExtractionError, which Celery does not retry. */
  const PERMANENT := Raise(false, true)

  function Step(cfg: Config, w: World, args: Args, pc: ExtractPc, left: nat, o: Outcome): Move {
    var d := args.doc;
    match pc
    case Start =>
      if o.Raise? then Fail(w, args, left, o, None)
      else if d >= |w.docs| then At(w, args, ExtractPc.Tail(Tail.Unlink), left)
      else
        (match w.docs[d].status
         case Uploaded => At(w, args, ExtractPc.CheckPath(w.docs[d].key), left)
         case Extracting => At(w, args, ExtractPc.CheckPath(w.docs[d].key), left)
         case Cancelled => At(w, args, ExtractPc.Tail(Tail.Unlink), left)
         case Failed => At(w, args, ExtractPc.Tail(Tail.Unlink), left)
         case Infected => At(w, args, ExtractPc.Tail(Tail.Unlink), left)
         case Created => At(w, args, ExtractPc.Done, left)
         case Scanning => At(w, args, ExtractPc.Done, left)
         case Uploading => At(w, args, ExtractPc.Done, left)
         case Extracted => At(w, args, ExtractPc.Unlink, left))
    case CheckPath(key) =>
      At(w, args, if args.req in w.temps then WriteExtracting(key) else Restore(key, false), left)
    case Restore(key, again) =>
      if key.None? then Fail(w, args, left, PERMANENT, None)
      else if key.value !in w.objects then
        if o.Raise? then Fail(w, args, left, o, None) else At(w, args, ExtractPc.WriteFailed, left)
      else if o.Refuse? then At(w, args, ExtractPc.WriteFailed, left)
      else Write(w, w.(temps := w.temps[args.req := w.objects[key.value]]), args,
                 if again then Extract(key, true) else WriteExtracting(key), left, o)
    case WriteExtracting(key) => Write(w, w.SetStatus(d, Extracting), args, Extract(key, false), left, o)
    case Extract(key, again) =>
      if args.req !in w.temps then
        // the file vanished after the check: restore it once, then give up
        if again then Fail(w, args, left, PERMANENT, None) else At(w, args, Restore(key, true), left)
      else if o.Raise? then Fail(w, args, left, o, None)
      else
        (match cfg.extract(w.temps[args.req], args.mime)
         case Some(text) => At(w, args, Upsert(text), left)
         case None =>
           if again then Fail(w, args, left, PERMANENT, None) else At(w, args, ExtractPc.WriteFailed, left))
    case Upsert(text) => Write(w, w.(texts := w.texts[d := text]), args, WriteExtracted, left, o)
    case WriteExtracted => Write(w, w.Finish(d, Extracted), args, ExtractPc.Unlink, left, o)
    case WriteFailed => Write(w, w.Finish(d, Failed), args, ExtractPc.Tail(Tail.Unlink), left, o)
    case Unlink => At(Cleaned(w, args.req, o), args, ExtractPc.Find, left)
    case Done => At(w, args, pc, left)
    case _ => if Dispatching(pc) then StepDispatch(w, args, pc, left, o) else StepFailure(w, args, pc, left, o)
  }

  predicate Dispatching(pc: ExtractPc) {
    pc.Find? || pc.Insert? || pc.FindAgain? || pc.Publish?
  }

  /** Get or create the analysis of this upload request, and publish it. */
  function StepDispatch(w: World, args: Args, pc: ExtractPc, left: nat, o: Outcome): Move {
    var d := args.doc;
    var found := w.analyses.Find(d, args.req);
    match pc
    case Find =>
      if o.Raise? then Fail(w, args, left, o, None)
      else if found.None? then At(w, args, ExtractPc.Insert, left)
      else Got(w, args, found.value, left)
    case Insert =>
      if !w.analyses.Accepts(d, args.req, None) then
        if o.Raise? then Fail(w, args, left, o, None) else At(w, args, ExtractPc.FindAgain, left)
      else
        Write(w, w.(analyses := w.analyses.Insert(d, args.req, args.provider, None)), args,
              ExtractPc.Publish(w.analyses.next), left, o)
    case FindAgain =>
      if o.Raise? then Fail(w, args, left, o, None)
      else if found.None? then Fail(w, args, left, Raise(false, false), None)
      else Got(w, args, found.value, left)
    case Publish(run) =>
      var sent := Sent(Handler(d, run, args.req, HandlerPc.Start, 0), o);
      if o.Raise? then Fail(w, args, left, o, sent) else Move(w, Extractor(args, ExtractPc.Done, left), sent)
    case _ => At(w, args, pc, left)
  }

  /** The failure callback: an extracted document keeps its status, and its analysis is marked failed instead. */
  function StepFailure(w: World, args: Args, pc: ExtractPc, left: nat, o: Outcome): Move {
    var d := args.doc;
    var found := w.analyses.Find(d, args.req);
    match pc
    case ReadExtracted =>
      if o.Raise? then At(w.LoseDoc(d).LoseRun(d, args.req), args, ExtractPc.Tail(Tail.Unlink), left)
      else if d >= |w.docs| then At(w, args, ExtractPc.Tail(Tail.Unlink), left)
      else if w.docs[d].status == Extracted then At(w, args, ExtractPc.MarkFind, left)
      else At(w, args, ExtractPc.Tail(ReadStatus), left)
    case MarkFind =>
      if o.Raise? then At(w.LoseRun(d, args.req), args, ExtractPc.Tail(Tail.Unlink), left)
      else if found.Some? && found.value in w.analyses.rows && w.analyses.rows[found.value].status == Queued then
        At(w, args, ExtractPc.MarkWrite, left)
      else At(w, args, ExtractPc.Tail(Tail.Unlink), left)
    case MarkWrite =>
      if o.Raise? && !o.landed then At(w.LoseRun(d, args.req), args, ExtractPc.Tail(Tail.Unlink), left)
      else At(w.Update(d, args.req, Break(Transient)), args, ExtractPc.Tail(Tail.Unlink), left)
    case Tail(t) =>
      var next := NextTail(w, args, t, o);
      At(StepTail(w, args, t, o), args, if next.Some? then ExtractPc.Tail(next.value) else ExtractPc.Done, left)
    case _ => At(w, args, pc, left)
  }

  /** An analysis of another provider under the same request is an error, which Celery retries. */
  function Got(w: World, args: Args, run: nat, left: nat): Move {
    if run in w.analyses.rows && w.analyses.rows[run].provider == args.provider
    then At(w, args, ExtractPc.Publish(run), left)
    else Fail(w, args, left, Raise(false, false), None)
  }
}
