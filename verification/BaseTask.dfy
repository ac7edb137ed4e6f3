/** What every task shares: writes that may raise before or after they land, cleanup, and the failure callback. */
module BaseTask {
  import opened Types
  import opened Pipeline

  /** A call that changes `w` into `w'`: the change happens unless the call raised before it landed. */
  function Landed(w: World, w': World, o: Outcome): World {
    if o.Raise? && !o.landed then w else w'
  }

  /** A publish: the message is in the queue unless the call raised before it landed. */
  function Sent(p: Proc, o: Outcome): Option<Proc> {
    if o.Raise? && !o.landed then None else Some(p)
  }

  /** Cleanup swallows the error of a failed unlink. */
  function Cleaned(w: World, name: nat, o: Outcome): World {
    if o.Raise? then w.(leaked := w.leaked + {name}) else w.Unlink(name)
  }

  /** A raised call ends the run for good when no retry is left or its exception is not retried. */
  predicate Final(left: nat, o: Outcome) {
    left == 0 || (o.Raise? && o.fatal)
  }

  /** A document that is gone or cancelled stops a task before it starts. */
  predicate Stopped(w: World, d: nat) {
    d >= |w.docs| || w.docs[d].status == Cancelled
  }

  /** One step of the failure callback: read the status, write `failed` unless cancelled, unlink the temp file. */
  function StepTail(w: World, args: Args, tail: Tail, o: Outcome): World {
    match tail
    case ReadStatus => if o.Raise? then w.LoseDoc(args.doc) else w
    case WriteFailed => if o.Raise? && !o.landed then w.LoseDoc(args.doc) else w.Finish(args.doc, Failed)
    case Unlink => Cleaned(w, args.req, o)
  }

  function NextTail(w: World, args: Args, tail: Tail, o: Outcome): Option<Tail> {
    match tail
    case ReadStatus => Some(if o.Raise? || Stopped(w, args.doc) then Tail.Unlink else Tail.WriteFailed)
    case WriteFailed => Some(Tail.Unlink)
    case Unlink => None
  }
}
