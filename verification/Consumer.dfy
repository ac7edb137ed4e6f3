/** The consumer of analysis messages: the handler, and what the base class does when it raises. */
module Consumer {
  import opened Types
  import opened AnalysisTable
  import opened Pipeline
  import opened BaseTask

  function At(w: World, d: nat, a: nat, req: nat, pc: HandlerPc, n: nat): Move {
    Move(w, Handler(d, a, req, pc, n), None)
  }

  /** A retryable error: the message is dead-lettered and comes back, or the final failure is recorded. */
  function Fail(w: World, d: nat, a: nat, req: nat, n: nat): Move {
    if n >= MAX_RETRIES then At(w, d, a, req, Recover, n) else At(w, d, a, req, HandlerPc.Start, n + 1)
  }

  /** The update goes by document and request. When analysis `a` is gone it hits whatever took its place,
      which the history records. */
  function Updated(w: World, d: nat, a: nat, req: nat, change: Change): World {
    if a in w.analyses.rows then w.Update(d, req, change) else w.LoseRun(d, req).Update(d, req, change)
  }

  /** A status write followed by `pc`. */
  function Write(w: World, d: nat, a: nat, req: nat, change: Change, pc: HandlerPc, n: nat, o: Outcome): Move {
    var w' := Landed(w, Updated(w, d, a, req, change), o);
    if o.Raise? then Fail(w', d, a, req, n) else At(w', d, a, req, pc, n)
  }

  predicate Matches(row: Analysis, d: nat, req: nat) {
    row.doc == d && row.req == req
  }

  function Step(w: World, d: nat, a: nat, req: nat, pc: HandlerPc, n: nat, o: Outcome): Move {
    var rows := w.analyses.rows;
    match pc
    case Start =>
      if o.Raise? then Fail(w, d, a, req, n)
      else if a !in rows || rows[a].Terminal() then At(w, d, a, req, HandlerPc.Done, n)
      else At(w, d, a, req, if Matches(rows[a], d, req) then HandlerPc.ReadText else Corrupt, n)
    case Corrupt =>
      if a !in rows then At(w, d, a, req, HandlerPc.Done, n) else
      var w' := Landed(w, w.Update(rows[a].doc, rows[a].req, Break(Permanent)), o);
      if o.Raise? then Fail(w', d, a, req, n) else At(w', d, a, req, HandlerPc.Done, n)
    case ReadText =>
      if o.Raise? then Fail(w, d, a, req, n)
      else if d !in w.texts || w.texts[d] == "" then At(w, d, a, req, NoText, n)
      else At(w, d, a, req, ReadPrompt(w.texts[d]), n)
    case NoText => Write(w, d, a, req, Break(Permanent), HandlerPc.Done, n, o)
    case ReadPrompt(text) =>
      // a missing prompt raises, too
      if o.Raise? then Fail(w, d, a, req, n)
      else At(w, d, a, req, WriteAnalyzing(text, if o.Ok? then o.pick else 0), n)
    case WriteAnalyzing(text, version) => Write(w, d, a, req, Begin, Ask(text, version), n, o)
    case Ask(text, version) =>
      if o.Raise? then Fail(w, d, a, req, n)
      else At(w, d, a, req, if o.Refuse? then WriteRefused else WriteSuccess(Report(text, version)), n)
    case WriteSuccess(report) => Write(w, d, a, req, Change.Finish(report), HandlerPc.Done, n, o)
    case WriteRefused => Write(w, d, a, req, Break(Permanent), HandlerPc.Done, n, o)
    case Recover =>
      if o.Raise? then At(w.LoseRun(d, req), d, a, req, HandlerPc.Done, n)
      else if a !in rows || rows[a].Terminal() || !Matches(rows[a], d, req) then At(w, d, a, req, HandlerPc.Done, n)
      else At(w, d, a, req, RecoverWrite, n)
    case RecoverWrite =>
      At(if o.Raise? && !o.landed then w.LoseRun(d, req) else w.Update(d, req, Break(Transient)),
         d, a, req, HandlerPc.Done, n)
    case Done => At(w, d, a, req, pc, n)
  }
}
