/** The API requests on existing documents and analyses. */
module Services {
  import opened Types
  import opened AnalysisTable
  import opened Pipeline
  import opened BaseTask

  /** Cancel a document: write the status, then unlink the temp file the row named. */
  function StepCancel(w: World, d: nat, pc: CancelPc, o: Outcome): Move {
    var at := (w': World, pc': CancelPc) => Move(w', Canceller(d, pc'), None);
    match pc
    case Start =>
      if o.Raise? || Stopped(w, d) then at(w, CancelPc.Done) else at(w, Write(w.docs[d].temp))
    case Write(temp) =>
      at(Landed(w, w.Finish(d, Cancelled), o),
         if o.Raise? || temp.None? then CancelPc.Done else CancelPc.Unlink(temp.value))
    case Unlink(name) => at(Cleaned(w, name, o), CancelPc.Done)
    case Done => at(w, pc)
  }

  /** Both analysis requests first check that the document is extracted and has a text. */
  predicate ReadyStatus(w: World, d: nat) {
    d < |w.docs| && w.docs[d].status == Extracted
  }

  predicate ReadyText(w: World, d: nat) {
    d in w.texts && w.texts[d] != ""
  }

  /** The dispatch both analysis requests end with: publish, and mark the analysis failed when that raises. */
  function StepDispatch(w: World, d: nat, req: nat, pc: ApiPc, o: Outcome): (World, ApiPc, Option<Proc>)
    requires pc.Publish? || pc.MarkFind? || pc.MarkWrite?
  {
    match pc
    case Publish(run) =>
      (w, if o.Raise? then ApiPc.MarkFind(run) else ApiPc.Done, Sent(Handler(d, run, req, HandlerPc.Start, 0), o))
    case MarkFind(run) =>
      var found := w.analyses.Find(d, req);
      if o.Raise? then (w.LoseRun(d, req), ApiPc.Done, None)
      else if found.Some? && found.value in w.analyses.rows && w.analyses.rows[found.value].status == Queued then
        (w, ApiPc.MarkWrite(run), None)
      else (w, ApiPc.Done, None)
    case MarkWrite(run) =>
      (if o.Raise? && !o.landed then w.LoseRun(d, req) else w.Update(d, req, Break(Transient)), ApiPc.Done, None)
  }

  /** Insert an analysis and go on to publish it. */
  function StepInsert(w: World, d: nat, req: nat, provider: Provider, retryOf: Option<nat>, o: Outcome): (World, ApiPc) {
    if !w.analyses.Accepts(d, req, retryOf) then (w, if o.Raise? then ApiPc.Done else ApiPc.FindAgain) else
    var inserted := w.(analyses := w.analyses.Insert(d, req, provider, retryOf));
    if o.Raise? then (if o.landed then inserted.LoseRun(d, req) else w, ApiPc.Done)
    else (inserted, ApiPc.Publish(w.analyses.next))
  }

  function StepCreate(w: World, d: nat, req: nat, provider: Provider, pc: ApiPc, o: Outcome): Move {
    var at := (w': World, pc': ApiPc) => Move(w', Creator(d, req, provider, pc'), None);
    match pc
    case Start => at(w, if o.Raise? || !ReadyStatus(w, d) then ApiPc.Done else ApiPc.ReadText)
    case ReadText => at(w, if o.Raise? || !ReadyText(w, d) then ApiPc.Done else ApiPc.Insert(provider))
    case Insert(p) => var (w', pc') := StepInsert(w, d, req, p, None, o); at(w', pc')
    case FindAgain => at(w, ApiPc.Done)
    case Done => at(w, pc)
    case Get => at(w, ApiPc.Done)
    case FindChild(_) => at(w, ApiPc.Done)
    case _ =>
      var (w', pc', sent) := StepDispatch(w, d, req, pc, o);
      Move(w', Creator(d, req, provider, pc'), sent)
  }

  function StepRetry(w: World, d: nat, req: nat, parent: nat, pc: ApiPc, o: Outcome): Move {
    var at := (w': World, pc': ApiPc) => Move(w', Retrier(d, req, parent, pc'), None);
    match pc
    case Start => at(w, if o.Raise? || !ReadyStatus(w, d) then ApiPc.Done else ApiPc.ReadText)
    case ReadText => at(w, if o.Raise? || !ReadyText(w, d) then ApiPc.Done else ApiPc.Get)
    case Get =>
      var rows := w.analyses.rows;
      at(w, if o.Raise? || parent !in rows || rows[parent].doc != d || !rows[parent].Retryable()
            then ApiPc.Done else ApiPc.FindChild(rows[parent].provider))
    case FindChild(provider) =>
      at(w, if o.Raise? || w.analyses.FindChild(parent).Some? then ApiPc.Done else ApiPc.Insert(provider))
    case Insert(provider) => var (w', pc') := StepInsert(w, d, req, provider, Some(parent), o); at(w', pc')
    case FindAgain => at(w, ApiPc.Done)
    case Done => at(w, pc)
    case _ =>
      var (w', pc', sent) := StepDispatch(w, d, req, pc, o);
      Move(w', Retrier(d, req, parent, pc'), sent)
  }

  /** Remove an analysis: only a terminal one, and only one that was not retried. */
  function StepRemove(w: World, d: nat, target: nat, pc: RemovePc, o: Outcome): Move {
    var at := (w': World, pc': RemovePc) => Move(w', Remover(d, target, pc'), None);
    var rows := w.analyses.rows;
    match pc
    case Start => at(w, if o.Raise? || d >= |w.docs| then RemovePc.Done else RemovePc.Get)
    case Get =>
      at(w, if o.Raise? || target !in rows || rows[target].doc != d then RemovePc.Done
            else RemovePc.FindChild(rows[target].Terminal()))
    case FindChild(terminal) =>
      at(w, if o.Raise? || w.analyses.FindChild(target).Some? || !terminal then RemovePc.Done else Delete)
    case Delete => at(Landed(w, w.(analyses := w.analyses.Delete(target)), o), RemovePc.Done)
    case Done => at(w, pc)
  }
}
