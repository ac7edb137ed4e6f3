/** What a call does to the analyses, and what such a write keeps. */
module TableWrites {
  import opened Types
  import opened AnalysisTable
  import opened Pipeline
  import opened BaseTask
  import opened Machine
  import ScanTask
  import UploadTask
  import ExtractTask
  import UploadRequest
  import Services
  import Consumer

  datatype Write =
    | Nothing
    | Insert(doc: nat, req: nat, provider: Provider, retryOf: Option<nat>)
    | Update(doc: nat, req: nat, change: Change)
    | Delete(run: nat)
  {
    function Apply(t: Table): Table {
      match this
      case Nothing => t
      case Insert(d, req, provider, retryOf) =>
        if t.Accepts(d, req, retryOf) then t.Insert(d, req, provider, retryOf) else t
      case Update(d, req, change) => t.Update(d, req, change)
      case Delete(a) => t.Delete(a)
    }
  }

  function HandlerWrite(w: World, d: nat, a: nat, req: nat, pc: HandlerPc): Write {
    match pc
    case Corrupt =>
      if a in w.analyses.rows then Update(w.analyses.rows[a].doc, w.analyses.rows[a].req, Break(Permanent)) else Nothing
    case NoText => Update(d, req, Break(Permanent))
    case WriteAnalyzing(_, _) => Update(d, req, Begin)
    case WriteSuccess(report) => Update(d, req, Change.Finish(report))
    case WriteRefused => Update(d, req, Break(Permanent))
    case RecoverWrite => Update(d, req, Break(Transient))
    case _ => Nothing
  }

  /** The write of the next call of `p`, if it lands. */
  function WriteOf(w: World, p: Proc, o: Outcome): Write {
    if o.Raise? && !o.landed then Nothing else
    match p
    case Request(req, Insert(d)) => Write.Insert(d, req, w.File(req).provider, None)
    case Request(req, MarkWrite(d)) => Update(d, req, Break(Transient))
    case Extractor(args, Insert, _) => Write.Insert(args.doc, args.req, args.provider, None)
    case Extractor(args, MarkWrite, _) => Update(args.doc, args.req, Break(Transient))
    case Creator(d, req, _, Insert(provider)) => Write.Insert(d, req, provider, None)
    case Creator(d, req, _, MarkWrite(_)) => Update(d, req, Break(Transient))
    case Retrier(d, req, parent, Insert(provider)) => Write.Insert(d, req, provider, Some(parent))
    case Retrier(d, req, _, MarkWrite(_)) => Update(d, req, Break(Transient))
    case Remover(_, target, Delete) => Write.Delete(target)
    case Handler(d, a, req, pc, _) => HandlerWrite(w, d, a, req, pc)
    case _ => Nothing
  }

  lemma RequestTable(cfg: Config, w: World, req: nat, pc: RequestPc, o: Outcome)
    ensures UploadRequest.Step(cfg, w, req, pc, o).world.analyses == WriteOf(w, Request(req, pc), o).Apply(w.analyses)
  {
    hide Table.Insert, Table.Update, Table.Delete;
  }

  lemma ScannerTable(cfg: Config, w: World, args: Args, pc: ScanPc, left: nat, o: Outcome)
    ensures ScanTask.Step(cfg, w, args, pc, left, o).world.analyses == w.analyses
  {
  }

  lemma UploaderTable(w: World, args: Args, pc: UploadPc, left: nat, o: Outcome)
    ensures UploadTask.Step(w, args, pc, left, o).world.analyses == w.analyses
  {
  }

  lemma ExtractorTable(cfg: Config, w: World, args: Args, pc: ExtractPc, left: nat, o: Outcome)
    ensures ExtractTask.Step(cfg, w, args, pc, left, o).world.analyses ==
      WriteOf(w, Extractor(args, pc, left), o).Apply(w.analyses)
  {
    hide Table.Insert, Table.Update, Table.Delete, ExtractTask.StepDispatch, ExtractTask.StepFailure;
    if ExtractTask.Dispatching(pc) || pc.ReadExtracted? || pc.MarkFind? || pc.MarkWrite? || pc.Tail? {
      hide *;
      DispatchTable(cfg, w, args, pc, left, o);
    }
  }

  lemma DispatchTable(cfg: Config, w: World, args: Args, pc: ExtractPc, left: nat, o: Outcome)
    requires ExtractTask.Dispatching(pc) || pc.ReadExtracted? || pc.MarkFind? || pc.MarkWrite? || pc.Tail?
    ensures ExtractTask.Step(cfg, w, args, pc, left, o).world.analyses ==
      WriteOf(w, Extractor(args, pc, left), o).Apply(w.analyses)
  {
    hide Table.Insert, Table.Update, Table.Delete;
  }

  lemma CancellerTable(w: World, d: nat, pc: CancelPc, o: Outcome)
    ensures Services.StepCancel(w, d, pc, o).world.analyses == w.analyses
  {
  }

  lemma CreatorTable(w: World, d: nat, req: nat, provider: Provider, pc: ApiPc, o: Outcome)
    ensures Services.StepCreate(w, d, req, provider, pc, o).world.analyses ==
      WriteOf(w, Creator(d, req, provider, pc), o).Apply(w.analyses)
  {
    hide Table.Insert, Table.Update, Table.Delete;
  }

  lemma RetrierTable(w: World, d: nat, req: nat, parent: nat, pc: ApiPc, o: Outcome)
    ensures Services.StepRetry(w, d, req, parent, pc, o).world.analyses ==
      WriteOf(w, Retrier(d, req, parent, pc), o).Apply(w.analyses)
  {
    hide Table.Insert, Table.Update, Table.Delete;
  }

  lemma RemoverTable(w: World, d: nat, target: nat, pc: RemovePc, o: Outcome)
    ensures Services.StepRemove(w, d, target, pc, o).world.analyses ==
      WriteOf(w, Remover(d, target, pc), o).Apply(w.analyses)
  {
    hide Table.Insert, Table.Update, Table.Delete;
  }

  lemma HandlerTable(w: World, d: nat, a: nat, req: nat, pc: HandlerPc, n: nat, o: Outcome)
    ensures Consumer.Step(w, d, a, req, pc, n, o).world.analyses ==
      WriteOf(w, Handler(d, a, req, pc, n), o).Apply(w.analyses)
  {
    hide Table.Insert, Table.Update, Table.Delete;
  }

  /** Every call writes at most once, and this is what it writes. */
  lemma StepTable(cfg: Config, w: World, p: Proc, o: Outcome)
    ensures Step(cfg, w, p, o).world.analyses == WriteOf(w, p, o).Apply(w.analyses)
  {
    hide UploadRequest.Step, ScanTask.Step, UploadTask.Step, ExtractTask.Step, Consumer.Step;
    hide Services.StepCancel, Services.StepCreate, Services.StepRetry, Services.StepRemove, HandlerWrite;
    match p
    case Request(req, pc) => RequestTable(cfg, w, req, pc, o);
    case Scanner(args, pc, left) => ScannerTable(cfg, w, args, pc, left, o);
    case Uploader(args, pc, left) => UploaderTable(w, args, pc, left, o);
    case Extractor(args, pc, left) => ExtractorTable(cfg, w, args, pc, left, o);
    case Canceller(d, pc) => CancellerTable(w, d, pc, o);
    case Creator(d, req, provider, pc) => CreatorTable(w, d, req, provider, pc, o);
    case Retrier(d, req, parent, pc) => RetrierTable(w, d, req, parent, pc, o);
    case Remover(d, target, pc) => RemoverTable(w, d, target, pc, o);
    case Handler(d, a, req, pc, n) => HandlerTable(w, d, a, req, pc, n, o);
  }

  // --- Finished analyses ---

  /** A finished analysis stays as it is until it is removed. */
  ghost predicate KeepsFinal(t: Table, t': Table) {
    forall a <- t.rows :: t.rows[a].Terminal() && a in t'.rows ==> t'.rows[a] == t.rows[a]
  }

  ghost predicate AllWellFormed(t: Table) {
    forall a <- t.rows :: t.rows[a].WellFormed()
  }

  /** The change would write what is there already. */
  predicate Repeats(row: Analysis, change: Change) {
    match change
    case Begin => row.status.Analyzing?
    case Break(kind) => row.status.Broken? && row.failure == Some(kind)
    case Finish(report) =>
      row.status.Succeeded? && row.failure.None? && row.report == Some(report) && row.prompt == Some(report.prompt)
  }

  /** An update finds no analysis, an unfinished one, or one it does not change. */
  predicate Timely(t: Table, write: Write) {
    write.Update? ==>
      match t.Find(write.doc, write.req)
      case None => true
      case Some(a) => a in t.rows ==> !t.rows[a].Terminal() || Repeats(t.rows[a], write.change)
  }

  /** A write leaves finished analyses alone exactly when it is timely. */
  lemma KeepsFinalIff(t: Table, write: Write)
    requires t.Valid()
    ensures KeepsFinal(t, write.Apply(t)) <==> Timely(t, write)
  {
    match write
    case Update(d, req, change) =>
      var found := t.Find(d, req);
      if found.Some? {
        assert write.Apply(t).rows[found.value] == t.rows[found.value].With(change);
      }
    case _ =>
  }

  /** A timely write keeps the states well formed. */
  lemma TimelyWellFormed(t: Table, write: Write)
    requires t.Valid() && AllWellFormed(t) && Timely(t, write)
    ensures AllWellFormed(write.Apply(t))
  {
  }

  // --- Retries ---

  ghost predicate Childless(t: Table, a: nat) {
    forall b <- t.rows :: t.rows[b].retryOf != Some(a)
  }

  predicate RetryableAt(t: Table, parent: nat) {
    parent in t.rows && t.rows[parent].Retryable()
  }

  /** What a retry repeats is there and failed for a passing reason. */
  ghost predicate Lineage(t: Table) {
    forall a <- t.rows :: t.rows[a].retryOf.Some? ==> RetryableAt(t, t.rows[a].retryOf.value)
  }

  /** A retry is inserted while its parent can be retried, an analysis is removed while it was not retried, and
      one that was retried stays retryable. */
  ghost predicate InLine(t: Table, write: Write) {
    match write
    case Nothing => true
    case Insert(d, req, _, retryOf) =>
      retryOf.Some? && t.Accepts(d, req, retryOf) ==> RetryableAt(t, retryOf.value)
    case Update(d, req, change) =>
      (match t.Find(d, req)
       case None => true
       case Some(a) => a in t.rows ==> Childless(t, a) || t.rows[a].With(change).Retryable())
    case Delete(a) => a in t.rows ==> Childless(t, a)
  }

  lemma InsertLineageIff(t: Table, d: nat, req: nat, provider: Provider, retryOf: Option<nat>)
    requires t.Valid() && Lineage(t) && t.Accepts(d, req, retryOf) && (retryOf.Some? ==> retryOf.value < t.next)
    ensures Lineage(t.Insert(d, req, provider, retryOf)) <==> (retryOf.Some? ==> RetryableAt(t, retryOf.value))
  {
    var t' := t.Insert(d, req, provider, retryOf);
    assert t.next !in t.rows && t'.rows[t.next].retryOf == retryOf;
    assert forall a <- t.rows :: t'.rows[a] == t.rows[a];
  }

  lemma UpdateLineageIff(t: Table, d: nat, req: nat, change: Change)
    requires t.Valid() && Lineage(t)
    ensures Lineage(t.Update(d, req, change)) <==> InLine(t, Update(d, req, change))
  {
    var found := t.Find(d, req);
    if found.Some? && found.value in t.rows {
      hide Table.Valid, Table.Update;
      UpdatedRows(t, d, req, change);
      RowLineageIff(t, t.Update(d, req, change), found.value);
    }
  }

  lemma UpdatedRows(t: Table, d: nat, req: nat, change: Change)
    requires t.Find(d, req).Some? && t.Find(d, req).value in t.rows
    ensures var a, t' := t.Find(d, req).value, t.Update(d, req, change);
      t'.rows.Keys == t.rows.Keys && t'.rows[a] == t.rows[a].With(change) && forall b <- t.rows :: b != a ==> t'.rows[b] == t.rows[b]
  {
  }

  /** Only the row that changed can stop being retryable. */
  lemma RowLineageIff(t: Table, t': Table, a: nat)
    requires Lineage(t) && a in t.rows && t'.rows.Keys == t.rows.Keys && t'.rows[a].retryOf == t.rows[a].retryOf
    requires forall b <- t.rows :: b != a ==> t'.rows[b] == t.rows[b]
    ensures Lineage(t') <==> Childless(t, a) || t'.rows[a].Retryable()
  {
    if !Childless(t, a) {
      var b :| b in t.rows && t.rows[b].retryOf == Some(a);
      assert b in t'.rows && t'.rows[b].retryOf == Some(a);
    }
  }

  lemma DeleteLineageIff(t: Table, a: nat)
    requires t.Valid() && Lineage(t)
    ensures Lineage(t.Delete(a)) <==> (a in t.rows ==> Childless(t, a))
  {
    var t' := t.Delete(a);
    forall b | b in t.rows && t.rows[b].retryOf == Some(a) && a in t.rows ensures !Lineage(t') {
      assert b in t'.rows && t'.rows[b].retryOf == Some(a) && a !in t'.rows;
    }
  }

  /** A write keeps the lineage of retries exactly when it is in line. */
  lemma LineageIff(t: Table, write: Write)
    requires t.Valid() && Lineage(t)
    requires write.Insert? && write.retryOf.Some? ==> write.retryOf.value < t.next
    ensures Lineage(write.Apply(t)) <==> InLine(t, write)
  {
    hide Table.Valid, Lineage, Childless, RetryableAt;
    match write
    case Nothing =>
    case Insert(d, req, provider, retryOf) =>
      if t.Accepts(d, req, retryOf) { InsertLineageIff(t, d, req, provider, retryOf); }
    case Update(d, req, change) => UpdateLineageIff(t, d, req, change);
    case Delete(a) => DeleteLineageIff(t, a);
  }
}
