/** The consumer of analysis messages, statement by statement. */
module Messages {
  import opened Types
  import opened AnalysisTable
  import opened Pipeline
  import opened BaseTask
  import opened Machine
  import opened Stores
  import UploadRequest
  import ScanTask
  import UploadTask
  import ExtractTask
  import Services
  import Consumer

  /** How a handler ends: normally, with an error the consumer drops, or with one it retries. */
  datatype Ending = Returned | Dropped | Raised

  /** No analysis appears, and none gets another result than this one. */
  ghost predicate Reported(rows: map<nat, Analysis>, rows': map<nat, Analysis>, report: Option<Report>) {
    forall a <- rows' :: a in rows && (rows'[a].report == rows[a].report || (report.Some? && rows'[a].report == report))
  }

  lemma UpdateReports(t: Table, d: nat, req: nat, change: Change)
    ensures Reported(t.rows, t.Update(d, req, change).rows, if change.Finish? then Some(change.report) else None)
  {
  }

  lemma ReportedNone(rows: map<nat, Analysis>)
    ensures Reported(rows, rows, None)
  {
  }

  lemma ReportedTrans(rows: map<nat, Analysis>, rows1: map<nat, Analysis>, rows2: map<nat, Analysis>, report: Option<Report>)
    requires Reported(rows, rows1, None) && Reported(rows1, rows2, report)
    ensures Reported(rows, rows2, report)
  {
  }

  class DocumentAnalysisConsumer {
    const doc: nat
    const analysis: nat
    const req: nat
    const deliveries: nat
    const stores: Stores

    constructor (doc: nat, analysis: nat, req: nat, deliveries: nat, stores: Stores)
      ensures this.doc == doc && this.analysis == analysis && this.req == req
      ensures this.deliveries == deliveries && this.stores == stores
    {
      this.doc, this.analysis, this.req, this.deliveries, this.stores := doc, analysis, req, deliveries, stores;
    }

    ghost function Pos(pc: HandlerPc): Proc {
      Handler(doc, analysis, req, pc, deliveries)
    }

    ghost predicate At(p: Proc)
      reads stores
    {
      stores.Valid() && stores.pos == p
    }

    twostate predicate MovedTo(p: Proc)
      reads stores
    {
      stores.Continues() && stores.pos == p
    }

    /** A retryable error sends the message back, or to the final failure when it was sent back often enough. */
    ghost function Failed(): Proc {
      if deliveries >= MAX_RETRIES then Pos(Recover)
      else Handler(doc, analysis, req, HandlerPc.Start, deliveries + 1)
    }

    ghost function After(ending: Ending): Proc {
      if ending.Raised? then Failed() else Pos(HandlerPc.Done)
    }

    ghost predicate Present()
      reads stores
    {
      analysis in stores.analyses.rows
    }

    ghost function Updated(w: World, change: Change): World {
      Consumer.Updated(w, doc, analysis, req, change)
    }

    /** The call at `pc` is this status write, followed by `pc'`. */
    ghost predicate Updates(w: World, pc: HandlerPc, change: Change, pc': HandlerPc) {
      forall o :: Step(stores.cfg, w, Pos(pc), o) == Consumer.Write(w, doc, analysis, req, change, pc', deliveries, o)
    }

    /** The tables after an update that goes by document and request. */
    lemma UpdatedTables(w: World, change: Change)
      ensures Agrees(Updated(w, change), w.Update(doc, req, change))
    {
      hide Table.Update;
    }

    lemma UpdateCall(w: World, pc: HandlerPc, change: Change, pc': HandlerPc)
      requires Updates(w, pc, change, pc')
      ensures Writes(stores.cfg, w, Pos(pc), w.Update(doc, req, change), Lands)
      ensures forall o :: Step(stores.cfg, w, Pos(pc), o).proc == (if o.Raise? then Failed() else Pos(pc'))
    {
      hide Step, Consumer.Updated, World.Update;
      UpdatedTables(w, change);
    }

    /** What has happened to the results since then. */
    twostate predicate Reports(report: Option<Report>)
      reads stores
    {
      Reported(old(stores.analyses.rows), stores.analyses.rows, report)
    }

    /** A status write of the handler. */
    method UpdateFields(ghost pc: HandlerPc, change: Change, ghost pc': HandlerPc) returns (raised: bool)
      requires At(Pos(pc)) && !pc.Done? && Updates(stores.World(), pc, change, pc')
      modifies stores
      ensures MovedTo(if raised then Failed() else Pos(pc'))
      ensures Reports(if change.Finish? then Some(change.report) else None) && stores.texts == old(stores.texts)
    {
      hide Step, Writes, Follow, Busy, Consumer.Write, Table.Update;
      UpdateCall(stores.World(), pc, change, pc');
      UpdateReports(stores.analyses, doc, req, change);
      var o := stores.UpdateAnalysis(doc, req, change);
      raised := o.Raise?;
    }

    /** Look at the analysis the message names. */
    method CheckAnalysis() returns (ending: Option<Ending>)
      requires At(Pos(HandlerPc.Start))
      modifies stores
      ensures MovedTo(if ending.Some? then After(ending.value) else Pos(HandlerPc.ReadText))
      ensures Reports(None) && (ending.None? ==> stores.texts == old(stores.texts) && |stores.calls| == |old(stores.calls)| + 1)
    {
      hide UploadRequest.Step, ScanTask.Step, UploadTask.Step, ExtractTask.Step, Services.StepCancel, Services.StepCreate,
        Services.StepRetry, Services.StepRemove;
      ending := None;
      var o := stores.Read();
      if o.Raise? { return Some(Ending.Raised); }
      if analysis !in stores.analyses.rows { return Some(Dropped); }
      var row := stores.analyses.rows[analysis];
      if row.Terminal() { return Some(Returned); }
      if !(row.doc == doc && row.req == req) {
        ending := MarkCorrupted();
      }
    }

    /** The message names an analysis of another request: that analysis fails, and the message is dropped. */
    method MarkCorrupted() returns (ending: Option<Ending>)
      requires At(Pos(Corrupt)) && Present()
      modifies stores
      ensures ending.Some? && MovedTo(After(ending.value))
      ensures Reports(None)
    {
      hide Step, Writes, Follow, Busy, Table.Update;
      CorruptCall(stores.World());
      var row := stores.analyses.rows[analysis];
      UpdateReports(stores.analyses, row.doc, row.req, Break(Permanent));
      var o := stores.UpdateAnalysis(row.doc, row.req, Break(Permanent));
      ending := Some(if o.Raise? then Ending.Raised else Dropped);
    }

    lemma CorruptCall(w: World)
      requires analysis in w.analyses.rows
      ensures var cfg, p, row := stores.cfg, Pos(Corrupt), w.analyses.rows[analysis];
        && Writes(cfg, w, p, w.Update(row.doc, row.req, Break(Permanent)), Lands)
        && forall o :: Step(cfg, w, p, o).proc == (if o.Raise? then Failed() else Pos(HandlerPc.Done))
    {
      hide UploadRequest.Step, ScanTask.Step, UploadTask.Step, ExtractTask.Step, Services.StepCancel, Services.StepCreate,
        Services.StepRetry, Services.StepRemove;
      hide World.Update;
    }

    lemma NoTextCall(w: World)
      ensures Updates(w, NoText, Break(Permanent), HandlerPc.Done)
    {
      hide UploadRequest.Step, ScanTask.Step, UploadTask.Step, ExtractTask.Step, Services.StepCancel, Services.StepCreate,
        Services.StepRetry, Services.StepRemove;
    }

    method GetText() returns (text: string, ending: Option<Ending>)
      requires At(Pos(HandlerPc.ReadText))
      modifies stores
      ensures MovedTo(if ending.Some? then After(ending.value) else Pos(ReadPrompt(text)))
      ensures ending.None? ==> doc in stores.texts && stores.texts[doc] == text && text != ""
      ensures Reports(None) && stores.texts == old(stores.texts)
      ensures ending.None? ==> |stores.calls| == |old(stores.calls)| + 1
    {
      hide UploadRequest.Step, ScanTask.Step, UploadTask.Step, ExtractTask.Step, Services.StepCancel, Services.StepCreate,
        Services.StepRetry, Services.StepRemove;
      text, ending := "", None;
      var o := stores.Read();
      if o.Raise? { return "", Some(Ending.Raised); }
      if doc !in stores.texts || stores.texts[doc] == "" {
        NoTextCall(stores.World());
        hide Step, Follow, Busy;
        var raised := UpdateFields(NoText, Break(Permanent), HandlerPc.Done);
        ending := Some(if raised then Ending.Raised else Returned);
      } else {
        text := stores.texts[doc];
      }
    }

    /** The prompt cache and table decide which version is used; a missing prompt is an error like any other. */
    method GetPrompt(text: string) returns (version: nat, ending: Option<Ending>)
      requires At(Pos(ReadPrompt(text)))
      modifies stores
      ensures MovedTo(if ending.Some? then After(ending.value) else Pos(WriteAnalyzing(text, version)))
      ensures stores.calls != [] && (stores.Latest().Ok? ==> version == stores.Latest().pick)
      ensures ending == if stores.Latest().Raise? then Some(Ending.Raised) else None
      ensures Reports(None) && stores.texts == old(stores.texts) && |stores.calls| == |old(stores.calls)| + 1
    {
      hide UploadRequest.Step, ScanTask.Step, UploadTask.Step, ExtractTask.Step, Services.StepCancel, Services.StepCreate,
        Services.StepRetry, Services.StepRemove;
      version, ending := 0, None;
      var o := stores.Read();
      if o.Raise? { return 0, Some(Ending.Raised); }
      if o.Ok? { version := o.pick; }
    }

    /** Ask the provider; a refusal is not retried. */
    method Analyze(text: string, version: nat) returns (report: Option<Report>, ending: Option<Ending>)
      requires At(Pos(Ask(text, version)))
      modifies stores
      ensures MovedTo(if ending.Some? then After(ending.value)
                      else if report.Some? then Pos(WriteSuccess(report.value)) else Pos(WriteRefused))
      ensures stores.calls != [] && (ending == if stores.Latest().Raise? then Some(Ending.Raised) else None)
      ensures report == if stores.Latest().Raise? || stores.Latest().Refuse? then None else Some(Report(text, version))
      ensures Reports(None) && stores.texts == old(stores.texts)
    {
      hide UploadRequest.Step, ScanTask.Step, UploadTask.Step, ExtractTask.Step, Services.StepCancel, Services.StepCreate,
        Services.StepRetry, Services.StepRemove;
      report, ending := None, None;
      var o := stores.Read();
      if o.Raise? { return None, Some(Ending.Raised); }
      if !o.Refuse? { report := Some(Report(text, version)); }
    }

    method Handle() returns (ending: Ending)
      requires At(Pos(HandlerPc.Start))
      modifies stores
      ensures MovedTo(After(ending))
      ensures Reports(None) || exists text, version ::
        && Reports(Some(Report(text, version))) && doc in stores.texts && stores.texts[doc] == text
        && |stores.calls| > |old(stores.calls)| + 2
        && (stores.calls[|old(stores.calls)| + 2].Ok? ==> stores.calls[|old(stores.calls)| + 2].pick == version)
    {
      hide Step, Follow, Busy, Stores.Valid, Stores.World, Reported;
      ghost var before, rows := stores.analyses.rows, stores.analyses.rows;
      ReportedNone(rows);
      var stop, text, version;
      stop := CheckAnalysis();
      if stop.Some? { return stop.value; }
      ReportedTrans(before, rows, stores.analyses.rows, None);
      rows := stores.analyses.rows;
      text, stop := GetText();
      ReportedTrans(before, rows, stores.analyses.rows, None);
      if stop.Some? { return stop.value; }
      rows := stores.analyses.rows;
      version, stop := GetPrompt(text);
      ReportedTrans(before, rows, stores.analyses.rows, None);
      if stop.Some? { return stop.value; }
      rows := stores.analyses.rows;
      ending := Complete(text, version);
      ReportedTrans(before, rows, stores.analyses.rows, Some(Report(text, version)));
    }

    /** The three status writes of a message that is analysed. */
    lemma WritingCalls(w: World, pc: HandlerPc)
      ensures pc.WriteAnalyzing? ==> Updates(w, pc, Begin, Ask(pc.text, pc.version))
      ensures pc.WriteSuccess? ==> Updates(w, pc, Change.Finish(pc.report), HandlerPc.Done)
      ensures pc.WriteRefused? ==> Updates(w, pc, Break(Permanent), HandlerPc.Done)
    {
      hide UploadRequest.Step, ScanTask.Step, UploadTask.Step, ExtractTask.Step, Services.StepCancel, Services.StepCreate,
        Services.StepRetry, Services.StepRemove;
    }

    method Complete(text: string, version: nat) returns (ending: Ending)
      requires At(Pos(WriteAnalyzing(text, version)))
      modifies stores
      ensures MovedTo(After(ending))
      ensures Reports(Some(Report(text, version))) && stores.texts == old(stores.texts)
    {
      hide Step, Follow, Busy, Consumer.Write;
      WritingCalls(stores.World(), WriteAnalyzing(text, version));
      var raised := UpdateFields(WriteAnalyzing(text, version), Begin, Ask(text, version));
      if raised { return Ending.Raised; }
      var report, stop := Analyze(text, version);
      if stop.Some? { return stop.value; }
      ending := Conclude(report);
    }

    method Conclude(report: Option<Report>) returns (ending: Ending)
      requires At(if report.Some? then Pos(WriteSuccess(report.value)) else Pos(WriteRefused))
      modifies stores
      ensures MovedTo(After(ending))
      ensures Reports(report) && stores.texts == old(stores.texts)
    {
      hide Step, Follow, Busy, Consumer.Write;
      var raised;
      if report.Some? {
        WritingCalls(stores.World(), WriteSuccess(report.value));
        raised := UpdateFields(WriteSuccess(report.value), Change.Finish(report.value), HandlerPc.Done);
      } else {
        WritingCalls(stores.World(), WriteRefused);
        raised := UpdateFields(WriteRefused, Break(Permanent), HandlerPc.Done);
      }
      ending := if raised then Ending.Raised else Returned;
    }

    lemma RecoverCalls(w: World)
      ensures var cfg, p := stores.cfg, Pos(Recover);
        && Reads(cfg, w, p)
        && forall o :: Step(cfg, w, p, o).proc ==
             (if o.Raise? || analysis !in w.analyses.rows || w.analyses.rows[analysis].Terminal()
                 || !Consumer.Matches(w.analyses.rows[analysis], doc, req) then Pos(HandlerPc.Done) else Pos(RecoverWrite))
      ensures var cfg, p := stores.cfg, Pos(RecoverWrite);
        && Writes(cfg, w, p, w.Update(doc, req, Break(Transient)), Lands)
        && forall o :: Step(cfg, w, p, o).proc == Pos(HandlerPc.Done)
    {
      hide UploadRequest.Step, ScanTask.Step, UploadTask.Step, ExtractTask.Step, Services.StepCancel, Services.StepCreate,
        Services.StepRetry, Services.StepRemove;
      hide World.Update;
    }

    /** After the last retry an analysis that is not finished fails; errors on the way are only logged. */
    method OnFinalFailure()
      requires At(Pos(Recover))
      modifies stores
      ensures MovedTo(Pos(HandlerPc.Done))
    {
      hide Step, Reads, Writes, Follow, Busy, World.Update;
      RecoverCalls(stores.World());
      var o := stores.Read();
      if o.Raise? || analysis !in stores.analyses.rows { return; }
      var row := stores.analyses.rows[analysis];
      if row.Terminal() || !(row.doc == doc && row.req == req) { return; }
      RecoverCalls(stores.World());
      o := stores.UpdateAnalysis(doc, req, Break(Transient));
    }

    /** One delivery: acknowledge, record the final failure, or raise so that the broker dead-letters it. */
    method Call() returns (raised: bool)
      requires At(Pos(HandlerPc.Start))
      modifies stores
      ensures raised ==> deliveries < MAX_RETRIES && MovedTo(Handler(doc, analysis, req, HandlerPc.Start, deliveries + 1))
      ensures !raised ==> MovedTo(Pos(HandlerPc.Done))
    {
      hide Step, Follow, Busy;
      raised := false;
      var ending := Handle();
      if ending.Raised? {
        if deliveries >= MAX_RETRIES {
          OnFinalFailure();
        } else {
          raised := true;
        }
      }
    }
  }
}
