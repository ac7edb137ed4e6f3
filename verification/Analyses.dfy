/** The API requests on documents and analyses, statement by statement. */
module Analyses {
  import opened Types
  import opened AnalysisTable
  import opened Pipeline
  import opened BaseTask
  import opened Machine
  import opened Stores
  import Consumer
  import UploadRequest
  import ScanTask
  import UploadTask
  import ExtractTask
  import Services

  /** A request for a new analysis of a document, or for a retry of `parent`. */
  class AnalysisService {
    const doc: nat
    const req: nat
    const provider: Provider
    const parent: Option<nat>
    const stores: Stores

    constructor (doc: nat, req: nat, provider: Provider, parent: Option<nat>, stores: Stores)
      ensures this.doc == doc && this.req == req && this.provider == provider && this.parent == parent
      ensures this.stores == stores
    {
      this.doc, this.req, this.provider, this.parent, this.stores := doc, req, provider, parent, stores;
    }

    ghost function Pos(pc: ApiPc): Proc {
      if parent.Some? then Retrier(doc, req, parent.value, pc) else Creator(doc, req, provider, pc)
    }

    ghost predicate At(pc: ApiPc)
      reads stores
    {
      stores.Valid() && stores.pos == Pos(pc)
    }

    twostate predicate MovedTo(pc: ApiPc)
      reads stores
    {
      stores.Continues() && stores.pos == Pos(pc)
    }

    lemma ReadyCalls(w: World)
      ensures var cfg, p := stores.cfg, Pos(ApiPc.Start);
        && Reads(cfg, w, p)
        && forall o :: Step(cfg, w, p, o).proc ==
             Pos(if o.Raise? || doc >= |w.docs| || w.docs[doc].status != Extracted then ApiPc.Done else ApiPc.ReadText)
      ensures var cfg, p := stores.cfg, Pos(ApiPc.ReadText);
        && Reads(cfg, w, p)
        && forall o :: Step(cfg, w, p, o).proc ==
             Pos(if o.Raise? || doc !in w.texts || w.texts[doc] == "" then ApiPc.Done
                 else if parent.Some? then ApiPc.Get else ApiPc.Insert(provider))
    {
      hide Consumer.Step, UploadRequest.Step, ScanTask.Step, UploadTask.Step, ExtractTask.Step;
    }

    /** The document is extracted, and its text is there and not empty. */
    method EnsureReadyForAnalysis() returns (ready: bool)
      requires At(ApiPc.Start)
      modifies stores
      ensures MovedTo(if !ready then ApiPc.Done else if parent.Some? then ApiPc.Get else ApiPc.Insert(provider))
      ensures stores.queue == old(stores.queue)
    {
      hide Step, Reads, Follow, Busy;
      ready := false;
      ReadyCalls(stores.World());
      var o := stores.Read();
      ReadyCalls(stores.World());
      if o.Raise? || doc >= |stores.docs| || stores.docs[doc].status != Extracted { return; }
      o := stores.Read();
      if o.Raise? || doc !in stores.texts || stores.texts[doc] == "" { return; }
      ready := true;
    }

    lemma InsertEffect(w: World, p: Provider, o: Outcome)
      ensures var (w', pc') := Services.StepInsert(w, doc, req, p, parent, o);
        if w.analyses.Accepts(doc, req, parent) then
          && Agrees(w', if Lands(o) then w.(analyses := w.analyses.Insert(doc, req, p, parent)) else w)
          && pc' == if o.Raise? then ApiPc.Done else ApiPc.Publish(w.analyses.next)
        else
          w' == w && pc' == if o.Raise? then ApiPc.Done else ApiPc.FindAgain
    {
      hide Table.Insert, Table.Accepts;
    }

    lemma InsertCall(w: World, p: Provider)
      ensures var cfg, at := stores.cfg, Pos(ApiPc.Insert(p));
        if w.analyses.Accepts(doc, req, parent) then
          && Writes(cfg, w, at, w.(analyses := w.analyses.Insert(doc, req, p, parent)), Lands)
          && forall o :: Step(cfg, w, at, o).proc == Pos(if o.Raise? then ApiPc.Done else ApiPc.Publish(w.analyses.next))
        else
          && Reads(cfg, w, at)
          && forall o :: Step(cfg, w, at, o).proc == Pos(if o.Raise? then ApiPc.Done else ApiPc.FindAgain)
    {
      hide Consumer.Step, UploadRequest.Step, ScanTask.Step, UploadTask.Step, ExtractTask.Step;
      hide Services.StepInsert, Table.Insert, Table.Accepts;
      forall o { InsertEffect(w, p, o); }
    }

    /** Insert the analysis; a unique index that refuses it is a conflict. */
    method CreateAnalysis(p: Provider) returns (run: Option<nat>)
      requires At(ApiPc.Insert(p))
      modifies stores
      ensures MovedTo(if run.Some? then ApiPc.Publish(run.value) else ApiPc.Done)
      ensures stores.queue == old(stores.queue)
    {
      hide Step, Writes, Reads, Follow, Busy, Table.Insert, Table.Accepts;
      InsertCall(stores.World(), p);
      run := None;
      var o;
      if stores.analyses.Accepts(doc, req, parent) {
        var created := stores.analyses.next;
        o := stores.InsertAnalysis(doc, req, p, parent);
        if !o.Raise? { run := Some(created); }
      } else {
        o := stores.Read();
        if !o.Raise? { ReportConflict(); }
      }
    }

    /** Look for the analysis that got there first, to name it in the error. */
    method ReportConflict()
      requires At(ApiPc.FindAgain)
      modifies stores
      ensures MovedTo(ApiPc.Done)
      ensures stores.queue == old(stores.queue)
    {
      hide Consumer.Step, UploadRequest.Step, ScanTask.Step, UploadTask.Step, ExtractTask.Step;
      var _ := stores.Read();
    }

    lemma PublishCall(w: World, run: nat)
      ensures var cfg, at := stores.cfg, Pos(ApiPc.Publish(run));
        && Enqueues(cfg, w, at, Handler(doc, run, req, HandlerPc.Start, 0))
        && forall o :: Step(cfg, w, at, o).proc == Pos(if o.Raise? then ApiPc.MarkFind(run) else ApiPc.Done)
    {
      hide Consumer.Step, UploadRequest.Step, ScanTask.Step, UploadTask.Step, ExtractTask.Step;
    }

    method DispatchAnalysis(run: nat) returns (ok: bool)
      requires At(ApiPc.Publish(run))
      modifies stores
      ensures MovedTo(ApiPc.Done)
      ensures ok <==> !stores.SomeRaised()
      ensures ok ==> stores.queue == old(stores.queue) + [Handler(doc, run, req, HandlerPc.Start, 0)]
    {
      hide Step, Enqueues, Follow, Busy;
      PublishCall(stores.World(), run);
      var o := stores.Enqueue(Handler(doc, run, req, HandlerPc.Start, 0));
      ok := !o.Raise?;
      if !ok {
        MarkDispatchFailed(run);
        assert stores.calls[|old(stores.calls)|] == o;
      }
    }

    lemma MarkCalls(w: World, run: nat)
      ensures var cfg, p, found := stores.cfg, Pos(ApiPc.MarkFind(run)), w.analyses.Find(doc, req);
        && Reads(cfg, w, p)
        && forall o :: Step(cfg, w, p, o).proc == Pos(
             if !o.Raise? && found.Some? && found.value in w.analyses.rows && w.analyses.rows[found.value].status == Queued
             then ApiPc.MarkWrite(run) else ApiPc.Done)
      ensures var cfg, p := stores.cfg, Pos(ApiPc.MarkWrite(run));
        && Writes(cfg, w, p, w.Update(doc, req, Break(Transient)), Lands)
        && forall o :: Step(cfg, w, p, o).proc == Pos(ApiPc.Done)
    {
      hide Consumer.Step, UploadRequest.Step, ScanTask.Step, UploadTask.Step, ExtractTask.Step;
      hide World.Update, Table.Update;
    }

    method MarkDispatchFailed(ghost run: nat)
      requires At(ApiPc.MarkFind(run))
      modifies stores
      ensures MovedTo(ApiPc.Done)
      ensures stores.queue == old(stores.queue)
    {
      hide Step, Writes, Reads, Follow, Busy, World.Update, Table.Update;
      MarkCalls(stores.World(), run);
      var o := stores.Read();
      var found := stores.analyses.Find(doc, req);
      if !o.Raise? && found.Some? && found.value in stores.analyses.rows && stores.analyses.rows[found.value].status == Queued {
        MarkCalls(stores.World(), run);
        o := stores.UpdateAnalysis(doc, req, Break(Transient));
      }
    }

    method CreateAndDispatchAnalysis() returns (ok: bool)
      requires parent.None? && At(ApiPc.Start)
      modifies stores
      ensures MovedTo(ApiPc.Done)
      ensures ok ==> exists run :: stores.queue == old(stores.queue) + [Handler(doc, run, req, HandlerPc.Start, 0)]
      ensures !ok ==> stores.SomeRaised() || stores.queue == old(stores.queue)
    {
      hide Step, Follow, Busy;
      ok := EnsureReadyForAnalysis();
      if !ok { return; }
      var run := CreateAnalysis(provider);
      if run.None? { return false; }
      ok := DispatchAnalysis(run.value);
    }

    /** The analysis to repeat: it belongs to the document and failed for a passing reason. */
    method GetRetryable() returns (found: Option<Provider>)
      requires parent.Some? && At(ApiPc.Get)
      modifies stores
      ensures MovedTo(if found.Some? then ApiPc.FindChild(found.value) else ApiPc.Done)
      ensures stores.queue == old(stores.queue)
    {
      hide Consumer.Step, UploadRequest.Step, ScanTask.Step, UploadTask.Step, ExtractTask.Step;
      found := None;
      var o := stores.Read();
      if o.Raise? || parent.value !in stores.analyses.rows { return; }
      var row := stores.analyses.rows[parent.value];
      if row.doc != doc || !row.Retryable() { return; }
      found := Some(row.provider);
    }

    method HasChild(ghost p: Provider) returns (child: bool)
      requires parent.Some? && At(ApiPc.FindChild(p))
      modifies stores
      ensures MovedTo(if child then ApiPc.Done else ApiPc.Insert(p))
      ensures stores.queue == old(stores.queue)
    {
      hide Consumer.Step, UploadRequest.Step, ScanTask.Step, UploadTask.Step, ExtractTask.Step;
      var o := stores.Read();
      child := o.Raise? || stores.analyses.FindChild(parent.value).Some?;
    }

    method RetryAnalysis() returns (ok: bool)
      requires parent.Some? && At(ApiPc.Start)
      modifies stores
      ensures MovedTo(ApiPc.Done)
      ensures ok ==> exists run :: stores.queue == old(stores.queue) + [Handler(doc, run, req, HandlerPc.Start, 0)]
      ensures !ok ==> stores.SomeRaised() || stores.queue == old(stores.queue)
    {
      hide Step, Follow, Busy;
      ok := EnsureReadyForAnalysis();
      if !ok { return; }
      ok := false;
      var found := GetRetryable();
      if found.None? { return; }
      var child := HasChild(found.value);
      if child { return; }
      var run := CreateAnalysis(found.value);
      if run.None? { return; }
      ok := DispatchAnalysis(run.value);
    }
  }

  class Removal {
    const doc: nat
    const target: nat
    const stores: Stores

    constructor (doc: nat, target: nat, stores: Stores)
      ensures this.doc == doc && this.target == target && this.stores == stores
    {
      this.doc, this.target, this.stores := doc, target, stores;
    }

    ghost predicate Removable()
      reads stores
    {
      var t := stores.analyses;
      && doc < |stores.docs|
      && target in t.rows && t.rows[target].doc == doc && t.rows[target].Terminal()
      && t.FindChild(target).None?
    }

    /** Remove a finished analysis that was not retried. */
    method RemoveAnalysis() returns (ok: bool)
      requires stores.Valid() && stores.pos == Remover(doc, target, RemovePc.Start)
      modifies stores
      ensures stores.Continues() && stores.pos == Remover(doc, target, RemovePc.Done)
      ensures ok ==> target !in stores.analyses.rows && old(Removable())
      ensures !ok ==> stores.SomeRaised() || (stores.analyses == old(stores.analyses) && !old(Removable()))
    {
      hide Consumer.Step, UploadRequest.Step, ScanTask.Step, UploadTask.Step, ExtractTask.Step;
      ok := false;
      var o := stores.Read();
      if o.Raise? || doc >= |stores.docs| { return; }
      o := stores.Read();
      if o.Raise? || target !in stores.analyses.rows || stores.analyses.rows[target].doc != doc { return; }
      var terminal := stores.analyses.rows[target].Terminal();
      ok := RemoveUnlessRetried(terminal);
    }

    method RemoveUnlessRetried(terminal: bool) returns (ok: bool)
      requires stores.Valid() && stores.pos == Remover(doc, target, RemovePc.FindChild(terminal))
      modifies stores
      ensures stores.Continues() && stores.pos == Remover(doc, target, RemovePc.Done)
      ensures ok ==> target !in stores.analyses.rows && old(stores.analyses.FindChild(target)).None? && terminal
      ensures !ok ==>
        || stores.SomeRaised()
        || (stores.analyses == old(stores.analyses) && (old(stores.analyses.FindChild(target)).Some? || !terminal))
    {
      hide Step, Reads, Writes, Follow, Busy, Table.Delete;
      ok := false;
      ChildCalls(stores.World(), terminal);
      var o := stores.Read();
      assert stores.Latest() == o;
      if o.Raise? || stores.analyses.FindChild(target).Some? || !terminal { return; }
      ChildCalls(stores.World(), terminal);
      o := stores.DeleteAnalysis(target);
      ok := !o.Raise?;
      assert stores.Latest() == o;
      DeletedIsGone(old(stores.analyses));
    }

    lemma DeletedIsGone(t: Table)
      ensures target !in t.Delete(target).rows
    {
    }

    lemma ChildCalls(w: World, terminal: bool)
      ensures var cfg, p := stores.cfg, Remover(doc, target, RemovePc.FindChild(terminal));
        && Reads(cfg, w, p)
        && forall o :: Step(cfg, w, p, o).proc ==
             Remover(doc, target, if o.Raise? || w.analyses.FindChild(target).Some? || !terminal then RemovePc.Done else Delete)
      ensures var cfg, p := stores.cfg, Remover(doc, target, Delete);
        && Writes(cfg, w, p, w.(analyses := w.analyses.Delete(target)), Lands)
        && forall o :: Step(cfg, w, p, o).proc == Remover(doc, target, RemovePc.Done)
    {
      hide Consumer.Step, UploadRequest.Step, ScanTask.Step, UploadTask.Step, ExtractTask.Step;
      hide Services.StepCancel, Services.StepCreate, Services.StepRetry, Table.Delete;
    }
  }

  class DocumentService {
    const doc: nat
    const stores: Stores

    constructor (doc: nat, stores: Stores)
      ensures this.doc == doc && this.stores == stores
    {
      this.doc, this.stores := doc, stores;
    }

    /** Write the status, then remove the temp file the row named before. */
    method CancelDocumentProcessing() returns (ok: bool)
      requires stores.Valid() && stores.pos == Canceller(doc, CancelPc.Start)
      modifies stores
      ensures stores.Continues() && stores.pos == Canceller(doc, CancelPc.Done)
      ensures ok ==> !old(Stopped(stores.World(), doc))
      ensures ok ==> stores.docs == old(stores.docs)[doc := old(stores.docs)[doc].(status := Cancelled, temp := None)]
      ensures !ok ==> stores.SomeRaised() || (stores.docs == old(stores.docs) && old(Stopped(stores.World(), doc)))
    {
      hide Consumer.Step, UploadRequest.Step, ScanTask.Step, UploadTask.Step, ExtractTask.Step;
      ok := false;
      var o := stores.Read();
      if o.Raise? || doc >= |stores.docs| || stores.docs[doc].status == Cancelled { return; }
      ok := WriteCancelled(stores.docs[doc].temp);
    }

    method WriteCancelled(temp: Option<nat>) returns (ok: bool)
      requires stores.Valid() && stores.pos == Canceller(doc, CancelPc.Write(temp))
      modifies stores
      ensures stores.Continues() && stores.pos == Canceller(doc, CancelPc.Done)
      ensures ok && doc < |old(stores.docs)| ==>
        stores.docs == old(stores.docs)[doc := old(stores.docs)[doc].(status := Cancelled, temp := None)]
      ensures !ok ==> stores.SomeRaised()
    {
      hide Step, Unlinks, Writes, Follow, Busy;
      CancelCalls(stores.World(), temp);
      var o := stores.Finish(doc, Cancelled);
      ok := !o.Raise?;
      assert stores.Latest() == o;
      if ok && temp.Some? {
        CancelCalls(stores.World(), temp);
        var _ := stores.Unlink(temp.value);
      }
    }

    lemma CancelCalls(w: World, temp: Option<nat>)
      ensures var cfg, p := stores.cfg, Canceller(doc, CancelPc.Write(temp));
        && Writes(cfg, w, p, w.Finish(doc, Cancelled), Lands)
        && forall o :: Step(cfg, w, p, o).proc ==
             Canceller(doc, if o.Raise? || temp.None? then CancelPc.Done else CancelPc.Unlink(temp.value))
      ensures temp.Some? ==>
        var cfg, p := stores.cfg, Canceller(doc, CancelPc.Unlink(temp.value));
        Unlinks(cfg, w, p, temp.value) && forall o :: Step(cfg, w, p, o).proc == Canceller(doc, CancelPc.Done)
    {
      hide Consumer.Step, UploadRequest.Step, ScanTask.Step, UploadTask.Step, ExtractTask.Step;
      hide Services.StepCreate, Services.StepRetry, Services.StepRemove, World.Finish;
    }
  }
}
