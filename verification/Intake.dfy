/** What one upload request does to the tables when nobody interferes: which of the three paths it takes, and the row,
    file and task or message it leaves. */
module Intake {
  import opened Types
  import opened AnalysisTable
  import opened Pipeline
  import opened BaseTask
  import opened Machine
  import opened Stores
  import opened Deliveries
  import ScanTask
  import UploadTask
  import ExtractTask
  import UploadRequest
  import Services
  import Consumer

  lemma RequestStep(cfg: Config, w: World, req: nat, pc: RequestPc, o: Outcome)
    ensures Step(cfg, w, Request(req, pc), o) == UploadRequest.Step(cfg, w, req, pc, o)
  {
  }

  function ArgsOf(w: World, d: nat, req: nat): Args {
    Args(d, req, w.File(req).mime, w.File(req).provider)
  }

  /** Whatever failed before: the file of the request is removed. */
  lemma RequestDiscards(cfg: Config, w: World, req: nat, created: Option<nat>, calls: seq<Outcome>, k: nat, w': World,
                        sent: seq<Proc>)
    requires Delivers(cfg, w, Request(req, Discard(created)), calls, k, w', sent) && Calm(calls, k)
    ensures w' == w.(temps := w.temps - {req}) && sent == []
  {
    hide Step;
    RequestStep(cfg, w, req, Discard(created), calls[k]);
  }

  lemma RequestFails(cfg: Config, w: World, req: nat, d: nat, calls: seq<Outcome>, k: nat, w': World, sent: seq<Proc>)
    requires Delivers(cfg, w, Request(req, MarkFailed(d)), calls, k, w', sent) && Calm(calls, k)
    ensures w' == Closed(w, ArgsOf(w, d, req), Failed) && sent == []
  {
    hide Step;
    RequestStep(cfg, w, req, MarkFailed(d), calls[k]);
    RequestDiscards(cfg, Step(cfg, w, Request(req, MarkFailed(d)), calls[k]).world, req, Some(d), calls, k + 1, w', sent);
  }

  function FirstTask(cfg: Config, args: Args): Proc {
    if cfg.scanning then Scanner(args, ScanPc.Start, 3) else Uploader(args, UploadPc.Start, 3)
  }

  /** The task is in the queue; or, when that raised, the document has failed. */
  ghost predicate Handed(w: World, args: Args, task: Proc, o: Outcome, w': World, sent: seq<Proc>) {
    if o.Raise? then w' == Closed(w, args, Failed) && sent == if o.landed then [task] else []
    else w' == w && sent == [task]
  }

  lemma RequestHandsOn(cfg: Config, w: World, req: nat, pc: RequestPc, calls: seq<Outcome>, k: nat, w': World, sent: seq<Proc>)
    requires Delivers(cfg, w, Request(req, pc), calls, k, w', sent) && Calm(calls, k + 1)
    requires pc.EnqueueFirst? || pc.EnqueueExtract?
    ensures k < |calls|
    ensures var args := ArgsOf(w, pc.doc, req);
      Handed(w, args, if pc.EnqueueFirst? then FirstTask(cfg, args) else Extractor(args, ExtractPc.Start, 3), calls[k], w', sent)
  {
    hide Step, Closed;
    RequestStep(cfg, w, req, pc, calls[k]);
    if calls[k].Raise? {
      RequestFails(cfg, w, req, pc.doc, calls, k + 1, w', if calls[k].landed then sent[1..] else sent);
    }
  }

  lemma RequestPublishes(cfg: Config, w: World, req: nat, d: nat, run: nat, calls: seq<Outcome>, k: nat, w': World,
                         sent: seq<Proc>)
    requires Delivers(cfg, w, Request(req, RequestPc.Publish(d, run)), calls, k, w', sent) && Calm(calls, k + 1)
    ensures k < |calls|
    ensures !calls[k].Raise? ==> w' == w && sent == [Handler(d, run, req, HandlerPc.Start, 0)]
    ensures calls[k].Raise? ==>
      && w' == w.(temps := w.temps - {req}, analyses := Unqueued(w.analyses, d, req))
      && sent == if calls[k].landed then [Handler(d, run, req, HandlerPc.Start, 0)] else []
  {
    hide Step, Unqueued;
    RequestStep(cfg, w, req, RequestPc.Publish(d, run), calls[k]);
    if calls[k].Raise? {
      RequestMarks(cfg, w, req, d, calls, k + 1, w', if calls[k].landed then sent[1..] else sent);
    }
  }

  lemma RequestMarks(cfg: Config, w: World, req: nat, d: nat, calls: seq<Outcome>, k: nat, w': World, sent: seq<Proc>)
    requires Delivers(cfg, w, Request(req, RequestPc.MarkFind(d)), calls, k, w', sent) && Calm(calls, k)
    ensures w' == w.(temps := w.temps - {req}, analyses := Unqueued(w.analyses, d, req)) && sent == []
  {
    hide Step;
    RequestStep(cfg, w, req, RequestPc.MarkFind(d), calls[k]);
    var found := w.analyses.Find(d, req);
    if found.Some? && found.value in w.analyses.rows && w.analyses.rows[found.value].status == Queued {
      RequestFailsQueued(cfg, w, req, d, calls, k + 1, w', sent);
    } else {
      RequestDiscards(cfg, w, req, Some(d), calls, k + 1, w', sent);
    }
  }

  lemma RequestFailsQueued(cfg: Config, w: World, req: nat, d: nat, calls: seq<Outcome>, k: nat, w': World, sent: seq<Proc>)
    requires Delivers(cfg, w, Request(req, RequestPc.MarkWrite(d)), calls, k, w', sent) && Calm(calls, k)
    requires var found := w.analyses.Find(d, req);
      found.Some? && found.value in w.analyses.rows && w.analyses.rows[found.value].status == Queued
    ensures w' == w.(temps := w.temps - {req}, analyses := Unqueued(w.analyses, d, req)) && sent == []
  {
    hide Step;
    RequestStep(cfg, w, req, RequestPc.MarkWrite(d), calls[k]);
    RequestDiscards(cfg, w.(analyses := Unqueued(w.analyses, d, req)), req, Some(d), calls, k + 1, w', sent);
  }

  lemma RequestInserts(cfg: Config, w: World, req: nat, d: nat, calls: seq<Outcome>, k: nat, w': World, sent: seq<Proc>)
    requires Delivers(cfg, w, Request(req, RequestPc.Insert(d)), calls, k, w', sent) && Calm(calls, k)
    requires w.analyses.Find(d, req).None?
    ensures Dispatched(w, d, req, w.File(req).provider, w', sent)
  {
    hide Step;
    RequestStep(cfg, w, req, RequestPc.Insert(d), calls[k]);
    var w1 := w.(analyses := w.analyses.Insert(d, req, w.File(req).provider, None));
    RequestPublishes(cfg, w1, req, d, w.analyses.next, calls, k + 1, w', sent);
  }

  lemma RequestDispatches(cfg: Config, w: World, req: nat, d: nat, calls: seq<Outcome>, k: nat, w': World, sent: seq<Proc>)
    requires Delivers(cfg, w, Request(req, RequestPc.Find(d)), calls, k, w', sent) && Calm(calls, k)
    requires Agreed(w.analyses, d, req, w.File(req).provider)
    ensures Dispatched(w, d, req, w.File(req).provider, w', sent)
  {
    hide Step;
    RequestStep(cfg, w, req, RequestPc.Find(d), calls[k]);
    var found := w.analyses.Find(d, req);
    if found.Some? {
      RequestPublishes(cfg, w, req, d, found.value, calls, k + 1, w', sent);
    } else {
      hide Dispatched;
      RequestInserts(cfg, w, req, d, calls, k + 1, w', sent);
    }
  }

  lemma RequestUnlinks(cfg: Config, w: World, req: nat, d: nat, calls: seq<Outcome>, k: nat, w': World, sent: seq<Proc>)
    requires Delivers(cfg, w, Request(req, RequestPc.Unlink(d)), calls, k, w', sent) && Calm(calls, k)
    requires Agreed(w.analyses, d, req, w.File(req).provider)
    ensures Dispatched(w.(temps := w.temps - {req}), d, req, w.File(req).provider, w', sent)
  {
    hide Step, Dispatched;
    RequestStep(cfg, w, req, RequestPc.Unlink(d), calls[k]);
    RequestDispatches(cfg, w.(temps := w.temps - {req}), req, d, calls, k + 1, w', sent);
  }

  /** The document waits for its extraction after all. */
  ghost function Requeued(w: World, d: nat, req: nat): World
    requires d < |w.docs|
  {
    w.(docs := w.docs[d := w.docs[d].(status := Uploaded, temp := Some(req))])
  }

  lemma RequestDegrades(cfg: Config, w: World, req: nat, d: nat, calls: seq<Outcome>, k: nat, w': World, sent: seq<Proc>)
    requires Delivers(cfg, w, Request(req, RequestPc.Degrade(d)), calls, k, w', sent) && Calm(calls, k) && d < |w.docs|
    ensures w' == Requeued(w, d, req) && sent == [Extractor(ArgsOf(w, d, req), ExtractPc.Start, 3)]
  {
    hide Step;
    RequestStep(cfg, w, req, RequestPc.Degrade(d), calls[k]);
    RequestHandsOn(cfg, Requeued(w, d, req), req, EnqueueExtract(d), calls, k + 1, w', sent);
  }

  /** The text of the duplicate is copied and analysed; a lost connection leads back to extraction. */
  ghost predicate Copied(w: World, d: nat, req: nat, text: string, o: Outcome, w': World, sent: seq<Proc>)
    requires d < |w.docs|
  {
    var w1 := w.(texts := w.texts[d := text]);
    if text == "" then w' == Closed(w, ArgsOf(w, d, req), Failed) && sent == []
    else if o.Disconnect? then
      w' == Requeued(if o.landed then w1 else w, d, req) && sent == [Extractor(ArgsOf(w, d, req), ExtractPc.Start, 3)]
    else Dispatched(w1.(temps := w1.temps - {req}), d, req, w.File(req).provider, w', sent)
  }

  lemma RequestCopies(cfg: Config, w: World, req: nat, d: nat, text: string, calls: seq<Outcome>, k: nat, w': World,
                      sent: seq<Proc>)
    requires Delivers(cfg, w, Request(req, UpsertText(d, text)), calls, k, w', sent) && Calm(calls, k) && d < |w.docs|
    requires Agreed(w.analyses, d, req, w.File(req).provider)
    ensures k < |calls| && Copied(w, d, req, text, calls[k], w', sent)
  {
    hide Step, Dispatched, Closed, Requeued;
    RequestStep(cfg, w, req, UpsertText(d, text), calls[k]);
    var w1 := w.(texts := w.texts[d := text]);
    if text == "" {
      RequestFails(cfg, w, req, d, calls, k + 1, w', sent);
    } else if calls[k].Disconnect? {
      RequestDegrades(cfg, if calls[k].landed then w1 else w, req, d, calls, k + 1, w', sent);
    } else {
      RequestUnlinks(cfg, w1, req, d, calls, k + 1, w', sent);
    }
  }

  /** The row a plan creates. */
  ghost function RowFor(cfg: Config, w: World, req: nat, plan: Plan): Document {
    var file := w.File(req);
    Document(req, cfg.hash(file.bytes), file.mime,
             if plan.Full? then DocumentStatus.Created else if plan.ExtractOnly? then Uploaded else Extracted,
             if plan.Full? then None else Some(plan.key),
             if plan.AnalyseOnly? then None else Some(req))
  }

  /** What a plan leads to; `o` is how the first call after the row was written turns out. */
  ghost predicate Processed(cfg: Config, w: World, req: nat, plan: Plan, o: Outcome, w': World, sent: seq<Proc>) {
    var d, args := |w.docs|, ArgsOf(w, |w.docs|, req);
    var w1 := w.(docs := w.docs + [RowFor(cfg, w, req, plan)]);
    match plan
    case Full => w' == w1 && sent == [FirstTask(cfg, args)]
    case ExtractOnly(_) => w' == w1 && sent == [Extractor(args, ExtractPc.Start, 3)]
    case AnalyseOnly(_, text) => Copied(w1, d, req, text, o, w', sent)
  }

  lemma RequestProcesses(cfg: Config, w: World, req: nat, plan: Plan, calls: seq<Outcome>, k: nat, w': World, sent: seq<Proc>)
    requires Delivers(cfg, w, Request(req, CreateDoc(plan)), calls, k, w', sent) && Calm(calls, k)
    requires Agreed(w.analyses, |w.docs|, req, w.File(req).provider)
    ensures k + 1 < |calls| && Processed(cfg, w, req, plan, calls[k + 1], w', sent)
  {
    hide Step, Copied;
    RequestStep(cfg, w, req, CreateDoc(plan), calls[k]);
    var d, w1 := |w.docs|, w.(docs := w.docs + [RowFor(cfg, w, req, plan)]);
    match plan
    case Full => RequestHandsOn(cfg, w1, req, EnqueueFirst(d), calls, k + 1, w', sent);
    case ExtractOnly(_) => RequestHandsOn(cfg, w1, req, EnqueueExtract(d), calls, k + 1, w', sent);
    case AnalyseOnly(_, text) => RequestCopies(cfg, w1, req, d, text, calls, k + 1, w', sent);
  }

  lemma PickFits(found: seq<Candidate>, texts: map<nat, string>, o: Outcome)
    requires found != []
    ensures var hits := UploadRequest.WithText(found, texts);
      UploadRequest.Fits(
        if o.Disconnect? || hits == [] then ExtractOnly(UploadRequest.Pick(found, o).key)
        else var c := UploadRequest.Pick(hits, o); AnalyseOnly(c.key, if c.doc in texts then texts[c.doc] else ""),
        found, texts, !o.Disconnect?)
  {
    hide UploadRequest.WithText;
    forall c ensures c in UploadRequest.WithText(found, texts) <==> c in found && UploadRequest.HasText(texts, c.doc) {
      UploadRequest.WithTextIff(found, texts, c);
    }
  }

  /** The request follows a plan that is right for the tables it found. */
  ghost predicate Decides(cfg: Config, w: World, req: nat, readable: bool, calls: seq<Outcome>, w': World, sent: seq<Proc>) {
    exists plan, k :: Decided(cfg, w, req, plan, readable, calls, k, w', sent)
  }

  ghost predicate Decided(cfg: Config, w: World, req: nat, plan: Plan, readable: bool, calls: seq<Outcome>, k: nat, w': World,
                          sent: seq<Proc>) {
    && k == (if plan.Full? then 3 else 4) && k < |calls|
    && UploadRequest.Right(plan, w.docs, cfg.hash(w.File(req).bytes), w.texts, readable)
    && Processed(cfg, w, req, plan, calls[k], w', sent)
  }

  lemma RequestLooks(cfg: Config, w: World, req: nat, found: seq<Candidate>, calls: seq<Outcome>, w': World, sent: seq<Proc>)
    requires Delivers(cfg, w, Request(req, Content(found)), calls, 2, w', sent) && Calm(calls, 2) && found != []
    requires forall c :: c in found <==> UploadRequest.Holds(w.docs, cfg.hash(w.File(req).bytes), c.doc, c.key)
    requires Agreed(w.analyses, |w.docs|, req, w.File(req).provider)
    ensures |calls| > 2
    ensures Decides(cfg, w, req, !calls[2].Disconnect?, calls, w', sent)
  {
    hide Step, Processed, UploadRequest.Right, UploadRequest.Fits, UploadRequest.Holds, UploadRequest.WithText, UploadRequest.Pick;
    RequestStep(cfg, w, req, Content(found), calls[2]);
    PickFits(found, w.texts, calls[2]);
    var plan := Step(cfg, w, Request(req, Content(found)), calls[2]).proc.rpc.plan;
    UploadRequest.FitsIsRight(plan, found, w.docs, cfg.hash(w.File(req).bytes), w.texts, !calls[2].Disconnect?);
    RequestProcesses(cfg, w, req, plan, calls, 3, w', sent);
    PlanKind(plan, found, w.texts, !calls[2].Disconnect?);
    assert Decided(cfg, w, req, plan, !calls[2].Disconnect?, calls, 4, w', sent);
  }

  lemma PlanKind(plan: Plan, found: seq<Candidate>, texts: map<nat, string>, readable: bool)
    requires UploadRequest.Fits(plan, found, texts, readable)
    ensures !plan.Full?
  {
  }

  /** The whole request: save the file, find the documents with the same bytes, and do what is right for them. */
  lemma UploadDelivery(cfg: Config, w: World, req: nat, calls: seq<Outcome>, w': World, sent: seq<Proc>)
    requires Delivers(cfg, w, Request(req, Save), calls, 0, w', sent) && Calm(calls, 0)
    requires Agreed(w.analyses, |w.docs|, req, w.File(req).provider)
    ensures |calls| > 2
    ensures Decides(cfg, w.(temps := w.temps[req := w.File(req).bytes]), req, !calls[2].Disconnect?, calls, w', sent)
  {
    hide Step, Decides, UploadRequest.Reusable;
    RequestStep(cfg, w, req, Save, calls[0]);
    RequestSearches(cfg, w.(temps := w.temps[req := w.File(req).bytes]), req, calls, w', sent);
  }

  lemma RequestSearches(cfg: Config, w: World, req: nat, calls: seq<Outcome>, w': World, sent: seq<Proc>)
    requires Delivers(cfg, w, Request(req, Candidates), calls, 1, w', sent) && Calm(calls, 1)
    requires Agreed(w.analyses, |w.docs|, req, w.File(req).provider)
    ensures |calls| > 2
    ensures Decides(cfg, w, req, !calls[2].Disconnect?, calls, w', sent)
  {
    hide Step, Processed, UploadRequest.Reusable, UploadRequest.Right, UploadRequest.Holds;
    var hash := cfg.hash(w.File(req).bytes);
    var found := UploadRequest.Reusable(w.docs, hash);
    forall c: Candidate ensures c in found <==> UploadRequest.Holds(w.docs, hash, c.doc, c.key) {
      UploadRequest.ReusableIff(w.docs, hash, c);
      HoldsMeans(w.docs, hash, c);
    }
    RequestStep(cfg, w, req, Candidates, calls[1]);
    if found == [] {
      RequestProcesses(cfg, w, req, Full, calls, 2, w', sent);
      UploadRequest.FitsIsRight(Full, found, w.docs, hash, w.texts, !calls[2].Disconnect?);
      assert Decided(cfg, w, req, Full, !calls[2].Disconnect?, calls, 3, w', sent);
    } else {
      hide Decides;
      RequestLooks(cfg, w, req, found, calls, w', sent);
    }
  }

  lemma HoldsMeans(docs: seq<Document>, hash: string, c: Candidate)
    ensures UploadRequest.Holds(docs, hash, c.doc, c.key) <==>
      c.doc < |docs| && docs[c.doc].hash == hash && docs[c.doc].key == Some(c.key)
  {
  }

  // --- Calls that raise, and lookups that race ---

  /** A raised call took effect as a whole or not at all. The request ends: before there is a document only the file
      goes, after that the document fails, and once its text is stored it stays. */
  lemma RequestRaises(cfg: Config, w: World, req: nat, pc: RequestPc, o: Outcome)
    requires o.Raise?
    requires pc.Save? || pc.Candidates? || (pc.Content? && pc.found != []) || pc.CreateDoc?
             || (pc.UpsertText? && pc.text != "") || pc.Degrade? || pc.Find? || pc.Insert? || pc.FindAgain?
    ensures var m := Step(cfg, w, Request(req, pc), o);
      && m.spawned.None?
      && Agrees(m.world, if o.landed then Step(cfg, w, Request(req, pc), Ok(0)).world else w)
      && m.proc == Request(req,
           if pc.Save? || pc.Candidates? || pc.Content? then Discard(None)
           else if pc.CreateDoc? then Discard(if o.landed then Some(|w.docs|) else None)
           else if pc.UpsertText? || pc.Degrade? then MarkFailed(pc.doc) else Discard(Some(pc.doc)))
  {
    hide Step, Table.Insert, UploadRequest.NewDocument, UploadRequest.Reusable, UploadRequest.WithText, UploadRequest.Pick;
    RequestStep(cfg, w, req, pc, o);
    RequestStep(cfg, w, req, pc, Ok(0));
  }

  lemma RequestLooksAgain(cfg: Config, w: World, req: nat, d: nat, o: Outcome)
    requires !o.Raise?
    ensures var found, agreed := w.analyses.Find(d, req), Agreed(w.analyses, d, req, w.File(req).provider);
      && (found.Some? ==>
            Step(cfg, w, Request(req, RequestPc.Insert(d)), o) == Move(w, Request(req, RequestPc.FindAgain(d)), None))
      && (found.Some? && !agreed ==>
            Step(cfg, w, Request(req, RequestPc.Find(d)), o) == Move(w, Request(req, Discard(Some(d))), None))
      && Step(cfg, w, Request(req, RequestPc.FindAgain(d)), o) ==
           Move(w, Request(req, if found.Some? && agreed then RequestPc.Publish(d, found.value) else Discard(Some(d))), None)
  {
    hide Step;
    RequestStep(cfg, w, req, RequestPc.Insert(d), o);
    RequestStep(cfg, w, req, RequestPc.Find(d), o);
    RequestStep(cfg, w, req, RequestPc.FindAgain(d), o);
  }
}
