/** What one message or API request does to the tables when nobody interferes, written out like the deliveries of the
    tasks. */
module Answers {
  import opened Types
  import opened AnalysisTable
  import opened Pipeline
  import opened BaseTask
  import opened Machine
  import opened Stores
  import opened Deliveries
  import ScanTask
  import UploadTask
  import ExtractTask
  import UploadRequest
  import Services
  import Consumer

  // --- Messages ---

  lemma MessageStep(cfg: Config, w: World, d: nat, a: nat, req: nat, pc: HandlerPc, n: nat, o: Outcome)
    ensures Step(cfg, w, Handler(d, a, req, pc, n), o) == Consumer.Step(w, d, a, req, pc, n, o)
  {
  }

  /** Analysis `a` is the one of this document and request. */
  ghost predicate Named(t: Table, d: nat, a: nat, req: nat) {
    t.Valid() && a in t.rows && t.rows[a].doc == d && t.rows[a].req == req
  }

  ghost function Saved(w: World, a: nat, row: Analysis): World {
    w.(analyses := w.analyses.(rows := w.analyses.rows[a := row]))
  }

  /** An update by document and request reaches the row of the message. */
  lemma UpdateHits(w: World, d: nat, a: nat, req: nat, change: Change)
    requires Named(w.analyses, d, a, req)
    ensures w.Update(d, req, change) == Saved(w, a, w.analyses.rows[a].With(change))
    ensures Consumer.Updated(w, d, a, req, change) == w.Update(d, req, change)
  {
    hide Analysis.With;
  }

  lemma StaysNamed(w: World, d: nat, a: nat, req: nat, change: Change)
    requires Named(w.analyses, d, a, req)
    ensures Named(w.Update(d, req, change).analyses, d, a, req)
  {
    UpdateValid(w.analyses, d, req, change);
    UpdateRows(w.analyses, d, req, change);
  }

  ghost function Failing(row: Analysis, kind: FailureKind): Analysis {
    row.(status := Broken, failure := Some(kind))
  }

  ghost function Succeeding(row: Analysis, report: Report): Analysis {
    row.(status := Succeeded, failure := None, report := Some(report), prompt := Some(report.prompt))
  }

  /** The writes that end a message. */
  lemma MessageWrites(cfg: Config, w: World, d: nat, a: nat, req: nat, pc: HandlerPc, n: nat, calls: seq<Outcome>, k: nat,
                      w': World, sent: seq<Proc>)
    requires Delivers(cfg, w, Handler(d, a, req, pc, n), calls, k, w', sent) && Calm(calls, k)
    requires Named(w.analyses, d, a, req) && (pc.NoText? || pc.WriteRefused? || pc.WriteSuccess?)
    ensures sent == [] && w' == Saved(w, a,
      if pc.WriteSuccess? then Succeeding(w.analyses.rows[a], pc.report) else Failing(w.analyses.rows[a], Permanent))
  {
    hide Step, Consumer.Updated, World.Update, Named;
    MessageStep(cfg, w, d, a, req, pc, n, calls[k]);
    UpdateHits(w, d, a, req, if pc.WriteSuccess? then Change.Finish(pc.report) else Break(Permanent));
  }

  lemma MessageAsks(cfg: Config, w: World, d: nat, a: nat, req: nat, text: string, version: nat, n: nat, calls: seq<Outcome>,
                    k: nat, w': World, sent: seq<Proc>)
    requires Delivers(cfg, w, Handler(d, a, req, Ask(text, version), n), calls, k, w', sent) && Calm(calls, k)
    requires Named(w.analyses, d, a, req)
    ensures k < |calls| && sent == [] && w' == Saved(w, a,
      if calls[k].Refuse? then Failing(w.analyses.rows[a], Permanent)
      else Succeeding(w.analyses.rows[a], Report(text, version)))
  {
    hide Step, Named, Saved;
    MessageStep(cfg, w, d, a, req, Ask(text, version), n, calls[k]);
    MessageWrites(cfg, w, d, a, req, if calls[k].Refuse? then WriteRefused else WriteSuccess(Report(text, version)), n,
                  calls, k + 1, w', sent);
  }

  lemma MessageBegins(cfg: Config, w: World, d: nat, a: nat, req: nat, text: string, version: nat, n: nat,
                      calls: seq<Outcome>, k: nat, w': World, sent: seq<Proc>)
    requires Delivers(cfg, w, Handler(d, a, req, WriteAnalyzing(text, version), n), calls, k, w', sent) && Calm(calls, k)
    requires Named(w.analyses, d, a, req)
    ensures k + 1 < |calls| && sent == [] && w' == Saved(w, a,
      if calls[k + 1].Refuse? then Failing(w.analyses.rows[a], Permanent)
      else Succeeding(w.analyses.rows[a], Report(text, version)))
  {
    hide Step, Named, Consumer.Updated, World.Update;
    MessageStep(cfg, w, d, a, req, WriteAnalyzing(text, version), n, calls[k]);
    UpdateHits(w, d, a, req, Begin);
    StaysNamed(w, d, a, req, Begin);
    var w1 := w.Update(d, req, Begin);
    MessageAsks(cfg, w1, d, a, req, text, version, n, calls, k + 1, w', sent);
    forall row ensures Saved(w1, a, row) == Saved(w, a, row) {
      assert w1.analyses.rows[a := row] == w.analyses.rows[a := row];
    }
  }

  lemma MessageReads(cfg: Config, w: World, d: nat, a: nat, req: nat, n: nat, calls: seq<Outcome>, k: nat, w': World,
                     sent: seq<Proc>)
    requires Delivers(cfg, w, Handler(d, a, req, HandlerPc.ReadText, n), calls, k, w', sent) && Calm(calls, k)
    requires Named(w.analyses, d, a, req)
    ensures sent == []
    ensures d !in w.texts || w.texts[d] == "" ==> w' == Saved(w, a, Failing(w.analyses.rows[a], Permanent))
    ensures d in w.texts && w.texts[d] != "" ==>
      && k + 3 < |calls|
      && w' == Saved(w, a,
           if calls[k + 3].Refuse? then Failing(w.analyses.rows[a], Permanent)
           else Succeeding(w.analyses.rows[a], Report(w.texts[d], if calls[k + 1].Ok? then calls[k + 1].pick else 0)))
  {
    hide Step, Named, Saved, Failing, Succeeding;
    MessageStep(cfg, w, d, a, req, HandlerPc.ReadText, n, calls[k]);
    if d !in w.texts || w.texts[d] == "" {
      MessageWrites(cfg, w, d, a, req, NoText, n, calls, k + 1, w', sent);
    } else {
      MessageStep(cfg, w, d, a, req, ReadPrompt(w.texts[d]), n, calls[k + 1]);
      var version := if calls[k + 1].Ok? then calls[k + 1].pick else 0;
      MessageBegins(cfg, w, d, a, req, w.texts[d], version, n, calls, k + 2, w', sent);
    }
  }

  /** The whole message: only a matching analysis that is not finished is worked on, with the text of its document and
      the version the prompt lookup returned. */
  lemma MessageDelivery(cfg: Config, w: World, d: nat, a: nat, req: nat, n: nat, calls: seq<Outcome>, w': World,
                        sent: seq<Proc>)
    requires Delivers(cfg, w, Handler(d, a, req, HandlerPc.Start, n), calls, 0, w', sent) && Calm(calls, 0)
    requires w.analyses.Valid()
    ensures sent == []
    ensures a !in w.analyses.rows || w.analyses.rows[a].Terminal() ==> w' == w
    ensures a in w.analyses.rows && !w.analyses.rows[a].Terminal() ==>
      var row := w.analyses.rows[a];
      if !Named(w.analyses, d, a, req) || d !in w.texts || w.texts[d] == "" then w' == Saved(w, a, Failing(row, Permanent))
      else
        && |calls| > 4
        && w' == Saved(w, a,
             if calls[4].Refuse? then Failing(row, Permanent)
             else Succeeding(row, Report(w.texts[d], if calls[2].Ok? then calls[2].pick else 0)))
  {
    hide Step, Saved, Failing, Succeeding, Table.Valid;
    MessageStep(cfg, w, d, a, req, HandlerPc.Start, n, calls[0]);
    if a in w.analyses.rows && !w.analyses.rows[a].Terminal() {
      if Named(w.analyses, d, a, req) {
        MessageReads(cfg, w, d, a, req, n, calls, 1, w', sent);
      } else {
        MessageDrops(cfg, w, d, a, req, n, calls, 1, w', sent);
      }
    }
  }

  lemma MessageDrops(cfg: Config, w: World, d: nat, a: nat, req: nat, n: nat, calls: seq<Outcome>, k: nat, w': World,
                     sent: seq<Proc>)
    requires Delivers(cfg, w, Handler(d, a, req, Corrupt, n), calls, k, w', sent) && Calm(calls, k)
    requires w.analyses.Valid() && a in w.analyses.rows
    ensures sent == [] && w' == Saved(w, a, Failing(w.analyses.rows[a], Permanent))
  {
    hide Step, World.Update, Table.Valid;
    MessageStep(cfg, w, d, a, req, Corrupt, n, calls[k]);
    var row := w.analyses.rows[a];
    UpdateHits(w, row.doc, a, row.req, Break(Permanent));
  }

  /** A raised call of a handler took effect as a whole or not at all; the message comes back, three times at most. */
  lemma MessageRaises(cfg: Config, w: World, d: nat, a: nat, req: nat, pc: HandlerPc, n: nat, o: Outcome)
    requires o.Raise? && !pc.Recover? && !pc.RecoverWrite? && !pc.Done? && (pc.Corrupt? ==> a in w.analyses.rows)
    ensures var m := Step(cfg, w, Handler(d, a, req, pc, n), o);
      && m.proc == (if n >= 3 then Handler(d, a, req, Recover, n) else Handler(d, a, req, HandlerPc.Start, n + 1))
      && AllOrNothing(w, m, Step(cfg, w, Handler(d, a, req, pc, n), Ok(0)), o.landed)
  {
    hide Step, Consumer.Updated, World.Update;
    MessageStep(cfg, w, d, a, req, pc, n, o);
    MessageStep(cfg, w, d, a, req, pc, n, Ok(0));
  }

  lemma MessageMarks(cfg: Config, w: World, d: nat, a: nat, req: nat, n: nat, calls: seq<Outcome>, k: nat, w': World,
                     sent: seq<Proc>)
    requires Delivers(cfg, w, Handler(d, a, req, RecoverWrite, n), calls, k, w', sent) && Calm(calls, k)
    requires Named(w.analyses, d, a, req)
    ensures sent == [] && w' == Saved(w, a, Failing(w.analyses.rows[a], Transient))
  {
    hide Step, World.Update, Named;
    MessageStep(cfg, w, d, a, req, RecoverWrite, n, calls[k]);
    UpdateHits(w, d, a, req, Break(Transient));
  }

  /** After the last delivery an analysis that is not finished fails for a passing reason. */
  lemma MessageFails(cfg: Config, w: World, d: nat, a: nat, req: nat, n: nat, calls: seq<Outcome>, k: nat, w': World,
                     sent: seq<Proc>)
    requires Delivers(cfg, w, Handler(d, a, req, Recover, n), calls, k, w', sent) && Calm(calls, k)
    requires w.analyses.Valid()
    ensures sent == []
    ensures
      if Named(w.analyses, d, a, req) && !w.analyses.rows[a].Terminal()
      then w' == Saved(w, a, Failing(w.analyses.rows[a], Transient)) else w' == w
  {
    hide Step, World.Update, Table.Valid;
    MessageStep(cfg, w, d, a, req, Recover, n, calls[k]);
    if Named(w.analyses, d, a, req) && !w.analyses.rows[a].Terminal() {
      MessageMarks(cfg, w, d, a, req, n, calls, k + 1, w', sent);
    }
  }

  // --- Cancellations ---

  lemma CancelUnlinks(cfg: Config, w: World, d: nat, n: nat, calls: seq<Outcome>, k: nat, w': World, sent: seq<Proc>)
    requires Delivers(cfg, w, Canceller(d, CancelPc.Unlink(n)), calls, k, w', sent) && Calm(calls, k)
    ensures w' == w.(temps := w.temps - {n}) && sent == []
  {
    hide Step;
    CancelStep(cfg, w, d, CancelPc.Unlink(n), calls[k]);
  }

  lemma CancelStep(cfg: Config, w: World, d: nat, pc: CancelPc, o: Outcome)
    ensures Step(cfg, w, Canceller(d, pc), o) == Services.StepCancel(w, d, pc, o)
  {
  }

  lemma CancelWrites(cfg: Config, w: World, d: nat, temp: Option<nat>, calls: seq<Outcome>, k: nat, w': World, sent: seq<Proc>)
    requires Delivers(cfg, w, Canceller(d, CancelPc.Write(temp)), calls, k, w', sent) && Calm(calls, k) && d < |w.docs|
    ensures sent == []
    ensures w' == w.(docs := w.docs[d := w.docs[d].(status := Cancelled, temp := None)],
                     temps := if temp.Some? then w.temps - {temp.value} else w.temps)
  {
    hide Step;
    CancelStep(cfg, w, d, CancelPc.Write(temp), calls[k]);
    if temp.Some? {
      var w1 := w.(docs := w.docs[d := w.docs[d].(status := Cancelled, temp := None)]);
      CancelUnlinks(cfg, w1, d, temp.value, calls, k + 1, w', sent);
    }
  }

  /** A cancellation that raises ends there; an error of the unlink is only logged. */
  lemma CancelRaises(cfg: Config, w: World, d: nat, pc: CancelPc, o: Outcome)
    requires o.Raise?
    ensures var m := Step(cfg, w, Canceller(d, pc), o);
      && m.spawned.None? && m.proc.Ended()
      && Agrees(m.world, if pc.Write? && o.landed then Step(cfg, w, Canceller(d, pc), Ok(0)).world else w)
  {
    hide Step;
    CancelStep(cfg, w, d, pc, o);
    CancelStep(cfg, w, d, pc, Ok(0));
  }

  /** The whole cancellation: the status first, then the file the row named. */
  lemma CancelDelivery(cfg: Config, w: World, d: nat, calls: seq<Outcome>, w': World, sent: seq<Proc>)
    requires Delivers(cfg, w, Canceller(d, CancelPc.Start), calls, 0, w', sent) && Calm(calls, 0)
    ensures sent == []
    ensures w' == if !Active(w, d) then w else
      w.(docs := w.docs[d := w.docs[d].(status := Cancelled, temp := None)],
         temps := if w.docs[d].temp.Some? then w.temps - {w.docs[d].temp.value} else w.temps)
  {
    hide Step;
    CancelStep(cfg, w, d, CancelPc.Start, calls[0]);
    if Active(w, d) { CancelWrites(cfg, w, d, w.docs[d].temp, calls, 1, w', sent); }
  }

  // --- New analyses and retries ---

  function Api(d: nat, req: nat, provider: Provider, parent: Option<nat>, pc: ApiPc): Proc {
    if parent.Some? then Retrier(d, req, parent.value, pc) else Creator(d, req, provider, pc)
  }

  lemma DispatchStep(cfg: Config, w: World, d: nat, req: nat, provider: Provider, parent: Option<nat>, pc: ApiPc, o: Outcome)
    requires pc.Publish? || pc.MarkFind? || pc.MarkWrite?
    ensures var (w', pc', sent) := Services.StepDispatch(w, d, req, pc, o);
      Step(cfg, w, Api(d, req, provider, parent, pc), o) == Move(w', Api(d, req, provider, parent, pc'), sent)
  {
    hide UploadRequest.Step, ScanTask.Step, UploadTask.Step, ExtractTask.Step, Consumer.Step, Services.StepDispatch;
  }

  lemma ReadingStep(cfg: Config, w: World, d: nat, req: nat, provider: Provider, parent: Option<nat>, pc: ApiPc, o: Outcome)
    requires !pc.Publish? && !pc.MarkFind? && !pc.MarkWrite?
    ensures Step(cfg, w, Api(d, req, provider, parent, pc), o) ==
      if parent.Some? then Services.StepRetry(w, d, req, parent.value, pc, o)
      else Services.StepCreate(w, d, req, provider, pc, o)
  {
    hide UploadRequest.Step, ScanTask.Step, UploadTask.Step, ExtractTask.Step, Consumer.Step;
    hide Services.StepCreate, Services.StepRetry;
  }

  lemma ApiPublishes(cfg: Config, w: World, d: nat, req: nat, provider: Provider, parent: Option<nat>, run: nat,
                     calls: seq<Outcome>, k: nat, w': World, sent: seq<Proc>)
    requires Delivers(cfg, w, Api(d, req, provider, parent, ApiPc.Publish(run)), calls, k, w', sent) && Calm(calls, k)
    ensures w' == w && sent == [Handler(d, run, req, HandlerPc.Start, 0)]
  {
    hide Step;
    DispatchStep(cfg, w, d, req, provider, parent, ApiPc.Publish(run), calls[k]);
  }

  lemma ApiFailsQueued(cfg: Config, w: World, d: nat, req: nat, provider: Provider, parent: Option<nat>, run: nat,
                       calls: seq<Outcome>, k: nat, w': World, sent: seq<Proc>)
    requires Delivers(cfg, w, Api(d, req, provider, parent, ApiPc.MarkWrite(run)), calls, k, w', sent) && Calm(calls, k)
    requires var found := w.analyses.Find(d, req);
      found.Some? && found.value in w.analyses.rows && w.analyses.rows[found.value].status == Queued
    ensures w' == w.(analyses := Unqueued(w.analyses, d, req)) && sent == []
  {
    hide Step;
    DispatchStep(cfg, w, d, req, provider, parent, ApiPc.MarkWrite(run), calls[k]);
  }

  lemma ApiMarks(cfg: Config, w: World, d: nat, req: nat, provider: Provider, parent: Option<nat>, run: nat,
                 calls: seq<Outcome>, k: nat, w': World, sent: seq<Proc>)
    requires Delivers(cfg, w, Api(d, req, provider, parent, ApiPc.MarkFind(run)), calls, k, w', sent) && Calm(calls, k)
    ensures w' == w.(analyses := Unqueued(w.analyses, d, req)) && sent == []
  {
    hide Step;
    DispatchStep(cfg, w, d, req, provider, parent, ApiPc.MarkFind(run), calls[k]);
    var found := w.analyses.Find(d, req);
    if found.Some? && found.value in w.analyses.rows && w.analyses.rows[found.value].status == Queued {
      ApiFailsQueued(cfg, w, d, req, provider, parent, run, calls, k + 1, w', sent);
    }
  }

  /** A publish that raises: the analysis fails for a passing reason if it is still queued, even if the message is
      on its way. */
  lemma ApiNotPublished(cfg: Config, w: World, d: nat, req: nat, provider: Provider, parent: Option<nat>, run: nat,
                        calls: seq<Outcome>, k: nat, w': World, sent: seq<Proc>)
    requires Delivers(cfg, w, Api(d, req, provider, parent, ApiPc.Publish(run)), calls, k, w', sent)
    requires k < |calls| && calls[k].Raise? && Calm(calls, k + 1)
    ensures w' == w.(analyses := Unqueued(w.analyses, d, req))
    ensures sent == if calls[k].landed then [Handler(d, run, req, HandlerPc.Start, 0)] else []
  {
    hide Step, Unqueued;
    DispatchStep(cfg, w, d, req, provider, parent, ApiPc.Publish(run), calls[k]);
    ApiMarks(cfg, w, d, req, provider, parent, run, calls, k + 1, w', if calls[k].landed then sent[1..] else sent);
  }

  /** A queued analysis is created and published, unless a unique index refuses it. */
  ghost predicate Created(w: World, d: nat, req: nat, provider: Provider, parent: Option<nat>, w': World, sent: seq<Proc>) {
    if w.analyses.Accepts(d, req, parent) then
      && w' == w.(analyses := w'.analyses)
      && Adds(w.analyses, w'.analyses, Analysis(d, req, provider, Queued, None, None, None, parent))
      && sent == [Handler(d, w.analyses.next, req, HandlerPc.Start, 0)]
    else w' == w && sent == []
  }

  lemma ApiInserts(cfg: Config, w: World, d: nat, req: nat, provider: Provider, parent: Option<nat>, p: Provider,
                   calls: seq<Outcome>, k: nat, w': World, sent: seq<Proc>)
    requires Delivers(cfg, w, Api(d, req, provider, parent, ApiPc.Insert(p)), calls, k, w', sent) && Calm(calls, k)
    ensures Created(w, d, req, p, parent, w', sent)
  {
    hide Step, Table.Accepts;
    ReadingStep(cfg, w, d, req, provider, parent, ApiPc.Insert(p), calls[k]);
    if w.analyses.Accepts(d, req, parent) {
      var w1 := w.(analyses := w.analyses.Insert(d, req, p, parent));
      ApiPublishes(cfg, w1, d, req, provider, parent, w.analyses.next, calls, k + 1, w', sent);
    } else {
      ReadingStep(cfg, w, d, req, provider, parent, ApiPc.FindAgain, calls[k + 1]);
      ApiEnds(cfg, w, d, req, provider, parent, calls, k + 2, w', sent);
    }
  }

  lemma ApiEnds(cfg: Config, w: World, d: nat, req: nat, provider: Provider, parent: Option<nat>, calls: seq<Outcome>, k: nat,
                w': World, sent: seq<Proc>)
    requires Delivers(cfg, w, Api(d, req, provider, parent, ApiPc.Done), calls, k, w', sent)
    ensures w' == w && sent == []
  {
    hide Step;
  }

  /** The document is extracted and has a text that is not empty. */
  ghost predicate Ready(w: World, d: nat) {
    d < |w.docs| && w.docs[d].status == Extracted && d in w.texts && w.texts[d] != ""
  }

  /** The whole request for a new analysis. */
  lemma CreateDelivery(cfg: Config, w: World, d: nat, req: nat, provider: Provider, calls: seq<Outcome>, w': World,
                       sent: seq<Proc>)
    requires Delivers(cfg, w, Creator(d, req, provider, ApiPc.Start), calls, 0, w', sent) && Calm(calls, 0)
    ensures if Ready(w, d) then Created(w, d, req, provider, None, w', sent) else w' == w && sent == []
  {
    hide Step, Created, Services.StepRetry;
    ReadingStep(cfg, w, d, req, provider, None, ApiPc.Start, calls[0]);
    if d < |w.docs| && w.docs[d].status == Extracted {
      ReadingStep(cfg, w, d, req, provider, None, ApiPc.ReadText, calls[1]);
      if Ready(w, d) {
        ApiInserts(cfg, w, d, req, provider, None, provider, calls, 2, w', sent);
      } else {
        ApiEnds(cfg, w, d, req, provider, None, calls, 2, w', sent);
      }
    }
  }

  /** The analysis belongs to the document, failed for a passing reason, and was not repeated yet. */
  ghost predicate Repeatable(t: Table, d: nat, parent: nat) {
    && parent in t.rows && t.rows[parent].doc == d
    && t.rows[parent].status == Broken && t.rows[parent].failure == Some(Transient)
    && forall a <- t.rows :: t.rows[a].retryOf != Some(parent)
  }

  lemma NoChildIff(t: Table, parent: nat)
    requires t.Valid()
    ensures t.FindChild(parent).None? <==> forall a <- t.rows :: t.rows[a].retryOf != Some(parent)
  {
    forall a { LookupsAreExact(t, 0, 0, parent, a); }
  }

  lemma RetryChecks(cfg: Config, w: World, d: nat, req: nat, provider: Provider, parent: nat, calls: seq<Outcome>, k: nat,
                    w': World, sent: seq<Proc>)
    requires Delivers(cfg, w, Api(d, req, provider, Some(parent), ApiPc.Get), calls, k, w', sent) && Calm(calls, k)
    requires w.analyses.Valid()
    ensures if Repeatable(w.analyses, d, parent)
            then Created(w, d, req, w.analyses.rows[parent].provider, Some(parent), w', sent) else w' == w && sent == []
  {
    hide Step, Created, Services.StepCreate, Table.Valid, Table.FindChild;
    NoChildIff(w.analyses, parent);
    ReadingStep(cfg, w, d, req, provider, Some(parent), ApiPc.Get, calls[k]);
    var t := w.analyses;
    if parent in t.rows && t.rows[parent].doc == d && t.rows[parent].Retryable() {
      ReadingStep(cfg, w, d, req, provider, Some(parent), ApiPc.FindChild(t.rows[parent].provider), calls[k + 1]);
      if t.FindChild(parent).None? {
        ApiInserts(cfg, w, d, req, provider, Some(parent), t.rows[parent].provider, calls, k + 2, w', sent);
      } else {
        ApiEnds(cfg, w, d, req, provider, Some(parent), calls, k + 2, w', sent);
      }
    }
  }

  /** The whole retry: one analysis with the document and provider of the one it repeats, if that can be repeated. */
  lemma RetryDelivery(cfg: Config, w: World, d: nat, req: nat, parent: nat, calls: seq<Outcome>, w': World, sent: seq<Proc>)
    requires Delivers(cfg, w, Retrier(d, req, parent, ApiPc.Start), calls, 0, w', sent) && Calm(calls, 0)
    requires w.analyses.Valid()
    ensures if Ready(w, d) && Repeatable(w.analyses, d, parent)
            then Created(w, d, req, w.analyses.rows[parent].provider, Some(parent), w', sent) else w' == w && sent == []
  {
    hide Step, Created, Services.StepCreate, Table.Valid, Repeatable;
    ReadingStep(cfg, w, d, req, Gemini, Some(parent), ApiPc.Start, calls[0]);
    if d < |w.docs| && w.docs[d].status == Extracted {
      ReadingStep(cfg, w, d, req, Gemini, Some(parent), ApiPc.ReadText, calls[1]);
      if Ready(w, d) {
        RetryChecks(cfg, w, d, req, Gemini, parent, calls, 2, w', sent);
      } else {
        ApiEnds(cfg, w, d, req, Gemini, Some(parent), calls, 2, w', sent);
      }
    }
  }

  ghost predicate EndsWhole(w: World, m: Move, ok: Move, landed: bool) {
    m.spawned.None? && m.proc.Ended() && (Agrees(m.world, w) || (landed && Agrees(m.world, ok.world)))
  }

  /** A raised call of a request on an analysis took effect as a whole or not at all, and ends the request; only a
      publish goes on to mark the analysis. */
  lemma ApiRaises(cfg: Config, w: World, d: nat, req: nat, provider: Provider, parent: Option<nat>, pc: ApiPc, o: Outcome)
    requires o.Raise? && !pc.Publish?
    ensures var p := Api(d, req, provider, parent, pc);
      EndsWhole(w, Step(cfg, w, p, o), Step(cfg, w, p, Ok(0)), o.landed)
  {
    hide Step, Services.StepCreate, Services.StepRetry, EndsWhole;
    if pc.MarkFind? || pc.MarkWrite? {
      MarkRaises(cfg, w, d, req, provider, parent, pc, o);
    } else if parent.Some? {
      ReadingStep(cfg, w, d, req, provider, parent, pc, o);
      ReadingStep(cfg, w, d, req, provider, parent, pc, Ok(0));
      RetryRaises(w, d, req, parent.value, pc, o);
    } else {
      ReadingStep(cfg, w, d, req, provider, parent, pc, o);
      ReadingStep(cfg, w, d, req, provider, parent, pc, Ok(0));
      CreateRaises(w, d, req, provider, pc, o);
    }
  }

  lemma MarkRaises(cfg: Config, w: World, d: nat, req: nat, provider: Provider, parent: Option<nat>, pc: ApiPc, o: Outcome)
    requires o.Raise? && (pc.MarkFind? || pc.MarkWrite?)
    ensures var p := Api(d, req, provider, parent, pc);
      EndsWhole(w, Step(cfg, w, p, o), Step(cfg, w, p, Ok(0)), o.landed)
  {
    hide Step, Table.Update;
    DispatchStep(cfg, w, d, req, provider, parent, pc, o);
    DispatchStep(cfg, w, d, req, provider, parent, pc, Ok(0));
  }

  lemma RetryRaises(w: World, d: nat, req: nat, parent: nat, pc: ApiPc, o: Outcome)
    requires o.Raise? && !pc.Publish? && !pc.MarkFind? && !pc.MarkWrite?
    ensures EndsWhole(w, Services.StepRetry(w, d, req, parent, pc, o), Services.StepRetry(w, d, req, parent, pc, Ok(0)), o.landed)
  {
    hide Services.StepDispatch, Table.Insert;
  }

  lemma CreateRaises(w: World, d: nat, req: nat, provider: Provider, pc: ApiPc, o: Outcome)
    requires o.Raise? && !pc.Publish? && !pc.MarkFind? && !pc.MarkWrite?
    ensures EndsWhole(w, Services.StepCreate(w, d, req, provider, pc, o), Services.StepCreate(w, d, req, provider, pc, Ok(0)),
                      o.landed)
  {
    hide Services.StepDispatch, Table.Insert;
  }

  // --- Removals ---

  lemma RemoveStep(cfg: Config, w: World, d: nat, target: nat, pc: RemovePc, o: Outcome)
    ensures Step(cfg, w, Remover(d, target, pc), o) == Services.StepRemove(w, d, target, pc, o)
  {
  }

  lemma RemoveEnds(cfg: Config, w: World, d: nat, target: nat, calls: seq<Outcome>, k: nat, w': World, sent: seq<Proc>)
    requires Delivers(cfg, w, Remover(d, target, RemovePc.Done), calls, k, w', sent)
    ensures w' == w && sent == []
  {
    hide Step;
  }

  lemma RemoveDeletes(cfg: Config, w: World, d: nat, target: nat, calls: seq<Outcome>, k: nat, w': World, sent: seq<Proc>)
    requires Delivers(cfg, w, Remover(d, target, Delete), calls, k, w', sent) && Calm(calls, k) && w.analyses.Valid()
    ensures sent == [] && w' == w.(analyses := w'.analyses)
    ensures w'.analyses.Valid() && w'.analyses.rows == w.analyses.rows - {target} && w'.analyses.next == w.analyses.next
  {
    hide Step, Table.Valid, Table.Delete;
    RemoveStep(cfg, w, d, target, Delete, calls[k]);
    DeleteValid(w.analyses, target);
  }

  /** A finished analysis of the document that nobody repeated. */
  ghost predicate Removable(w: World, d: nat, target: nat) {
    var rows := w.analyses.rows;
    && d < |w.docs|
    && target in rows && rows[target].doc == d && (rows[target].status == Succeeded || rows[target].status == Broken)
    && forall a <- rows :: rows[a].retryOf != Some(target)
  }

  /** The whole removal. */
  lemma RemoveDelivery(cfg: Config, w: World, d: nat, target: nat, calls: seq<Outcome>, w': World, sent: seq<Proc>)
    requires Delivers(cfg, w, Remover(d, target, RemovePc.Start), calls, 0, w', sent) && Calm(calls, 0)
    requires w.analyses.Valid()
    ensures sent == [] && w' == w.(analyses := w'.analyses)
    ensures w'.analyses.rows == w.analyses.rows - if Removable(w, d, target) then {target} else {}
    ensures !Removable(w, d, target) ==> w' == w
  {
    hide Step, Table.Valid, Table.Delete, Table.FindChild;
    RemoveStep(cfg, w, d, target, RemovePc.Start, calls[0]);
    var rows := w.analyses.rows;
    if d < |w.docs| {
      RemoveStep(cfg, w, d, target, RemovePc.Get, calls[1]);
      if target in rows && rows[target].doc == d {
        RemoveChecks(cfg, w, d, target, rows[target].Terminal(), calls, 2, w', sent);
      } else {
        RemoveEnds(cfg, w, d, target, calls, 2, w', sent);
      }
    }
  }

  lemma RemoveChecks(cfg: Config, w: World, d: nat, target: nat, terminal: bool, calls: seq<Outcome>, k: nat, w': World,
                     sent: seq<Proc>)
    requires Delivers(cfg, w, Remover(d, target, RemovePc.FindChild(terminal)), calls, k, w', sent) && Calm(calls, k)
    requires w.analyses.Valid()
    ensures sent == [] && w' == w.(analyses := w'.analyses)
    ensures
      if terminal && forall a <- w.analyses.rows :: w.analyses.rows[a].retryOf != Some(target)
      then w'.analyses.rows == w.analyses.rows - {target} else w' == w
  {
    hide Step, Table.Valid, Table.Delete, Table.FindChild;
    NoChildIff(w.analyses, target);
    RemoveStep(cfg, w, d, target, RemovePc.FindChild(terminal), calls[k]);
    if terminal && w.analyses.FindChild(target).None? {
      RemoveDeletes(cfg, w, d, target, calls, k + 1, w', sent);
    } else {
      RemoveEnds(cfg, w, d, target, calls, k + 1, w', sent);
    }
  }

  lemma RemoveRaises(cfg: Config, w: World, d: nat, target: nat, pc: RemovePc, o: Outcome)
    requires o.Raise?
    ensures var m := Step(cfg, w, Remover(d, target, pc), o);
      && m.spawned.None? && m.proc.Ended()
      && Agrees(m.world, if pc.Delete? && o.landed then Step(cfg, w, Remover(d, target, pc), Ok(0)).world else w)
  {
    hide Step, Table.Delete;
    RemoveStep(cfg, w, d, target, pc, o);
    RemoveStep(cfg, w, d, target, pc, Ok(0));
  }
}
