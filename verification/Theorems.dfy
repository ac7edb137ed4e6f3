/** The promises of the pipeline, for every run that starts with empty tables. */
module Theorems {
  import opened Types
  import opened AnalysisTable
  import opened Pipeline
  import opened Machine
  import opened Invariant
  import opened Writes
  import opened Safety
  import opened Runs
  import opened Progress
  import opened Termination
  import opened Idempotence
  import opened Histories
  import opened Rules
  import opened TableWrites
  import opened Finality
  import opened Retries
  import opened TempRuns
  import opened Leaks
  import opened Sessions
  import Temps
  import Gate
  import Versions

  ghost function From(cfg: Config, es: seq<Event>): System
    requires Feasible(cfg, EMPTY_SYSTEM, es)
  {
    Run(cfg, EMPTY_SYSTEM, es)
  }

  lemma EmptySystem(cfg: Config)
    ensures Safe(cfg, EMPTY_SYSTEM) && Numbered(EMPTY_SYSTEM) && Live(EMPTY_SYSTEM) && Owned(EMPTY_SYSTEM)
    ensures Final(EMPTY_SYSTEM) && Kin(EMPTY_SYSTEM) && Tidy(EMPTY_SYSTEM)
  {
    assert forall n :: Temps.Clear(EMPTY_WORLD, n);
  }

  // --- Every interleaving ---

  /** The text stored for a document, extracted or copied, is what extraction gives for the bytes uploaded with
      that document and the type they were accepted under; it never changes. */
  lemma StoredTextIsOwnText(cfg: Config, es: seq<Event>, d: nat)
    requires cfg.CollisionFree() && Feasible(cfg, EMPTY_SYSTEM, es) && d in From(cfg, es).world.texts
    ensures var w := From(cfg, es).world;
      && d < |w.docs| && w.docs[d].req in w.uploads
      && var file := w.uploads[w.docs[d].req];
         Some(w.texts[d]) == cfg.extract(file.bytes, file.mime) && w.docs[d].hash == cfg.hash(file.bytes)
  {
    hide ProcOk, Grows;
    EmptySystem(cfg);
    RunIsSafe(cfg, EMPTY_SYSTEM, es);
  }

  /** A document that names an object has one, with exactly the bytes uploaded for that document; so do its temp
      file and the object. A status that promises a stored object comes with a key. */
  lemma StorageAgreesWithUploads(cfg: Config, es: seq<Event>, d: nat)
    requires cfg.CollisionFree() && Feasible(cfg, EMPTY_SYSTEM, es) && d < |From(cfg, es).world.docs|
    ensures var w := From(cfg, es).world; var doc := w.docs[d];
      && doc.req in w.uploads && doc.hash == cfg.hash(w.uploads[doc.req].bytes)
      && (doc.key.Some? ==> doc.key.value in w.objects && w.objects[doc.key.value] == w.uploads[doc.req].bytes)
      && (doc.req in w.temps ==> w.temps[doc.req] == w.uploads[doc.req].bytes)
      && (doc.status.Uploaded? || doc.status.Extracting? || doc.status.Extracted? ==> doc.key.Some?)
  {
    hide ProcOk, Grows;
    EmptySystem(cfg);
    RunIsSafe(cfg, EMPTY_SYSTEM, es);
    var w := From(cfg, es).world;
    assert DocOk(cfg, w.uploads, w.objects, w.docs[d]);
  }

  /** Objects keep their bytes, texts stay, keys are never cleared: no retry, duplicate or ambiguous failure
      overwrites them. */
  lemma NothingStoredIsLost(cfg: Config, es: seq<Event>, more: seq<Event>)
    requires cfg.CollisionFree() && Feasible(cfg, EMPTY_SYSTEM, es) && Feasible(cfg, From(cfg, es), more)
    ensures var w, w' := From(cfg, es).world, Run(cfg, From(cfg, es), more).world;
      && (forall k <- w.objects :: k in w'.objects && w'.objects[k] == w.objects[k])
      && (forall d <- w.texts :: d in w'.texts && w'.texts[d] == w.texts[d])
      && |w.docs| <= |w'.docs|
      && (forall d :: 0 <= d < |w.docs| && w.docs[d].key.Some? ==> w'.docs[d].key.Some?)
  {
    hide WorldOk, ProcOk;
    EmptySystem(cfg);
    RunIsSafe(cfg, EMPTY_SYSTEM, es);
    RunIsSafe(cfg, From(cfg, es), more);
  }

  /** The error for a missing file and a missing key is unreachable: an extraction that has to restore its file
      always has the key of an object that holds it. */
  lemma RestoreHasKey(cfg: Config, es: seq<Event>, i: nat)
    requires cfg.CollisionFree() && Feasible(cfg, EMPTY_SYSTEM, es) && i < |From(cfg, es).procs|
    requires var p := From(cfg, es).procs[i]; p.Extractor? && p.epc.Restore?
    ensures var s := From(cfg, es);
      s.procs[i].epc.key.Some? && s.procs[i].epc.key.value in s.world.objects
  {
    hide WorldOk, Grows, Run;
    EmptySystem(cfg);
    RunIsSafe(cfg, EMPTY_SYSTEM, es);
    assert ProcOk(cfg, From(cfg, es).world, From(cfg, es).procs[i]);
  }

  /** With scanning on and fail-closed, the bytes of every stored object were scanned and found clean. */
  lemma StoredObjectsWereScanned(cfg: Config, es: seq<Event>, k: nat)
    requires cfg.CollisionFree() && cfg.Gated() && Feasible(cfg, EMPTY_SYSTEM, es)
    requires k in From(cfg, es).world.objects
    ensures ScannedClean(cfg, EMPTY_SYSTEM, es, From(cfg, es).world.objects[k])
  {
    hide ProcOk, Grows, Step;
    EmptySystem(cfg);
    RunIsSafe(cfg, EMPTY_SYSTEM, es);
    CleanMeansScanned(cfg, EMPTY_SYSTEM, es, From(cfg, es).world.objects[k]);
  }

  /** With scanning on, and whatever an unavailable scanner means: every stored object was the file of a scan of its
      own request that did not raise and did not answer `infected`. */
  lemma StoredObjectsPassedAScan(cfg: Config, es: seq<Event>, k: nat)
    requires cfg.CollisionFree() && cfg.scanning && Feasible(cfg, EMPTY_SYSTEM, es)
    requires k in From(cfg, es).world.objects
    ensures Gate.Pass(k, From(cfg, es).world.objects[k]) in Gate.Passes(cfg, EMPTY_SYSTEM, es)
  {
    hide ProcOk, Grows, Step, Gate.Gated, Gate.Passes;
    EmptySystem(cfg);
    RunIsSafe(cfg, EMPTY_SYSTEM, es);
    assert Gate.Origins(EMPTY_SYSTEM) && Gate.AllGated({}, EMPTY_SYSTEM);
    Gate.RunIsGated(cfg, {}, EMPTY_SYSTEM, es);
    assert {} + Gate.Passes(cfg, EMPTY_SYSTEM, es) == Gate.Passes(cfg, EMPTY_SYSTEM, es);
  }

  /** The prompt version recorded with a result is one that a prompt lookup of a handler of this document and
      request returned. */
  lemma ResultsNameTheirPrompt(cfg: Config, es: seq<Event>, a: nat)
    requires cfg.CollisionFree() && Feasible(cfg, EMPTY_SYSTEM, es) && a in From(cfg, es).world.analyses.rows
    requires From(cfg, es).world.analyses.rows[a].report.Some?
    ensures var row := From(cfg, es).world.analyses.rows[a];
      Versions.Lookup(row.doc, row.req, row.report.value.prompt) in Versions.Lookups(cfg, EMPTY_SYSTEM, es)
  {
    hide Step, Safe, Versions.ProcTraced, Versions.Lookups;
    EmptySystem(cfg);
    assert Versions.Traced({}, EMPTY_SYSTEM);
    Versions.RunIsTraced(cfg, {}, EMPTY_SYSTEM, es);
    assert {} + Versions.Lookups(cfg, EMPTY_SYSTEM, es) == Versions.Lookups(cfg, EMPTY_SYSTEM, es);
  }

  /** Every analysis belongs to a document with a stored text, its result was computed from that text, and it has
      the document and provider of the analysis it repeats; repeats point backwards, and no two repeat the same. */
  lemma AnalysesBelong(cfg: Config, es: seq<Event>, a: nat)
    requires cfg.CollisionFree() && Feasible(cfg, EMPTY_SYSTEM, es) && a in From(cfg, es).world.analyses.rows
    ensures var w := From(cfg, es).world; var rows := w.analyses.rows;
      && rows[a].doc in w.texts
      && (rows[a].report.Some? ==> rows[a].report.value.text == w.texts[rows[a].doc])
      && (forall p :: rows[a].retryOf == Some(p) ==>
            && p < a
            && (p in rows ==> rows[p].doc == rows[a].doc && rows[p].provider == rows[a].provider)
            && (forall b <- rows :: rows[b].retryOf == Some(p) ==> b == a))
  {
    hide ProcOk, Grows, DocsOk, BytesOk, UploadsOk, GateOk, TextsOk;
    EmptySystem(cfg);
    RunIsSafe(cfg, EMPTY_SYSTEM, es);
  }

  /** A handler reports a missing text only for a document whose extracted text is empty. */
  lemma MissingTextIsEmptyText(cfg: Config, es: seq<Event>, i: nat)
    requires cfg.CollisionFree() && Feasible(cfg, EMPTY_SYSTEM, es) && i < |From(cfg, es).procs|
    requires var p := From(cfg, es).procs[i]; p.Handler? && p.hpc.NoText?
    ensures var s := From(cfg, es); var d := s.procs[i].target;
      && d in s.world.texts && s.world.texts[d] == ""
      && d < |s.world.docs| && s.world.docs[d].req in s.world.uploads
      && var file := s.world.uploads[s.world.docs[d].req]; cfg.extract(file.bytes, file.mime) == Some("")
  {
    hide WorldOk, Grows, Run;
    EmptySystem(cfg);
    RunIsSafe(cfg, EMPTY_SYSTEM, es);
    assert ProcOk(cfg, From(cfg, es).world, From(cfg, es).procs[i]);
    StoredTextIsOwnText(cfg, es, From(cfg, es).procs[i].target);
  }

  // --- Nothing gets stuck ---

  /** At every moment a document that is not finished and was not given up is in the hands of a request or task
      that is strong enough for its status. */
  lemma UnfinishedDocumentsAreHeld(cfg: Config, es: seq<Event>, d: nat)
    requires cfg.CollisionFree() && Feasible(cfg, EMPTY_SYSTEM, es) && !GaveUpDoc(cfg, EMPTY_SYSTEM, es, d)
    requires d < |From(cfg, es).world.docs| && Need(From(cfg, es).world.docs[d].status) > 0
    ensures var s := From(cfg, es);
      exists i :: 0 <= i < |s.procs| && !s.procs[i].Ended() && s.procs[i].Doc() == Some(d)
                  && Covers(s.procs[i], d) >= Need(s.world.docs[d].status)
  {
    hide Safe, Covers, Run, RunHeld, GaveUpDoc, GaveUpRun;
    EmptySystem(cfg);
    RunKeepsLive(cfg, EMPTY_SYSTEM, es);
    LostIsGivenUp(cfg, EMPTY_SYSTEM, es);
    var s := From(cfg, es);
    assert DocHeld(s, d);
    var i :| 0 <= i < |s.procs| && DocCovered(s.world, d, Covers(s.procs[i], d));
    CoverMeans(s.procs[i], d);
  }

  lemma CoverMeans(p: Proc, d: nat)
    requires Covers(p, d) > 0
    ensures !p.Ended() && p.Doc() == Some(d) && (p.IsTask() || p.Request?)
  {
  }

  /** An extraction that finds the object not stored yet may drop out: another process will store it or record
      the failure. */
  lemma DroppingAnExtractionIsSafe(cfg: Config, es: seq<Event>, i: nat)
    requires cfg.CollisionFree() && Feasible(cfg, EMPTY_SYSTEM, es)
    requires i < |From(cfg, es).procs| && From(cfg, es).procs[i].Extractor? && From(cfg, es).procs[i].epc.Start?
    requires var d := From(cfg, es).procs[i].args.doc;
      && d < |From(cfg, es).world.docs| && Temps.Unstored(From(cfg, es).world.docs[d].status)
      && !GaveUpDoc(cfg, EMPTY_SYSTEM, es, d)
    ensures var s := From(cfg, es);
      exists j :: 0 <= j < |s.procs| && j != i && !s.procs[j].Ended()
                  && s.procs[j].Doc() == s.procs[i].Doc() && Covers(s.procs[j], s.procs[i].args.doc) == 2
  {
    hide Run, GaveUpDoc;
    var s := From(cfg, es);
    var d := s.procs[i].args.doc;
    UnfinishedDocumentsAreHeld(cfg, es, d);
    var j :| 0 <= j < |s.procs| && !s.procs[j].Ended() && s.procs[j].Doc() == Some(d)
             && Covers(s.procs[j], d) >= Need(s.world.docs[d].status);
  }

  ghost predicate Finished(status: DocumentStatus) {
    status.Extracted? || status.Infected? || status.Failed? || status.Cancelled?
  }

  /** With nothing pending, a document has come to its end unless a call of the run gave it up. */
  lemma NoDocumentIsStuck(cfg: Config, es: seq<Event>, d: nat)
    requires cfg.CollisionFree() && Feasible(cfg, EMPTY_SYSTEM, es) && !GaveUpDoc(cfg, EMPTY_SYSTEM, es, d)
    requires Quiescent(From(cfg, es)) && d < |From(cfg, es).world.docs|
    ensures Finished(From(cfg, es).world.docs[d].status)
  {
    hide Safe, Live, GaveUpDoc, GaveUpRun;
    EmptySystem(cfg);
    RunKeepsLive(cfg, EMPTY_SYSTEM, es);
    LostIsGivenUp(cfg, EMPTY_SYSTEM, es);
    QuiescentIsFinished(From(cfg, es));
  }

  /** The analysis of an upload whose document came to a bad end, or was given up, stays queued. */
  ghost predicate Waits(cfg: Config, es: seq<Event>, a: nat)
    requires Feasible(cfg, EMPTY_SYSTEM, es) && a in From(cfg, es).world.analyses.rows
  {
    var w := From(cfg, es).world;
    var row := w.analyses.rows[a];
    && row.status == Queued && OfUpload(w.docs, row)
    && (w.docs[row.doc].status.Bad() || GaveUpDoc(cfg, EMPTY_SYSTEM, es, row.doc))
  }

  /** With nothing pending, an analysis is finished, or waits for a document that will not be extracted, unless a
      call of the run gave it up. */
  lemma NoAnalysisIsStuck(cfg: Config, es: seq<Event>, a: nat)
    requires cfg.CollisionFree() && Feasible(cfg, EMPTY_SYSTEM, es) && !GaveUpRun(cfg, EMPTY_SYSTEM, es, a)
    requires Quiescent(From(cfg, es)) && a in From(cfg, es).world.analyses.rows
    ensures From(cfg, es).world.analyses.rows[a].Terminal() || Waits(cfg, es, a)
  {
    hide Safe, Live, GaveUpDoc, GaveUpRun;
    EmptySystem(cfg);
    RunKeepsLive(cfg, EMPTY_SYSTEM, es);
    LostIsGivenUp(cfg, EMPTY_SYSTEM, es);
    QuiescentIsFinished(From(cfg, es));
  }

  /** At every moment an analysis that is not finished and was not given up is in somebody's hands: a process has
      yet to publish it, a message for it is queued or handled, an extraction will dispatch it, or its document has
      no text yet. */
  lemma UnfinishedAnalysesAreHeld(cfg: Config, es: seq<Event>, a: nat)
    requires cfg.CollisionFree() && Feasible(cfg, EMPTY_SYSTEM, es) && !GaveUpRun(cfg, EMPTY_SYSTEM, es, a)
    requires a in From(cfg, es).world.analyses.rows && !From(cfg, es).world.analyses.rows[a].Terminal()
    ensures var s := From(cfg, es); var w := s.world; var row := w.analyses.rows[a];
      || (row.status == Queued && OfUpload(w.docs, row) && w.docs[row.doc].status != Extracted)
      || exists i :: 0 <= i < |s.procs| && !s.procs[i].Ended() && Works(w.docs, s.procs[i], a, row)
  {
    hide Safe, Run, GaveUpDoc, GaveUpRun, Works, DocHeld;
    EmptySystem(cfg);
    RunKeepsLive(cfg, EMPTY_SYSTEM, es);
    LostIsGivenUp(cfg, EMPTY_SYSTEM, es);
    var s := From(cfg, es);
    var row := s.world.analyses.rows[a];
    assert RunHeld(s, a);
    if !Settled(s.world.docs, s.world.lostRuns, a, row) {
      var i :| 0 <= i < |s.procs| && Works(s.world.docs, s.procs[i], a, row);
      if s.procs[i].Ended() { NobodyHolds(s.procs[i], s.world.docs, 0, a, row); }
    }
  }

  lemma OkKeepsDocs(cfg: Config, w: World, p: Proc)
    ensures Step(cfg, w, p, Ok(0)).world.lostDocs == w.lostDocs
  {
    hide Step;
    if p.Handler? && p.hpc.Corrupt? {
      CorruptKeepsDocs(cfg, w, p);
    } else {
      StepRecorded(cfg, w, p, Ok(0));
    }
  }

  lemma CorruptKeepsDocs(cfg: Config, w: World, p: Proc)
    requires p.Handler? && p.hpc.Corrupt?
    ensures Step(cfg, w, p, Ok(0)).world.lostDocs == w.lostDocs
  {
  }

  /** From every state the pending calls can be made until none is left, whatever they return, without giving up a
      document; and no run can make more calls than the measure allows. */
  lemma {:induction false} EveryRunEnds(cfg: Config, s: System) returns (more: seq<Event>)
    ensures Feasible(cfg, s, more) && Quiescent(Run(cfg, s, more))
    ensures Calls(more) == |more| <= Total(s.procs)
    ensures Run(cfg, s, more).world.lostDocs == s.world.lostDocs
    decreases Total(s.procs)
  {
    hide Step;
    if i :| 0 <= i < |s.procs| && !s.procs[i].Ended() {
      var e := Act(i, Ok(0));
      ApplyLowers(cfg, s, e);
      OkKeepsDocs(cfg, s.world, s.procs[i]);
      var rest := EveryRunEnds(cfg, Apply(cfg, s, e));
      more := [e] + rest;
      assert more[1..] == rest;
    } else {
      more := [];
    }
  }

  /** So from wherever a run has got to, the pipeline can come to rest with every document finished that was not
      given up so far, and with every analysis finished, waiting, or given up. */
  lemma EverythingFinishes(cfg: Config, es: seq<Event>) returns (more: seq<Event>)
    requires cfg.CollisionFree() && Feasible(cfg, EMPTY_SYSTEM, es)
    ensures Feasible(cfg, EMPTY_SYSTEM, es + more) && Quiescent(From(cfg, es + more))
    ensures forall d :: 0 <= d < |From(cfg, es + more).world.docs| ==>
      Finished(From(cfg, es + more).world.docs[d].status) || GaveUpDoc(cfg, EMPTY_SYSTEM, es, d)
    ensures forall a <- From(cfg, es + more).world.analyses.rows ::
      || From(cfg, es + more).world.analyses.rows[a].Terminal() || Waits(cfg, es + more, a)
      || GaveUpRun(cfg, EMPTY_SYSTEM, es + more, a)
  {
    hide Run, Feasible, GaveUpDoc, GaveUpRun, Quiescent, Waits, Finished, Safe, Numbered;
    more := EveryRunEnds(cfg, From(cfg, es));
    RunConcat(cfg, EMPTY_SYSTEM, es, more);
    EmptySystem(cfg);
    LostIsGivenUp(cfg, EMPTY_SYSTEM, es);
    LostIsGivenUp(cfg, EMPTY_SYSTEM, es + more);
    forall d | 0 <= d < |From(cfg, es + more).world.docs|
      ensures Finished(From(cfg, es + more).world.docs[d].status) || GaveUpDoc(cfg, EMPTY_SYSTEM, es, d)
    {
      if !GaveUpDoc(cfg, EMPTY_SYSTEM, es + more, d) { NoDocumentIsStuck(cfg, es + more, d); }
    }
    forall a | a in From(cfg, es + more).world.analyses.rows
      ensures From(cfg, es + more).world.analyses.rows[a].Terminal() || Waits(cfg, es + more, a)
              || GaveUpRun(cfg, EMPTY_SYSTEM, es + more, a)
    {
      if !GaveUpRun(cfg, EMPTY_SYSTEM, es + more, a) { NoAnalysisIsStuck(cfg, es + more, a); }
    }
  }

  /** A run in which the outside world acts k times makes at most k times the heaviest load in calls. */
  lemma CallsAreBounded(cfg: Config, es: seq<Event>)
    requires Feasible(cfg, EMPTY_SYSTEM, es)
    ensures Calls(es) <= (|es| - Calls(es)) * HEAVIEST
  {
    RunsAreBounded(cfg, EMPTY_SYSTEM, es);
  }

  /** A task or message that is enqueued once is started at most four times. */
  lemma StartedAtMostFourTimes(cfg: Config, s: System, es: seq<Event>, i: nat)
    requires Feasible(cfg, s, es) && i < |s.procs| && s.procs[i].Idle()
    requires match s.procs[i]
      case Scanner(_, _, left) => left == MAX_RETRIES
      case Uploader(_, _, left) => left == MAX_RETRIES
      case Extractor(_, _, left) => left == MAX_RETRIES
      case Handler(_, _, _, _, deliveries) => deliveries == 0
      case _ => false
    ensures Begun(cfg, s, es, i) <= 4
  {
    AttemptsAreBounded(cfg, s, es, i);
  }

  // --- Temp files ---

  /** The upload request or a task of this request is not over. */
  ghost predicate Alive(s: System, n: nat) {
    exists i :: 0 <= i < |s.procs| && !s.procs[i].Ended() && OnFile(s.procs[i]) && Temps.FileOf(s.procs[i]) == n
  }

  /** As long as the tasks of one document do not overlap, and whatever cancellations, handlers and requests on
      analyses do meanwhile: a temp file whose unlink did not fail is there only while its request runs or a task
      for it is pending. */
  lemma TempFilesDoNotLeak(cfg: Config, es: seq<Event>, n: nat)
    requires cfg.CollisionFree() && Feasible(cfg, EMPTY_SYSTEM, es) && Respects(cfg, OneTaskPerDocument, EMPTY_SYSTEM, es)
    requires n in From(cfg, es).world.temps && n !in From(cfg, es).world.leaked
    ensures Alive(From(cfg, es), n)
  {
    hide Safe, Temps.Keeps, Run, Temps.Distinct, Temps.Sees, Owned, Temps.Fresh, Temps.Clear, Respects;
    EmptySystem(cfg);
    RunIsTidy(cfg, EMPTY_SYSTEM, es);
    var s := From(cfg, es);
    assert TempHeld(s, n);
    NotClear(s.world, n);
    var i :| 0 <= i < |s.procs| && Temps.Keeps(s.world.docs, s.procs[i], n);
    KeepsMeans(s.world.docs, s.procs[i], n);
  }

  lemma NotClear(w: World, n: nat)
    requires n in w.temps && n !in w.leaked
    ensures !Temps.Clear(w, n)
  {
  }

  lemma KeepsMeans(docs: seq<Document>, p: Proc, n: nat)
    requires Temps.Keeps(docs, p, n)
    ensures !p.Ended() && OnFile(p) && Temps.FileOf(p) == n
  {
  }

  lemma HolderMeans(p: Proc, n: nat)
    requires Holder(p, n)
    ensures !p.Ended() && OnFile(p) && Temps.FileOf(p) == n
  {
  }

  /** Over all interleavings: a file is at some moment there without a holder exactly when its last holder let it go
      at one of the two branches; and only then can it be left behind with nobody of its request alive. */
  lemma LeftFileWasLetGo(cfg: Config, es: seq<Event>, n: nat)
    requires Feasible(cfg, EMPTY_SYSTEM, es)
    ensures SometimeUnheld(cfg, EMPTY_SYSTEM, es, n) <==> SometimeLetGo(cfg, EMPTY_SYSTEM, es, n)
    ensures var s := From(cfg, es);
      n in s.world.temps && n !in s.world.leaked && !Alive(s, n) ==> SometimeLetGo(cfg, EMPTY_SYSTEM, es, n)
  {
    hide Run, Holder, SometimeUnheld, SometimeLetGo;
    UnheldIffLetGo(cfg, EMPTY_SYSTEM, es, n);
    var s := From(cfg, es);
    if n in s.world.temps && n !in s.world.leaked && !Alive(s, n) {
      forall i | 0 <= i < |s.procs| ensures !Holder(s.procs[i], n) {
        if Holder(s.procs[i], n) { HolderMeans(s.procs[i], n); }
      }
      EndIsMoment(cfg, EMPTY_SYSTEM, es, n);
    }
  }

  // --- Analyses whose processes do not overlap ---

  /** Failure has a kind, success has a result and its prompt version. Everything but the processes of one analysis
      may interleave, removals included. */
  lemma AnalysesAreWellFormed(cfg: Config, es: seq<Event>, a: nat)
    requires cfg.CollisionFree() && Feasible(cfg, EMPTY_SYSTEM, es) && Respects(cfg, OnePerAnalysis, EMPTY_SYSTEM, es)
    requires a in From(cfg, es).world.analyses.rows
    ensures var row := From(cfg, es).world.analyses.rows[a];
      && (row.status.Broken? <==> row.failure.Some?)
      && (row.status.Succeeded? <==> row.report.Some?)
      && (row.report.Some? <==> row.prompt.Some?)
  {
    hide Safe, Run, Relies, Respects;
    EmptySystem(cfg);
    RunIsFinal(cfg, EMPTY_SYSTEM, es);
  }

  /** No duplicate, late or final-failure delivery changes a finished analysis. */
  lemma FinishedAnalysesStay(cfg: Config, es: seq<Event>, more: seq<Event>, a: nat)
    requires cfg.CollisionFree() && Feasible(cfg, EMPTY_SYSTEM, es) && Respects(cfg, OnePerAnalysis, EMPTY_SYSTEM, es)
    requires Feasible(cfg, From(cfg, es), more) && Respects(cfg, OnePerAnalysis, From(cfg, es), more)
    requires a in From(cfg, es).world.analyses.rows && From(cfg, es).world.analyses.rows[a].Terminal()
    requires a in Run(cfg, From(cfg, es), more).world.analyses.rows
    ensures Run(cfg, From(cfg, es), more).world.analyses.rows[a] == From(cfg, es).world.analyses.rows[a]
  {
    hide Safe, Final, Run, Respects;
    EmptySystem(cfg);
    RunIsSafe(cfg, EMPTY_SYSTEM, es);
    RunIsFinal(cfg, EMPTY_SYSTEM, es);
    RunIsFinal(cfg, From(cfg, es), more);
  }

  // --- Retries ---

  ghost predicate RepeatsFailure(rows: map<nat, Analysis>, a: nat)
    requires a in rows
  {
    forall p :: rows[a].retryOf == Some(p) ==>
      && p in rows && rows[p].status.Broken? && rows[p].failure == Some(Transient)
      && rows[p].doc == rows[a].doc && rows[p].provider == rows[a].provider
  }

  /** What a retry repeats is there, failed for a passing reason, and has the same document and provider, as long as
      every write of the run is in line. `Retries.StepLineageIff` says that no weaker condition will do. */
  lemma RetriesRepeatFailures(cfg: Config, es: seq<Event>, a: nat)
    requires cfg.CollisionFree() && Feasible(cfg, EMPTY_SYSTEM, es) && AllInLine(cfg, EMPTY_SYSTEM, es)
    requires a in From(cfg, es).world.analyses.rows
    ensures RepeatsFailure(From(cfg, es).world.analyses.rows, a)
  {
    hide Safe, Run, AllInLine;
    EmptySystem(cfg);
    InLineKeepsLineage(cfg, EMPTY_SYSTEM, es);
    AnalysesBelong(cfg, es, a);
  }

  /** They are in line when the processes of one analysis do not overlap, nor a retry and the removal of its parent. */
  lemma SeparateRetriesRepeatFailures(cfg: Config, es: seq<Event>, a: nat)
    requires cfg.CollisionFree() && Feasible(cfg, EMPTY_SYSTEM, es)
    requires Respects(cfg, OnePerAnalysis, EMPTY_SYSTEM, es) && Respects(cfg, RetryOrRemove, EMPTY_SYSTEM, es)
    requires a in From(cfg, es).world.analyses.rows
    ensures RepeatsFailure(From(cfg, es).world.analyses.rows, a)
  {
    hide Safe, Run, Respects, KnowsKin, Relies;
    EmptySystem(cfg);
    RunKeepsKin(cfg, EMPTY_SYSTEM, es);
    AnalysesBelong(cfg, es, a);
  }
}
