/** Where the promises end: concrete runs from empty tables on which they fail, and which condition failed. */
module Limits {
  import opened Types
  import opened AnalysisTable
  import opened Pipeline
  import opened Machine
  import opened Sessions
  import opened Scenarios
  import opened Progress
  import opened Runs
  import opened TableWrites
  import opened Histories
  import Validation
  import UploadRequest
  import UploadTask
  import Consumer

  lemma Go(cfg: Config, es: seq<Event>, s: System, i: nat, calls: seq<Outcome>, w': World, p': Proc, sent: seq<Proc>)
    returns (es': seq<Event>, s': System)
    requires Reaches(cfg, es, s) && i < |s.procs| && Plays(cfg, s.world, s.procs[i], calls, w', p', sent)
    ensures es' == es + Acts(i, calls) && s' == System(w', s.procs[i := p'] + sent) && Reaches(cfg, es', s')
  {
    Played(cfg, es, s, i, calls, w', p', sent);
    es', s' := es + Acts(i, calls), System(w', s.procs[i := p'] + sent);
  }

  ghost predicate Accepted(cfg: Config, file: UploadedFile) {
    Validation.Accept(cfg, file.bytes, ".txt") == Some(file.mime) && file.provider == Gemini
  }

  /** A system that holds one upload request about to start. */
  lemma FirstUpload(cfg: Config, file: UploadedFile) returns (es: seq<Event>, s: System)
    requires Accepted(cfg, file)
    ensures Reaches(cfg, es, s) && s.procs == [Request(0, Save)]
    ensures s.world == EMPTY_WORLD.(uploads := EMPTY_WORLD.uploads[0 := file])
  {
    var e := NewUpload(file.bytes, ".txt", Gemini);
    assert Reaches(cfg, [], EMPTY_SYSTEM);
    Arrives(cfg, [], EMPTY_SYSTEM, e);
    es, s := [] + [e], System(Arrive(cfg, EMPTY_SYSTEM, e), EMPTY_SYSTEM.procs + [Started(EMPTY_SYSTEM, e)]);
  }

  lemma FirstSaved(cfg: Config, file: UploadedFile, es: seq<Event>, s: System) returns (es': seq<Event>, s': System)
    requires Reaches(cfg, es, s) && s.procs == [Request(0, Save)]
    requires s.world == EMPTY_WORLD.(uploads := EMPTY_WORLD.uploads[0 := file])
    ensures Reaches(cfg, es', s') && s'.procs == [Request(0, CreateDoc(Full))]
    ensures s'.world == s.world.(temps := s.world.temps[0 := file.bytes])
  {
    hide Reaches, Plays;
    RequestSaves(cfg, s.world, 0);
    es', s' := Go(cfg, es, s, 0, [OK, OK], s.world.(temps := s.world.temps[0 := file.bytes]), Request(0, CreateDoc(Full)), []);
  }

  // --- A last resort fails ---

  /** The queue and the database both fail after the row was written: the document stays `created` for good. */
  lemma FailedRecoveryStrandsDocument(cfg: Config, file: UploadedFile) returns (es: seq<Event>, s: System)
    requires Accepted(cfg, file)
    ensures Reaches(cfg, es, s) && Quiescent(s) && |s.world.docs| == 1 && s.world.docs[0].status == Created
  {
    es, s := FirstUpload(cfg, file);
    es, s := FirstSaved(cfg, file, es, s);
    RequestIsNotQueued(cfg, s.world, 0);
    es, s := Go(cfg, es, s, 0, [OK, LOST], CreatedIn(cfg, s.world, 0), Request(0, MarkFailed(0)), []);
    RequestIsNotMarked(cfg, s.world, 0, 0);
    es, s := Go(cfg, es, s, 0, [LOST, OK], s.world.LoseDoc(0).Unlink(0), Request(0, RequestPc.Done), []);
  }

  /** An insert of the document that lands although it raises has the same effect. */
  lemma AmbiguousCreateStrandsDocument(cfg: Config, file: UploadedFile) returns (es: seq<Event>, s: System)
    requires Accepted(cfg, file)
    ensures Reaches(cfg, es, s) && Quiescent(s) && |s.world.docs| == 1 && s.world.docs[0].status == Created
  {
    es, s := FirstUpload(cfg, file);
    es, s := FirstSaved(cfg, file, es, s);
    RequestForgetsDocument(cfg, s.world, 0);
    es, s := Go(cfg, es, s, 0, [LANDED, OK], CreatedIn(cfg, s.world, 0).LoseDoc(0).Unlink(0), Request(0, RequestPc.Done), []);
  }

  // --- One upload, stored and extracted ---

  function ArgsOf(file: UploadedFile): Args {
    Args(0, 0, file.mime, file.provider)
  }

  /** The object is stored, and the extraction is pending. */
  ghost predicate Stored(s: System, file: UploadedFile) {
    && s.procs == [Request(0, RequestPc.Done), Uploader(ArgsOf(file), UploadPc.Done, MAX_RETRIES),
                   Extractor(ArgsOf(file), ExtractPc.Start, MAX_RETRIES)]
    && var w := s.world;
       && |w.docs| == 1 && w.docs[0].req == 0 && w.docs[0].status == Uploaded
       && w.docs[0].key == Some(0) && w.docs[0].temp == Some(0)
       && 0 in w.temps && w.temps[0] == file.bytes && 0 in w.objects
       && w.analyses == EMPTY && w.lostDocs == {} && w.lostRuns == {} && w.leaked == {}
  }

  lemma UploadIsStored(cfg: Config, file: UploadedFile) returns (es: seq<Event>, s: System)
    requires Accepted(cfg, file) && !cfg.scanning
    ensures Reaches(cfg, es, s) && Stored(s, file)
  {
    hide Reaches, Plays;
    var args := ArgsOf(file);
    es, s := FirstUpload(cfg, file);
    es, s := FirstSaved(cfg, file, es, s);
    RequestCreates(cfg, s.world, 0);
    es, s := Go(cfg, es, s, 0, [OK, OK], CreatedIn(cfg, s.world, 0), Request(0, RequestPc.Done),
                [Uploader(args, UploadPc.Start, MAX_RETRIES)]);
    assert s.procs[1] == Uploader(args, UploadPc.Start, MAX_RETRIES);
    UploadStarts(cfg, s.world, args, MAX_RETRIES);
    es, s := Go(cfg, es, s, 1, [OK, OK], s.world, Uploader(args, WriteUploading, MAX_RETRIES), []);
    UploadPuts(cfg, s.world, args, MAX_RETRIES);
    es, s := Go(cfg, es, s, 1, [OK, OK, OK], PutIn(s.world, args), Uploader(args, WriteUploaded, MAX_RETRIES), []);
    UploadEnds(cfg, s.world, args, MAX_RETRIES);
    es, s := Go(cfg, es, s, 1, [OK, OK], UploadTask.SetUploaded(s.world, 0, 0), Uploader(args, UploadPc.Done, MAX_RETRIES),
                [Extractor(args, ExtractPc.Start, MAX_RETRIES)]);
  }

  /** The text is stored, and the first analysis is inserted but not published. */
  ghost predicate Extracted(s: System, file: UploadedFile, text: string) {
    && s.procs == [Request(0, RequestPc.Done), Uploader(ArgsOf(file), UploadPc.Done, MAX_RETRIES),
                   Extractor(ArgsOf(file), ExtractPc.Publish(0), MAX_RETRIES)]
    && TextStored(s.world, text)
    && s.world.analyses == EMPTY.Insert(0, 0, file.provider, None) && s.world.lostRuns == {}
  }

  ghost predicate TextStored(w: World, text: string) {
    && |w.docs| == 1 && w.docs[0].req == 0 && w.docs[0].status == DocumentStatus.Extracted
    && 0 in w.texts && w.texts[0] == text && text != "" && w.lostDocs == {}
  }

  lemma UploadIsExtracted(cfg: Config, file: UploadedFile, text: string) returns (es: seq<Event>, s: System)
    requires Accepted(cfg, file) && !cfg.scanning && cfg.extract(file.bytes, file.mime) == Some(text) && text != ""
    ensures Reaches(cfg, es, s) && Extracted(s, file, text)
  {
    hide Reaches, Plays;
    var args := ArgsOf(file);
    es, s := UploadIsStored(cfg, file);
    ExtractStarts(cfg, s.world, args, MAX_RETRIES);
    es, s := Go(cfg, es, s, 2, [OK, OK], s.world, Extractor(args, WriteExtracting(Some(0)), MAX_RETRIES), []);
    ExtractReads(cfg, s.world, args, Some(0), MAX_RETRIES, text);
    es, s := Go(cfg, es, s, 2, [OK, OK], s.world.SetStatus(0, DocumentStatus.Extracting),
                Extractor(args, Upsert(text), MAX_RETRIES), []);
    ExtractStores(cfg, s.world, args, MAX_RETRIES, text);
    es, s := Go(cfg, es, s, 2, [OK, OK, OK], TextIn(s.world, args, text), Extractor(args, ExtractPc.Find, MAX_RETRIES), []);
    ExtractInserts(cfg, s.world, args, MAX_RETRIES);
    es, s := Go(cfg, es, s, 2, [OK, OK], s.world.(analyses := s.world.analyses.Insert(0, 0, file.provider, None)),
                Extractor(args, ExtractPc.Publish(0), MAX_RETRIES), []);
  }

  // --- Temp files ---

  /** Two overlapping tasks of one document: the upload is delivered twice, the second delivery and a cancellation
      cross, and its retry finds the file gone; the extraction restores the file and drops out on the status
      `uploading`; the upload cancels the document, and the file stays. */
  lemma OverlappingTasksLeakFile(cfg: Config, file: UploadedFile) returns (es: seq<Event>, s: System)
    requires Accepted(cfg, file) && !cfg.scanning
    ensures Reaches(cfg, es, s) && Quiescent(s)
    ensures |s.world.docs| == 1 && s.world.docs[0].req == 0 && s.world.docs[0].status == Cancelled
    ensures 0 in s.world.temps && 0 !in s.world.leaked
  {
    hide Reaches, Plays;
    var args := ArgsOf(file);
    es, s := UploadIsStored(cfg, file);
    ExtractLooks(cfg, s.world, args, MAX_RETRIES);
    es, s := Go(cfg, es, s, 2, [OK], s.world, Extractor(args, ExtractPc.CheckPath(Some(0)), MAX_RETRIES), []);
    Arrives(cfg, es, s, Duplicate(1, MAX_RETRIES));
    es, s := es + [Duplicate(1, MAX_RETRIES)], System(s.world, s.procs + [Uploader(args, UploadPc.Start, MAX_RETRIES)]);
    UploadStarts(cfg, s.world, args, MAX_RETRIES);
    es, s := Go(cfg, es, s, 3, [OK, OK], s.world, Uploader(args, WriteUploading, MAX_RETRIES), []);
    Arrives(cfg, es, s, NewCancel(0));
    es, s := es + [NewCancel(0)], System(s.world, s.procs + [Canceller(0, CancelPc.Start)]);
    CancelRuns(cfg, s.world, 0, 0);
    es, s := Go(cfg, es, s, 4, [OK, OK, OK], s.world.Finish(0, Cancelled).Unlink(0), Canceller(0, CancelPc.Done), []);
    es, s := LeakEnds(cfg, file, es, s);
  }

  lemma LeakEnds(cfg: Config, file: UploadedFile, es: seq<Event>, s: System) returns (es': seq<Event>, s': System)
    requires Reaches(cfg, es, s) && |s.world.docs| == 1 && s.world.docs[0].req == 0
    requires 0 !in s.world.temps && 0 in s.world.objects && s.world.leaked == {}
    requires s.procs == [Request(0, RequestPc.Done), Uploader(ArgsOf(file), UploadPc.Done, MAX_RETRIES),
                         Extractor(ArgsOf(file), ExtractPc.CheckPath(Some(0)), MAX_RETRIES),
                         Uploader(ArgsOf(file), WriteUploading, MAX_RETRIES), Canceller(0, CancelPc.Done)]
    ensures Reaches(cfg, es', s') && Quiescent(s')
    ensures |s'.world.docs| == 1 && s'.world.docs[0].req == 0 && s'.world.docs[0].status == Cancelled
    ensures 0 in s'.world.temps && 0 !in s'.world.leaked
  {
    hide Reaches, Plays;
    var args := ArgsOf(file);
    es', s' := es, s;
    UploadFindsNothing(cfg, s'.world, args, MAX_RETRIES);
    es', s' := Go(cfg, es', s', 3, [OK, LOST, OK, OK], s'.world.SetStatus(0, Uploading),
                  Uploader(args, UploadPc.WriteCancelled, 2), []);
    ExtractRestoresAndDrops(cfg, s'.world, args, 0, MAX_RETRIES);
    es', s' := Go(cfg, es', s', 2, [OK, LANDED, OK], s'.world.(temps := s'.world.temps[0 := s'.world.objects[0]]),
                  Extractor(args, ExtractPc.Done, 2), []);
    UploadCancels(cfg, s'.world, args, 2);
    es', s' := Go(cfg, es', s', 3, [OK], s'.world.Finish(0, Cancelled), Uploader(args, UploadPc.Done, 2), []);
  }

  // --- Analyses ---

  /** The first analysis could not be published and is marked failed; nothing is pending. */
  ghost predicate FirstFailed(s: System, file: UploadedFile, text: string) {
    && s.procs == [Request(0, RequestPc.Done), Uploader(ArgsOf(file), UploadPc.Done, MAX_RETRIES),
                   Extractor(ArgsOf(file), ExtractPc.Done, MAX_RETRIES)]
    && TextStored(s.world, text)
    && s.world.analyses == EMPTY.Insert(0, 0, file.provider, None).Update(0, 0, Break(Transient))
  }

  lemma FirstRow(provider: Provider)
    ensures var t := EMPTY.Insert(0, 0, provider, None);
      && t.Find(0, 0) == Some(0) && 0 in t.rows && t.next == 1 && t.FindChild(0).None?
      && t.rows == map[0 := Analysis(0, 0, provider, Queued, None, None, None, None)]
  {
  }

  /** An update of the first row. */
  lemma FirstUpdated(t: Table, change: Change)
    requires t.Find(0, 0) == Some(0) && 0 in t.rows
    ensures var t' := t.Update(0, 0, change);
      && t'.Find(0, 0) == Some(0) && 0 in t'.rows && t'.rows[0] == t.rows[0].With(change)
      && t'.rows.Keys == t.rows.Keys && t'.next == t.next && t'.FindChild(0) == t.FindChild(0)
      && t'.byRequest == t.byRequest && t'.byParent == t.byParent
  {
  }

  lemma UploadIsNotPublished(cfg: Config, file: UploadedFile, text: string) returns (es: seq<Event>, s: System)
    requires Accepted(cfg, file) && !cfg.scanning && cfg.extract(file.bytes, file.mime) == Some(text) && text != ""
    ensures Reaches(cfg, es, s) && FirstFailed(s, file, text)
  {
    hide Reaches, Plays;
    hide Table.Insert, Table.Update, Table.Find;
    var args := ArgsOf(file);
    es, s := UploadIsExtracted(cfg, file, text);
    FirstRow(file.provider);
    ExtractFails(cfg, s.world, args, 0, MAX_RETRIES);
    es, s := Go(cfg, es, s, 2, [Raise(false, true), OK], s.world, Extractor(args, ExtractPc.MarkFind, MAX_RETRIES), []);
    ExtractMarks(cfg, s.world, args, 0, MAX_RETRIES);
    es, s := Go(cfg, es, s, 2, [OK, OK, OK], s.world.Update(0, 0, Break(Transient)).Unlink(0),
                Extractor(args, ExtractPc.Done, MAX_RETRIES), []);
  }

  /** An insert of an analysis that lands although it raises: nobody knows it, and it stays queued for good. */
  lemma AmbiguousInsertStrandsAnalysis(cfg: Config, file: UploadedFile, text: string) returns (es: seq<Event>, s: System)
    requires Accepted(cfg, file) && !cfg.scanning && cfg.extract(file.bytes, file.mime) == Some(text) && text != ""
    ensures Reaches(cfg, es, s) && Quiescent(s)
    ensures 1 in s.world.analyses.rows && s.world.analyses.rows[1].status == Queued
    ensures s.world.analyses.rows[1].doc < |s.world.docs| && !OfUpload(s.world.docs, s.world.analyses.rows[1])
    ensures s.world.docs[s.world.analyses.rows[1].doc].status == DocumentStatus.Extracted
  {
    hide Reaches, Plays;
    es, s := UploadIsNotPublished(cfg, file, text);
    Arrives(cfg, es, s, NewCreate(0, Gemini));
    es, s := es + [NewCreate(0, Gemini)], System(s.world, s.procs + [Creator(0, 3, Gemini, ApiPc.Start)]);
    FirstRow(file.provider);
    FirstUpdated(EMPTY.Insert(0, 0, file.provider, None), Break(Transient));
    CreateLands(cfg, s.world, 0, 3, Gemini);
    es, s := Go(cfg, es, s, 3, [OK, OK, LANDED],
                s.world.(analyses := s.world.analyses.Insert(0, 3, Gemini, None)).LoseRun(0, 3), Creator(0, 3, Gemini, ApiPc.Done), []);
  }

  /** A retry and a removal of one analysis, each past its checks: in either order of their writes the retry is left
      without its parent. */
  lemma RemoveRacesRetry(cfg: Config, file: UploadedFile, text: string, removeFirst: bool) returns (es: seq<Event>, s: System)
    requires Accepted(cfg, file) && !cfg.scanning && cfg.extract(file.bytes, file.mime) == Some(text) && text != ""
    ensures Reaches(cfg, es, s) && Quiescent(s)
    ensures 1 in s.world.analyses.rows && s.world.analyses.rows[1].retryOf == Some(0) && 0 !in s.world.analyses.rows
  {
    hide Reaches, Plays;
    es, s := UploadIsNotPublished(cfg, file, text);
    Arrives(cfg, es, s, NewRetry(0, 0));
    es, s := es + [NewRetry(0, 0)], System(s.world, s.procs + [Retrier(0, 3, 0, ApiPc.Start)]);
    Arrives(cfg, es, s, NewRemove(0, 0));
    es, s := es + [NewRemove(0, 0)], System(s.world, s.procs + [Remover(0, 0, RemovePc.Start)]);
    FirstRow(file.provider);
    FirstUpdated(EMPTY.Insert(0, 0, file.provider, None), Break(Transient));
    var t, provider := s.world.analyses, file.provider;
    RetryChecks(cfg, s.world, 0, 3, 0);
    es, s := Go(cfg, es, s, 3, [OK, OK, OK, OK], s.world, Retrier(0, 3, 0, ApiPc.Insert(provider)), []);
    RemovalChecks(cfg, s.world, 0, 0);
    es, s := Go(cfg, es, s, 4, [OK, OK, OK], s.world, Remover(0, 0, RemovePc.Delete), []);
    es, s := RaceEnds(cfg, file, es, s, removeFirst);
  }

  /** The writes of the two, in either order. */
  function Raced(t: Table, provider: Provider, removeFirst: bool): Table {
    if removeFirst then Write.Insert(0, 3, provider, Some(0)).Apply(t.Delete(0))
    else Write.Insert(0, 3, provider, Some(0)).Apply(t).Delete(0)
  }

  lemma RacedTable(t: Table, provider: Provider, removeFirst: bool)
    requires t.rows.Keys == {0} && t.rows[0].doc == 0 && t.rows[0].req == 0 && t.next == 1
    requires t.byRequest == map[(0, 0) := 0] && t.byParent == map[]
    ensures var t' := Raced(t, provider, removeFirst);
      && t'.Find(0, 3) == Some(1) && 1 in t'.rows && 0 !in t'.rows
      && t'.rows[1].status == Queued && t'.rows[1].retryOf == Some(0)
    ensures t.Accepts(0, 3, Some(0)) && t.Delete(0).Accepts(0, 3, Some(0)) && t.Delete(0).next == 1
  {
  }

  ghost predicate Racing(s: System, file: UploadedFile, retry: ApiPc, removal: RemovePc) {
    s.procs == [Request(0, RequestPc.Done), Uploader(ArgsOf(file), UploadPc.Done, MAX_RETRIES),
                Extractor(ArgsOf(file), ExtractPc.Done, MAX_RETRIES), Retrier(0, 3, 0, retry), Remover(0, 0, removal)]
  }

  lemma RetryFirst(cfg: Config, file: UploadedFile, es: seq<Event>, s: System) returns (es': seq<Event>, s': System)
    requires Reaches(cfg, es, s) && Racing(s, file, ApiPc.Insert(file.provider), RemovePc.Delete)
    requires s.world.analyses.Accepts(0, 3, Some(0)) && s.world.analyses.next == 1
    ensures Reaches(cfg, es', s') && Racing(s', file, ApiPc.Publish(1), RemovePc.Done)
    ensures s'.world.analyses == Raced(s.world.analyses, file.provider, false)
  {
    hide Reaches, Plays, Table.Insert, Table.Delete, Table.Accepts;
    es', s' := es, s;
    RetryInserts(cfg, s'.world, 0, 3, 0, file.provider);
    es', s' := Go(cfg, es', s', 3, [OK], s'.world.(analyses := s'.world.analyses.Insert(0, 3, file.provider, Some(0))),
                  Retrier(0, 3, 0, ApiPc.Publish(1)), []);
    RemovalDeletes(cfg, s'.world, 0, 0);
    es', s' := Go(cfg, es', s', 4, [OK], s'.world.(analyses := s'.world.analyses.Delete(0)), Remover(0, 0, RemovePc.Done), []);
  }

  lemma RemovalFirst(cfg: Config, file: UploadedFile, es: seq<Event>, s: System) returns (es': seq<Event>, s': System)
    requires Reaches(cfg, es, s) && Racing(s, file, ApiPc.Insert(file.provider), RemovePc.Delete)
    requires s.world.analyses.Delete(0).Accepts(0, 3, Some(0)) && s.world.analyses.Delete(0).next == 1
    ensures Reaches(cfg, es', s') && Racing(s', file, ApiPc.Publish(1), RemovePc.Done)
    ensures s'.world.analyses == Raced(s.world.analyses, file.provider, true)
  {
    hide Reaches, Plays, Table.Insert, Table.Delete, Table.Accepts;
    es', s' := es, s;
    RemovalDeletes(cfg, s'.world, 0, 0);
    es', s' := Go(cfg, es', s', 4, [OK], s'.world.(analyses := s'.world.analyses.Delete(0)), Remover(0, 0, RemovePc.Done), []);
    RetryInserts(cfg, s'.world, 0, 3, 0, file.provider);
    es', s' := Go(cfg, es', s', 3, [OK], s'.world.(analyses := s'.world.analyses.Insert(0, 3, file.provider, Some(0))),
                  Retrier(0, 3, 0, ApiPc.Publish(1)), []);
  }

  lemma RaceEnds(cfg: Config, file: UploadedFile, es: seq<Event>, s: System, removeFirst: bool)
    returns (es': seq<Event>, s': System)
    requires Reaches(cfg, es, s) && s.world.analyses == EMPTY.Insert(0, 0, file.provider, None).Update(0, 0, Break(Transient))
    requires Racing(s, file, ApiPc.Insert(file.provider), RemovePc.Delete)
    ensures Reaches(cfg, es', s') && Quiescent(s')
    ensures 1 in s'.world.analyses.rows && s'.world.analyses.rows[1].retryOf == Some(0) && 0 !in s'.world.analyses.rows
  {
    hide Reaches, Plays, Raced, Table.Insert, Table.Delete, Table.Update, Table.Find;
    var t, provider := s.world.analyses, file.provider;
    FirstRow(provider);
    FirstUpdated(EMPTY.Insert(0, 0, provider, None), Break(Transient));
    FirstIndexes(provider);
    RacedTable(t, provider, removeFirst);
    if removeFirst {
      es', s' := RemovalFirst(cfg, file, es, s);
    } else {
      es', s' := RetryFirst(cfg, file, es, s);
    }
    UpdatedRetry(s'.world.analyses);
    RetryIsNotPublished(cfg, s'.world, 0, 3, 0, 1);
    es', s' := Go(cfg, es', s', 3, [LOST, OK, OK], s'.world.Update(0, 3, Break(Transient)), Retrier(0, 3, 0, ApiPc.Done), []);
  }

  lemma FirstIndexes(provider: Provider)
    ensures var t := EMPTY.Insert(0, 0, provider, None); t.byRequest == map[(0, 0) := 0] && t.byParent == map[]
  {
  }

  lemma UpdatedRetry(t: Table)
    requires t.Find(0, 3) == Some(1) && 1 in t.rows
    ensures var t' := t.Update(0, 3, Break(Transient));
      1 in t'.rows && t'.rows[1].retryOf == t.rows[1].retryOf && (0 in t'.rows <==> 0 in t.rows)
  {
  }

  // --- Overlapping messages ---

  /** One delivery has read its analysis and is about to start it, while another one has finished it. */
  ghost predicate Overtaken(s: System, file: UploadedFile, text: string) {
    && s.procs == [Request(0, RequestPc.Done), Uploader(ArgsOf(file), UploadPc.Done, MAX_RETRIES),
                   Extractor(ArgsOf(file), ExtractPc.Done, MAX_RETRIES),
                   Handler(0, 0, 0, WriteAnalyzing(text, 0), 0), Handler(0, 0, 0, HandlerPc.Done, 0)]
    && TextStored(s.world, text) && s.world.lostRuns == {}
    && s.world.analyses ==
         EMPTY.Insert(0, 0, file.provider, None).Update(0, 0, Begin).Update(0, 0, Change.Finish(Report(text, 0)))
  }

  /** Updates through the key while the analysis is there. */
  lemma UpdatedHere(w: World, change: Change)
    requires 0 in w.analyses.rows
    ensures Consumer.Updated(w, 0, 0, 0, change) == w.Update(0, 0, change)
  {
  }

  lemma DeliveryIsOvertaken(cfg: Config, file: UploadedFile, text: string) returns (es: seq<Event>, s: System)
    requires Accepted(cfg, file) && !cfg.scanning && cfg.extract(file.bytes, file.mime) == Some(text) && text != ""
    ensures Reaches(cfg, es, s) && Overtaken(s, file, text)
  {
    hide Reaches, Plays;
    hide Table.Insert, Table.Update, Table.Find, Consumer.Updated;
    var args := ArgsOf(file);
    es, s := UploadIsExtracted(cfg, file, text);
    FirstRow(file.provider);
    ExtractPublishes(cfg, s.world, args, 0, MAX_RETRIES);
    es, s := Go(cfg, es, s, 2, [OK], s.world, Extractor(args, ExtractPc.Done, MAX_RETRIES),
                [Handler(0, 0, 0, HandlerPc.Start, 0)]);
    HandlerReads(cfg, s.world, 0, 0, 0, 0);
    es, s := Go(cfg, es, s, 3, [OK, OK, OK], s.world, Handler(0, 0, 0, WriteAnalyzing(text, 0), 0), []);
    Arrives(cfg, es, s, Duplicate(3, 0));
    es, s := es + [Duplicate(3, 0)], System(s.world, s.procs + [Handler(0, 0, 0, HandlerPc.Start, 0)]);
    HandlerReads(cfg, s.world, 0, 0, 0, 0);
    es, s := Go(cfg, es, s, 4, [OK, OK, OK], s.world, Handler(0, 0, 0, WriteAnalyzing(text, 0), 0), []);
    es, s := SecondFinishes(cfg, file, text, es, s);
  }

  lemma SecondFinishes(cfg: Config, file: UploadedFile, text: string, es: seq<Event>, s: System)
    returns (es': seq<Event>, s': System)
    requires Reaches(cfg, es, s) && TextStored(s.world, text) && s.world.lostRuns == {}
    requires s.world.analyses == EMPTY.Insert(0, 0, file.provider, None)
    requires s.procs == [Request(0, RequestPc.Done), Uploader(ArgsOf(file), UploadPc.Done, MAX_RETRIES),
                         Extractor(ArgsOf(file), ExtractPc.Done, MAX_RETRIES),
                         Handler(0, 0, 0, WriteAnalyzing(text, 0), 0), Handler(0, 0, 0, WriteAnalyzing(text, 0), 0)]
    ensures Reaches(cfg, es', s') && Overtaken(s', file, text)
  {
    hide Reaches, Plays;
    hide Table.Insert, Table.Update, Table.Find, Consumer.Updated;
    FirstRow(file.provider);
    es', s' := es, s;
    HandlerBegins(cfg, s'.world, 0, 0, 0, text, 0);
    UpdatedHere(s'.world, Begin);
    FirstUpdated(s'.world.analyses, Begin);
    es', s' := Go(cfg, es', s', 4, [OK], s'.world.Update(0, 0, Begin), Handler(0, 0, 0, Ask(text, 0), 0), []);
    HandlerSucceeds(cfg, s'.world, 0, 0, 0, text, 0);
    UpdatedHere(s'.world, Change.Finish(Report(text, 0)));
    es', s' := Go(cfg, es', s', 4, [OK, OK], s'.world.Update(0, 0, Change.Finish(Report(text, 0))),
                  Handler(0, 0, 0, HandlerPc.Done, 0), []);
  }

  /** The row of the overtaken analysis. */
  lemma OvertakenRow(provider: Provider, text: string)
    ensures var t := EMPTY.Insert(0, 0, provider, None).Update(0, 0, Begin).Update(0, 0, Change.Finish(Report(text, 0)));
      && t.Find(0, 0) == Some(0) && 0 in t.rows && t.next == 1 && t.FindChild(0).None? && t.rows.Keys == {0}
      && t.byRequest == map[(0, 0) := 0] && t.byParent == map[]
      && t.rows[0] == Analysis(0, 0, provider, Succeeded, None, Some(Report(text, 0)), Some(0), None)
  {
    hide Table.Insert, Table.Update;
    var t0 := EMPTY.Insert(0, 0, provider, None);
    FirstRow(provider);
    FirstIndexes(provider);
    FirstUpdated(t0, Begin);
    FirstUpdated(t0.Update(0, 0, Begin), Change.Finish(Report(text, 0)));
  }

  /** A delivery that was overtaken starts the finished analysis again and, refused by the provider, ends it as
      failed while the result of the other one is still set. */
  lemma OverlappingDeliveryReopens(cfg: Config, file: UploadedFile, text: string)
    returns (es: seq<Event>, s: System, more: seq<Event>, s': System)
    requires Accepted(cfg, file) && !cfg.scanning && cfg.extract(file.bytes, file.mime) == Some(text) && text != ""
    ensures Reaches(cfg, es, s) && 0 in s.world.analyses.rows && s.world.analyses.rows[0].status == Succeeded
    ensures Reaches(cfg, es + more, s') && Quiescent(s')
    ensures 0 in s'.world.analyses.rows && s'.world.analyses.rows[0].status == Broken
    ensures !s'.world.analyses.rows[0].WellFormed()
  {
    hide Reaches, Plays;
    hide Table.Insert, Table.Update, Table.Find, Consumer.Updated;
    es, s := DeliveryIsOvertaken(cfg, file, text);
    OvertakenRow(file.provider, text);
    var es1, s1 := es, s;
    HandlerBegins(cfg, s1.world, 0, 0, 0, text, 0);
    UpdatedHere(s1.world, Begin);
    FirstUpdated(s1.world.analyses, Begin);
    es1, s1 := Go(cfg, es1, s1, 3, [OK], s1.world.Update(0, 0, Begin), Handler(0, 0, 0, Ask(text, 0), 0), []);
    HandlerIsRefused(cfg, s1.world, 0, 0, 0, text, 0);
    UpdatedHere(s1.world, Break(Permanent));
    FirstUpdated(s1.world.analyses, Break(Permanent));
    es1, s1 := Go(cfg, es1, s1, 3, [Refuse(false), OK], s1.world.Update(0, 0, Break(Permanent)),
                  Handler(0, 0, 0, HandlerPc.Done, 0), []);
    more, s' := Acts(3, [OK]) + Acts(3, [Refuse(false), OK]), s1;
    assert es + more == es1;
  }

  // --- A late handler ---

  /** The finished analysis is removed, a second delivery of the extraction puts a new one in its place, and the late
      handler of the removed one is about to write. */
  ghost predicate Replaced(s: System, file: UploadedFile, text: string) {
    && s.procs == [Request(0, RequestPc.Done), Uploader(ArgsOf(file), UploadPc.Done, MAX_RETRIES),
                   Extractor(ArgsOf(file), ExtractPc.Done, MAX_RETRIES),
                   Handler(0, 0, 0, WriteAnalyzing(text, 0), 0), Handler(0, 0, 0, HandlerPc.Done, 0),
                   Remover(0, 0, RemovePc.Done), Extractor(ArgsOf(file), ExtractPc.Publish(1), 0)]
    && TextStored(s.world, text) && s.world.lostRuns == {}
    && var t := s.world.analyses;
       && t.Find(0, 0) == Some(1) && 0 !in t.rows && 1 in t.rows && t.rows[1].status == Queued
  }

  lemma ReplacedTable(t: Table, provider: Provider)
    requires t.rows.Keys == {0} && t.rows[0].doc == 0 && t.rows[0].req == 0 && t.next == 1
    requires t.byRequest == map[(0, 0) := 0] && t.byParent == map[]
    ensures t.Delete(0).Accepts(0, 0, None) && t.Delete(0).next == 1
    ensures var t' := t.Delete(0).Insert(0, 0, provider, None);
      && t'.Find(0, 0) == Some(1) && 0 !in t'.rows && 1 in t'.rows && t'.rows[1].status == Queued
  {
  }

  lemma AnalysisIsReplaced(cfg: Config, file: UploadedFile, text: string) returns (es: seq<Event>, s: System)
    requires Accepted(cfg, file) && !cfg.scanning && cfg.extract(file.bytes, file.mime) == Some(text) && text != ""
    ensures Reaches(cfg, es, s) && Replaced(s, file, text)
  {
    hide Reaches, Plays;
    hide Table.Insert, Table.Update, Table.Find, Table.Delete;
    var args := ArgsOf(file);
    es, s := DeliveryIsOvertaken(cfg, file, text);
    OvertakenRow(file.provider, text);
    ReplacedTable(s.world.analyses, file.provider);
    Arrives(cfg, es, s, NewRemove(0, 0));
    es, s := es + [NewRemove(0, 0)], System(s.world, s.procs + [Remover(0, 0, RemovePc.Start)]);
    RemovalChecks(cfg, s.world, 0, 0);
    es, s := Go(cfg, es, s, 5, [OK, OK, OK], s.world, Remover(0, 0, RemovePc.Delete), []);
    RemovalDeletes(cfg, s.world, 0, 0);
    es, s := Go(cfg, es, s, 5, [OK], s.world.(analyses := s.world.analyses.Delete(0)), Remover(0, 0, RemovePc.Done), []);
    Arrives(cfg, es, s, Duplicate(2, 0));
    es, s := es + [Duplicate(2, 0)], System(s.world, s.procs + [Extractor(args, ExtractPc.Start, 0)]);
    ExtractAgain(cfg, s.world, args, 0);
    es, s := Go(cfg, es, s, 6, [OK, OK], s.world.Unlink(0), Extractor(args, ExtractPc.Find, 0), []);
    ExtractInserts(cfg, s.world, args, 0);
    es, s := Go(cfg, es, s, 6, [OK, OK], s.world.(analyses := s.world.analyses.Insert(0, 0, file.provider, None)),
                Extractor(args, ExtractPc.Publish(1), 0), []);
  }

  lemma LateTable(t: Table)
    requires t.Find(0, 0) == Some(1) && 1 in t.rows && 0 !in t.rows
    ensures var t' := t.Update(0, 0, Begin);
      t'.Find(0, 0) == Some(1) && 1 in t'.rows && t'.rows[1].status == Analyzing && 0 !in t'.rows
  {
  }

  /** After the write of the late handler: the extraction, which cannot publish the new analysis, leaves it alone
      because it is not queued any more, and the late handler, coming back, finds its own analysis gone. */
  lemma LateEnds(cfg: Config, file: UploadedFile, text: string, es: seq<Event>, s: System) returns (more: seq<Event>, s': System)
    requires Reaches(cfg, es, s) && TextStored(s.world, text)
    requires s.procs == [Request(0, RequestPc.Done), Uploader(ArgsOf(file), UploadPc.Done, MAX_RETRIES),
                         Extractor(ArgsOf(file), ExtractPc.Done, MAX_RETRIES),
                         Handler(0, 0, 0, Ask(text, 0), 0), Handler(0, 0, 0, HandlerPc.Done, 0),
                         Remover(0, 0, RemovePc.Done), Extractor(ArgsOf(file), ExtractPc.Publish(1), 0)]
    requires var t := s.world.analyses;
      t.Find(0, 0) == Some(1) && 1 in t.rows && t.rows[1].status == Analyzing && 0 !in t.rows
    ensures Reaches(cfg, es + more, s') && Quiescent(s') && s'.world == s.world.Unlink(0)
  {
    hide Reaches, Plays, Table.Find;
    var args := ArgsOf(file);
    var es1, s1 := es, s;
    ExtractGivesUp(cfg, s1.world, args, 1);
    es1, s1 := Go(cfg, es1, s1, 6, [LOST, OK], s1.world, Extractor(args, ExtractPc.MarkFind, 0), []);
    ExtractSkips(cfg, s1.world, args, 1, 0);
    es1, s1 := Go(cfg, es1, s1, 6, [OK, OK], s1.world.Unlink(0), Extractor(args, ExtractPc.Done, 0), []);
    HandlerComesBack(cfg, s1.world, 0, 0, 0, text);
    es1, s1 := Go(cfg, es1, s1, 3, [LOST, OK], s1.world, Handler(0, 0, 0, HandlerPc.Done, 1), []);
    more, s' := Acts(6, [LOST, OK]) + Acts(6, [OK, OK]) + Acts(3, [LOST, OK]), s1;
    assert es + more == es1;
  }

  /** The late handler writes over the new analysis, and the new analysis is never finished. No recovery raised: up
      to this write nothing was given up, and this write gives up the new analysis. */
  lemma LateHandlerStrandsAnalysis(cfg: Config, file: UploadedFile, text: string)
    returns (es: seq<Event>, s: System, more: seq<Event>, s': System)
    requires Accepted(cfg, file) && !cfg.scanning && cfg.extract(file.bytes, file.mime) == Some(text) && text != ""
    ensures Reaches(cfg, es, s) && s.world.lostDocs == {} && s.world.lostRuns == {}
    ensures |s.procs| > 3 && s.procs[3].Handler? && Detached(s.world.analyses, s.procs[3].analysis, s.procs[3].hpc)
    ensures GivenUpRun(s.world, s.procs[3], OK) == Some(1)
    ensures Reaches(cfg, es + [Act(3, OK)] + more, s') && Quiescent(s') && s'.world.lostDocs == {} && s'.world.lostRuns == {1}
    ensures 1 in s'.world.analyses.rows && s'.world.analyses.rows[1].status == Analyzing
  {
    hide Reaches, Plays, Table.Insert, Table.Update, Table.Find;
    es, s := AnalysisIsReplaced(cfg, file, text);
    LateTable(s.world.analyses);
    HandlerBegins(cfg, s.world, 0, 0, 0, text, 0);
    var es1, s1 := Go(cfg, es, s, 3, [OK], s.world.LoseRun(0, 0).Update(0, 0, Begin), Handler(0, 0, 0, Ask(text, 0), 0), []);
    more, s' := LateEnds(cfg, file, text, es1, s1);
    assert Acts(3, [OK]) == [Act(3, OK)];
  }
}
