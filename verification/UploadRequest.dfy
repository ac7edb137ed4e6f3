/** The upload request: save the file, look for duplicates, create the document, start one of three paths. */
module UploadRequest {
  import opened Types
  import opened AnalysisTable
  import opened Pipeline
  import opened BaseTask

  function At(w: World, req: nat, pc: RequestPc): Move {
    Move(w, Request(req, pc), None)
  }

  /** The documents that hold the same bytes and already have a stored object. */
  function Reusable(docs: seq<Document>, hash: string): seq<Candidate> {
    if docs == [] then [] else
    var last := |docs| - 1;
    Reusable(docs[..last], hash) +
      if docs[last].hash == hash && docs[last].key.Some? then [Candidate(last, docs[last].key.value)] else []
  }

  /** The candidates whose extracted text is stored and not empty. */
  function WithText(found: seq<Candidate>, texts: map<nat, string>): seq<Candidate> {
    if found == [] then [] else
    (if found[0].doc in texts && texts[found[0].doc] != "" then [found[0]] else []) + WithText(found[1..], texts)
  }

  /** Document `d` holds bytes with this hash in the object `key`. */
  predicate Holds(docs: seq<Document>, hash: string, d: nat, key: nat) {
    d < |docs| && docs[d].hash == hash && docs[d].key == Some(key)
  }

  predicate HasText(texts: map<nat, string>, d: nat) {
    d in texts && texts[d] != ""
  }

  /** The plan that goes with these candidates: analysis at once when one of them has a text that can be read. */
  ghost predicate Fits(plan: Plan, found: seq<Candidate>, texts: map<nat, string>, readable: bool) {
    && !plan.Full?
    && (plan.AnalyseOnly? <==> readable && exists c :: c in found && HasText(texts, c.doc))
    && (plan.AnalyseOnly? ==>
          exists c :: c in found && HasText(texts, c.doc) && c.key == plan.key && texts[c.doc] == plan.text)
    && (plan.ExtractOnly? ==> exists c :: c in found && c.key == plan.key)
  }

  /** The full pipeline only when no document holds these bytes, analysis at once when one of those that do has a text
      that can be read, and otherwise extraction from the object of one of them. */
  ghost predicate Right(plan: Plan, docs: seq<Document>, hash: string, texts: map<nat, string>, readable: bool) {
    && (plan.Full? <==> forall d, key :: !Holds(docs, hash, d, key))
    && (plan.AnalyseOnly? <==> readable && exists d, key :: Holds(docs, hash, d, key) && HasText(texts, d))
    && (plan.AnalyseOnly? ==> exists d :: Holds(docs, hash, d, plan.key) && HasText(texts, d) && texts[d] == plan.text)
    && (plan.ExtractOnly? ==> exists d :: Holds(docs, hash, d, plan.key))
  }

  lemma FitsIsRight(plan: Plan, found: seq<Candidate>, docs: seq<Document>, hash: string, texts: map<nat, string>, readable: bool)
    requires forall c :: c in found <==> Holds(docs, hash, c.doc, c.key)
    requires if found == [] then plan.Full? else Fits(plan, found, texts, readable)
    ensures Right(plan, docs, hash, texts, readable)
  {
    hide Holds;
    assert forall d, key :: Holds(docs, hash, d, key) ==> Candidate(d, key) in found;
    if found != [] { assert Holds(docs, hash, found[0].doc, found[0].key); }
    if plan.AnalyseOnly? {
      var c :| c in found && HasText(texts, c.doc) && c.key == plan.key && texts[c.doc] == plan.text;
      assert Holds(docs, hash, c.doc, c.key);
    }
  }

  /** Whatever its status, a document is a candidate exactly when it has the hash and a key. */
  lemma {:induction false} ReusableIff(docs: seq<Document>, hash: string, c: Candidate)
    ensures c in Reusable(docs, hash) <==> c.doc < |docs| && docs[c.doc].hash == hash && docs[c.doc].key == Some(c.key)
  {
    if docs != [] { ReusableIff(docs[..|docs| - 1], hash, c); }
  }

  lemma {:induction false} WithTextIff(found: seq<Candidate>, texts: map<nat, string>, c: Candidate)
    ensures c in WithText(found, texts) <==> c in found && c.doc in texts && texts[c.doc] != ""
  {
    if found != [] {
      WithTextIff(found[1..], texts, c);
      assert found == [found[0]] + found[1..];
    }
  }

  /** The order of query results is not specified, so any element may be the one that is used. */
  function Pick(found: seq<Candidate>, o: Outcome): (c: Candidate)
    requires found != []
    ensures c in found
  {
    found[(if o.Ok? then o.pick else 0) % |found|]
  }

  function NewDocument(cfg: Config, file: UploadedFile, req: nat, plan: Plan): Document {
    var hash := cfg.hash(file.bytes);
    match plan
    case Full => Document(req, hash, file.mime, Created, None, Some(req))
    case ExtractOnly(key) => Document(req, hash, file.mime, Uploaded, Some(key), Some(req))
    case AnalyseOnly(key, _) => Document(req, hash, file.mime, Extracted, Some(key), None)
  }

  function Step(cfg: Config, w: World, req: nat, pc: RequestPc, o: Outcome): Move {
    var file := w.File(req);
    match pc
    case Save =>
      var saved := w.(temps := w.temps[req := file.bytes]);
      At(Landed(w, saved, o), req, if o.Raise? then Discard(None) else Candidates)
    case Candidates =>
      if o.Raise? then At(w, req, Discard(None)) else
      var found := Reusable(w.docs, cfg.hash(file.bytes));
      At(w, req, if found == [] then CreateDoc(Full) else Content(found))
    case Content(found) =>
      if o.Raise? || found == [] then At(w, req, Discard(None)) else
      var hits := WithText(found, w.texts);
      if o.Disconnect? || hits == [] then At(w, req, CreateDoc(ExtractOnly(Pick(found, o).key))) else
      var c := Pick(hits, o);
      At(w, req, CreateDoc(AnalyseOnly(c.key, if c.doc in w.texts then w.texts[c.doc] else "")))
    case CreateDoc(plan) =>
      var d := |w.docs|;
      var created := w.(docs := w.docs + [NewDocument(cfg, file, req, plan)]);
      if o.Raise? then (if o.landed then At(created.LoseDoc(d), req, Discard(Some(d))) else At(w, req, Discard(None))) else
      At(created, req,
         match plan
         case Full => EnqueueFirst(d)
         case ExtractOnly(_) => EnqueueExtract(d)
         case AnalyseOnly(_, text) => UpsertText(d, text))
    case EnqueueFirst(d) =>
      var args := Args(d, req, file.mime, file.provider);
      var first := if cfg.scanning then Scanner(args, ScanPc.Start, MAX_RETRIES)
                   else Uploader(args, UploadPc.Start, MAX_RETRIES);
      Move(w, Request(req, if o.Raise? then MarkFailed(d) else RequestPc.Done), Sent(first, o))
    case EnqueueExtract(d) =>
      var task := Extractor(Args(d, req, file.mime, file.provider), ExtractPc.Start, MAX_RETRIES);
      Move(w, Request(req, if o.Raise? then MarkFailed(d) else RequestPc.Done), Sent(task, o))
    case MarkFailed(d) =>
      At(if o.Raise? && !o.landed then w.LoseDoc(d) else w.Finish(d, Failed), req, Discard(Some(d)))
    case Discard(_) => At(Cleaned(w, req, o), req, RequestPc.Done)
    case Done => At(w, req, pc)
    case _ => StepAnalyse(w, req, pc, o)
  }

  /** The steps of a full duplicate: copy the text, create the analysis, publish it. */
  function StepAnalyse(w: World, req: nat, pc: RequestPc, o: Outcome): Move {
    match pc
    case UpsertText(d, text) =>
      if text == "" then At(w, req, MarkFailed(d)) else
      var stored := w.(texts := w.texts[d := text]);
      if o.Raise? then At(Landed(w, stored, o), req, MarkFailed(d))
      else if o.Disconnect? then At(if o.landed then stored else w, req, Degrade(d))
      else At(stored, req, RequestPc.Unlink(d))
    case Degrade(d) =>
      var degraded := if d < |w.docs| then w.(docs := w.docs[d := w.docs[d].(status := Uploaded, temp := Some(req))]) else w;
      At(Landed(w, degraded, o), req, if o.Raise? then MarkFailed(d) else EnqueueExtract(d))
    case Unlink(d) => At(Cleaned(w, req, o), req, RequestPc.Find(d))
    case Find(d) =>
      var found := w.analyses.Find(d, req);
      if o.Raise? then At(w, req, Discard(Some(d)))
      else if found.None? then At(w, req, RequestPc.Insert(d))
      else Got(w, req, d, found.value)
    case Insert(d) =>
      if !w.analyses.Accepts(d, req, None) then
        At(w, req, if o.Raise? then Discard(Some(d)) else RequestPc.FindAgain(d))
      else
        var inserted := w.(analyses := w.analyses.Insert(d, req, w.File(req).provider, None));
        if o.Raise? then At(if o.landed then inserted.LoseRun(d, req) else w, req, Discard(Some(d)))
        else At(inserted, req, RequestPc.Publish(d, w.analyses.next))
    case FindAgain(d) =>
      var found := w.analyses.Find(d, req);
      if o.Raise? || found.None? then At(w, req, Discard(Some(d))) else Got(w, req, d, found.value)
    case Publish(d, run) =>
      Move(w, Request(req, if o.Raise? then RequestPc.MarkFind(d) else RequestPc.Done),
           Sent(Handler(d, run, req, HandlerPc.Start, 0), o))
    case MarkFind(d) =>
      var found := w.analyses.Find(d, req);
      if o.Raise? then At(w.LoseRun(d, req), req, Discard(Some(d)))
      else if found.Some? && found.value in w.analyses.rows && w.analyses.rows[found.value].status == Queued then
        At(w, req, RequestPc.MarkWrite(d))
      else At(w, req, Discard(Some(d)))
    case MarkWrite(d) =>
      At(if o.Raise? && !o.landed then w.LoseRun(d, req) else w.Update(d, req, Break(Transient)), req, Discard(Some(d)))
    case _ => At(w, req, pc)
  }

  function Got(w: World, req: nat, d: nat, run: nat): Move {
    At(w, req,
       if run in w.analyses.rows && w.analyses.rows[run].provider == w.File(req).provider
       then RequestPc.Publish(d, run) else Discard(Some(d)))
  }
}
