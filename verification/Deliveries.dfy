/** What one delivery of a task does to the tables when nobody interferes, call by call from the end: the rows, files
    and messages it leaves, written out. */
module Deliveries {
  import opened Types
  import opened AnalysisTable
  import opened Pipeline
  import opened BaseTask
  import opened Machine
  import opened Stores
  import ScanTask
  import UploadTask
  import ExtractTask
  import UploadRequest
  import Services
  import Consumer

  /** The calls from position `k` on take `p` to its end and `w` to `w'`, and enqueue `sent`. */
  ghost predicate Delivers(cfg: Config, w: World, p: Proc, calls: seq<Outcome>, k: nat, w': World, sent: seq<Proc>)
    decreases |calls| - k
  {
    if p.Ended() then k == |calls| && w' == w && sent == []
    else
      && k < |calls|
      && var m := Step(cfg, w, p, calls[k]);
         match m.spawned
         case None => Delivers(cfg, m.world, m.proc, calls, k + 1, w', sent)
         case Some(q) => sent != [] && sent[0] == q && Delivers(cfg, m.world, m.proc, calls, k + 1, w', sent[1..])
  }

  lemma FollowNothing(cfg: Config, w: World, p: Proc)
    ensures Follow(cfg, w, p, []) == (w, p, []) && Busy(cfg, w, p, [])
  {
  }

  lemma BusyBefore(cfg: Config, w: World, p: Proc, calls: seq<Outcome>)
    requires calls != [] && Busy(cfg, w, p, calls)
    ensures var before := calls[..|calls| - 1]; Busy(cfg, w, p, before) && !Follow(cfg, w, p, before).1.Ended()
  {
  }

  lemma {:induction false} FollowFront(cfg: Config, w: World, p: Proc, calls: seq<Outcome>)
    requires calls != [] && Busy(cfg, w, p, calls)
    ensures !p.Ended()
    ensures var m := Step(cfg, w, p, calls[0]); var (w', p', sent) := Follow(cfg, m.world, m.proc, calls[1..]);
      Follow(cfg, w, p, calls) == (w', p', Sending(m.spawned) + sent) && Busy(cfg, m.world, m.proc, calls[1..])
    decreases |calls|
  {
    hide Step, Follow, Busy, Sending;
    var before, o := calls[..|calls| - 1], calls[|calls| - 1];
    var m := Step(cfg, w, p, calls[0]);
    assert calls == before + [o];
    BusyBefore(cfg, w, p, calls);
    FollowOne(cfg, w, p, before, o);
    if before == [] {
      FollowNothing(cfg, w, p);
      FollowNothing(cfg, m.world, m.proc);
      assert calls[1..] == [];
      assert [] + Sending(m.spawned) == Sending(m.spawned) + [];
    } else {
      FollowFront(cfg, w, p, before);
      assert calls[1..] == before[1..] + [o];
      FollowOne(cfg, m.world, m.proc, before[1..], o);
      BusyOne(cfg, m.world, m.proc, before[1..], o);
      var (w1, p1, sent1) := Follow(cfg, m.world, m.proc, before[1..]);
      var more := Sending(Step(cfg, w1, p1, o).spawned);
      assert (Sending(m.spawned) + sent1) + more == Sending(m.spawned) + (sent1 + more);
    }
  }

  /** A process that nobody interrupts, from its first call to its end, delivers what its calls lead to. */
  lemma {:induction false} EndedDelivers(cfg: Config, w: World, p: Proc, calls: seq<Outcome>, k: nat, w': World, p': Proc,
                                         sent: seq<Proc>)
    requires k <= |calls| && Busy(cfg, w, p, calls[k..])
    requires Follow(cfg, w, p, calls[k..]) == (w', p', sent) && p'.Ended()
    ensures Delivers(cfg, w, p, calls, k, w', sent)
    decreases |calls| - k
  {
    hide Step;
    if k < |calls| {
      FollowFront(cfg, w, p, calls[k..]);
      assert calls[k..][1..] == calls[k + 1..];
      var m := Step(cfg, w, p, calls[k]);
      var (w1, p1, sent1) := Follow(cfg, m.world, m.proc, calls[k + 1..]);
      assert sent == Sending(m.spawned) + sent1;
      EndedDelivers(cfg, m.world, m.proc, calls, k + 1, w', p', sent1);
      if m.spawned.Some? { assert sent[1..] == sent1; } else { assert sent == sent1; }
    } else {
      assert calls[k..] == [];
    }
  }

  /** No call from position `k` on raises. */
  ghost predicate Calm(calls: seq<Outcome>, k: nat) {
    forall i :: k <= i < |calls| ==> !calls[i].Raise?
  }

  /** The document ends with this status; its temp file is removed and forgotten. */
  ghost function Closed(w: World, args: Args, status: DocumentStatus): World {
    w.(docs := if args.doc < |w.docs| then w.docs[args.doc := w.docs[args.doc].(status := status, temp := None)] else w.docs,
       temps := w.temps - {args.req})
  }

  ghost function Marked(w: World, d: nat, status: DocumentStatus): World
    requires d < |w.docs|
  {
    w.(docs := w.docs[d := w.docs[d].(status := status)])
  }

  ghost predicate Active(w: World, d: nat) {
    d < |w.docs| && w.docs[d].status != Cancelled
  }

  // --- The antivirus task ---

  lemma ScanStep(cfg: Config, w: World, args: Args, pc: ScanPc, left: nat, o: Outcome)
    ensures Step(cfg, w, Scanner(args, pc, left), o) == ScanTask.Step(cfg, w, args, pc, left, o)
  {
  }

  lemma ScanUnlinks(cfg: Config, w: World, args: Args, left: nat, calls: seq<Outcome>, k: nat, w': World, sent: seq<Proc>)
    requires Delivers(cfg, w, Scanner(args, ScanPc.Tail(Tail.Unlink), left), calls, k, w', sent) && Calm(calls, k)
    ensures w' == w.(temps := w.temps - {args.req}) && sent == []
  {
    hide Step;
    ScanStep(cfg, w, args, ScanPc.Tail(Tail.Unlink), left, calls[k]);
  }

  lemma ScanCloses(cfg: Config, w: World, args: Args, pc: ScanPc, left: nat, calls: seq<Outcome>, k: nat, w': World,
                   sent: seq<Proc>)
    requires Delivers(cfg, w, Scanner(args, pc, left), calls, k, w', sent) && Calm(calls, k)
    requires pc.WriteInfected? || pc.WriteFailed?
    ensures w' == Closed(w, args, if pc.WriteInfected? then DocumentStatus.Infected else Failed) && sent == []
  {
    hide Step;
    ScanStep(cfg, w, args, pc, left, calls[k]);
    ScanUnlinks(cfg, Step(cfg, w, Scanner(args, pc, left), calls[k]).world, args, left, calls, k + 1, w', sent);
  }

  lemma ScanHandsOn(cfg: Config, w: World, args: Args, left: nat, calls: seq<Outcome>, k: nat, w': World, sent: seq<Proc>)
    requires Delivers(cfg, w, Scanner(args, ScanPc.Enqueue, left), calls, k, w', sent) && Calm(calls, k)
    ensures w' == w && sent == [Uploader(args, UploadPc.Start, 3)]
  {
    hide Step;
    ScanStep(cfg, w, args, ScanPc.Enqueue, left, calls[k]);
  }

  lemma ScanCancels(cfg: Config, w: World, args: Args, left: nat, calls: seq<Outcome>, k: nat, w': World, sent: seq<Proc>)
    requires Delivers(cfg, w, Scanner(args, ScanPc.WriteCancelled, left), calls, k, w', sent) && Calm(calls, k)
    requires args.doc < |w.docs|
    ensures w' == w.(docs := w.docs[args.doc := w.docs[args.doc].(status := Cancelled, temp := None)]) && sent == []
  {
    hide Step;
    ScanStep(cfg, w, args, ScanPc.WriteCancelled, left, calls[k]);
  }

  /** An infected file is removed and goes nowhere; no verdict counts as the setting says; a clean one is handed on. */
  lemma VerdictDecides(cfg: Config, w: World, args: Args, left: nat, calls: seq<Outcome>, k: nat, w': World, sent: seq<Proc>)
    requires Delivers(cfg, w, Scanner(args, Scan, left), calls, k, w', sent) && Calm(calls, k)
    ensures k < |calls|
    ensures
      if args.req !in w.temps || calls[k].Unavailable? then
        if cfg.failClosed then w' == Closed(w, args, Failed) && sent == []
        else w' == w && sent == [Uploader(args, UploadPc.Start, 3)]
      else if calls[k].Infected? then w' == Closed(w, args, DocumentStatus.Infected) && sent == []
      else w' == w.(clean := w.clean + {w.temps[args.req]}) && sent == [Uploader(args, UploadPc.Start, 3)]
  {
    hide Step;
    ScanStep(cfg, w, args, Scan, left, calls[k]);
    var m := Step(cfg, w, Scanner(args, Scan, left), calls[k]);
    if m.proc.spc.Enqueue? {
      ScanHandsOn(cfg, m.world, args, left, calls, k + 1, w', sent);
    } else {
      ScanCloses(cfg, m.world, args, m.proc.spc, left, calls, k + 1, w', sent);
    }
  }

  lemma ScanWorks(cfg: Config, w: World, args: Args, left: nat, calls: seq<Outcome>, k: nat, w': World, sent: seq<Proc>)
    requires Delivers(cfg, w, Scanner(args, WriteScanning, left), calls, k, w', sent) && Calm(calls, k)
    requires args.doc < |w.docs| && args.req in w.temps
    ensures k + 1 < |calls|
    ensures var w1, verdict := Marked(w, args.doc, Scanning), calls[k + 1];
      if verdict.Infected? then w' == Closed(w, args, DocumentStatus.Infected) && sent == []
      else if verdict.Unavailable? && cfg.failClosed then w' == Closed(w, args, Failed) && sent == []
      else
        && sent == [Uploader(args, UploadPc.Start, 3)]
        && w' == if verdict.Unavailable? then w1 else w1.(clean := w.clean + {w.temps[args.req]})
  {
    hide Step;
    ScanStep(cfg, w, args, WriteScanning, left, calls[k]);
    var w1 := Marked(w, args.doc, Scanning);
    VerdictDecides(cfg, w1, args, left, calls, k + 1, w', sent);
    ClosedOver(w, args, Scanning);
  }

  lemma ClosedOver(w: World, args: Args, status: DocumentStatus)
    requires args.doc < |w.docs|
    ensures forall last :: Closed(Marked(w, args.doc, status), args, last) == Closed(w, args, last)
  {
    var w1 := Marked(w, args.doc, status);
    forall last ensures Closed(w1, args, last) == Closed(w, args, last) {
      var doc := w.docs[args.doc].(status := last, temp := None);
      assert w1.docs[args.doc := doc] == w.docs[args.doc := doc];
    }
  }

  /** The whole scan task. */
  lemma ScanDelivery(cfg: Config, w: World, args: Args, left: nat, calls: seq<Outcome>, w': World, sent: seq<Proc>)
    requires Delivers(cfg, w, Scanner(args, ScanPc.Start, left), calls, 0, w', sent) && Calm(calls, 0)
    ensures !Active(w, args.doc) ==> w' == w.(temps := w.temps - {args.req}) && sent == []
    ensures Active(w, args.doc) && args.req !in w.temps ==>
      w' == w.(docs := w.docs[args.doc := w.docs[args.doc].(status := Cancelled, temp := None)]) && sent == []
    ensures Active(w, args.doc) && args.req in w.temps ==>
      && |calls| > 3
      && var w1, verdict := Marked(w, args.doc, Scanning), calls[3];
         if verdict.Infected? then w' == Closed(w, args, DocumentStatus.Infected) && sent == []
         else if verdict.Unavailable? && cfg.failClosed then w' == Closed(w, args, Failed) && sent == []
         else
           && sent == [Uploader(args, UploadPc.Start, 3)]
           && w' == if verdict.Unavailable? then w1 else w1.(clean := w.clean + {w.temps[args.req]})
  {
    hide Step, Closed, Marked;
    ScanStep(cfg, w, args, ScanPc.Start, left, calls[0]);
    if !Active(w, args.doc) {
      ScanUnlinks(cfg, w, args, left, calls, 1, w', sent);
    } else {
      ScanStep(cfg, w, args, ScanPc.CheckPath, left, calls[1]);
      if args.req in w.temps {
        ScanWorks(cfg, w, args, left, calls, 2, w', sent);
      } else {
        ScanCancels(cfg, w, args, left, calls, 2, w', sent);
      }
    }
  }

  // --- The storage task ---

  lemma StoreStep(cfg: Config, w: World, args: Args, pc: UploadPc, left: nat, o: Outcome)
    ensures Step(cfg, w, Uploader(args, pc, left), o) == UploadTask.Step(w, args, pc, left, o)
  {
  }

  lemma StoreUnlinks(cfg: Config, w: World, args: Args, left: nat, calls: seq<Outcome>, k: nat, w': World, sent: seq<Proc>)
    requires Delivers(cfg, w, Uploader(args, UploadPc.Tail(Tail.Unlink), left), calls, k, w', sent) && Calm(calls, k)
    ensures w' == w.(temps := w.temps - {args.req}) && sent == []
  {
    hide Step;
    StoreStep(cfg, w, args, UploadPc.Tail(Tail.Unlink), left, calls[k]);
  }

  lemma StoreCloses(cfg: Config, w: World, args: Args, left: nat, calls: seq<Outcome>, k: nat, w': World, sent: seq<Proc>)
    requires Delivers(cfg, w, Uploader(args, UploadPc.WriteFailed, left), calls, k, w', sent) && Calm(calls, k)
    ensures w' == Closed(w, args, Failed) && sent == []
  {
    hide Step;
    StoreStep(cfg, w, args, UploadPc.WriteFailed, left, calls[k]);
    StoreUnlinks(cfg, Step(cfg, w, Uploader(args, UploadPc.WriteFailed, left), calls[k]).world, args, left, calls, k + 1, w', sent);
  }

  lemma StoreCancels(cfg: Config, w: World, args: Args, left: nat, calls: seq<Outcome>, k: nat, w': World, sent: seq<Proc>)
    requires Delivers(cfg, w, Uploader(args, UploadPc.WriteCancelled, left), calls, k, w', sent) && Calm(calls, k)
    requires args.doc < |w.docs|
    ensures w' == w.(docs := w.docs[args.doc := w.docs[args.doc].(status := Cancelled, temp := None)]) && sent == []
  {
    hide Step;
    StoreStep(cfg, w, args, UploadPc.WriteCancelled, left, calls[k]);
  }

  lemma StoreHandsOn(cfg: Config, w: World, args: Args, left: nat, calls: seq<Outcome>, k: nat, w': World, sent: seq<Proc>)
    requires Delivers(cfg, w, Uploader(args, UploadPc.Enqueue, left), calls, k, w', sent) && Calm(calls, k)
    ensures w' == w && sent == [Extractor(args, ExtractPc.Start, 3)]
  {
    hide Step;
    StoreStep(cfg, w, args, UploadPc.Enqueue, left, calls[k]);
  }

  /** The document has its object, and goes on to extraction. */
  ghost function Stored(w: World, args: Args): World
    requires args.doc < |w.docs|
  {
    w.(docs := w.docs[args.doc := w.docs[args.doc].(key := Some(args.req), status := Uploaded)])
  }

  lemma StoreRecords(cfg: Config, w: World, args: Args, left: nat, calls: seq<Outcome>, k: nat, w': World, sent: seq<Proc>)
    requires Delivers(cfg, w, Uploader(args, WriteUploaded, left), calls, k, w', sent) && Calm(calls, k)
    requires args.doc < |w.docs|
    ensures w' == Stored(w, args) && sent == [Extractor(args, ExtractPc.Start, 3)]
  {
    hide Step;
    StoreStep(cfg, w, args, WriteUploaded, left, calls[k]);
    StoreHandsOn(cfg, Stored(w, args), args, left, calls, k + 1, w', sent);
  }

  lemma StorePuts(cfg: Config, w: World, args: Args, left: nat, calls: seq<Outcome>, k: nat, w': World, sent: seq<Proc>)
    requires Delivers(cfg, w, Uploader(args, Put, left), calls, k, w', sent) && Calm(calls, k)
    requires args.doc < |w.docs| && args.req in w.temps
    ensures k < |calls|
    ensures var w1 := w.(objects := w.objects[args.req := w.temps[args.req]]);
      if calls[k].Refuse? then w' == Closed(if calls[k].landed then w1 else w, args, Failed) && sent == []
      else w' == Stored(w1, args) && sent == [Extractor(args, ExtractPc.Start, 3)]
  {
    hide Step, Closed, Stored;
    StoreStep(cfg, w, args, Put, left, calls[k]);
    var w1 := w.(objects := w.objects[args.req := w.temps[args.req]]);
    if calls[k].Refuse? {
      StoreCloses(cfg, if calls[k].landed then w1 else w, args, left, calls, k + 1, w', sent);
    } else {
      StoreRecords(cfg, w1, args, left, calls, k + 1, w', sent);
    }
  }

  /** An object that is there already is not stored again: the document gets its key and goes on to extraction. */
  lemma StoreLooks(cfg: Config, w: World, args: Args, left: nat, calls: seq<Outcome>, k: nat, w': World, sent: seq<Proc>)
    requires Delivers(cfg, w, Uploader(args, Head, left), calls, k, w', sent) && Calm(calls, k)
    requires args.doc < |w.docs|
    ensures k < |calls|
    ensures calls[k].Refuse? ==> w' == Closed(w, args, Failed) && sent == []
    ensures !calls[k].Refuse? && args.req in w.objects ==>
      w' == Stored(w, args) && sent == [Extractor(args, ExtractPc.Start, 3)]
    ensures !calls[k].Refuse? && args.req !in w.objects && args.req in w.temps ==>
      && k + 1 < |calls|
      && var w1 := w.(objects := w.objects[args.req := w.temps[args.req]]);
         if calls[k + 1].Refuse? then w' == Closed(if calls[k + 1].landed then w1 else w, args, Failed) && sent == []
         else w' == Stored(w1, args) && sent == [Extractor(args, ExtractPc.Start, 3)]
  {
    hide Step, Closed, Stored;
    StoreStep(cfg, w, args, Head, left, calls[k]);
    if calls[k].Refuse? {
      StoreCloses(cfg, w, args, left, calls, k + 1, w', sent);
    } else if args.req in w.objects {
      StoreRecords(cfg, w, args, left, calls, k + 1, w', sent);
    } else if args.req in w.temps {
      StorePuts(cfg, w, args, left, calls, k + 1, w', sent);
    }
  }

  /** A refusal by the storage, at the first or the second of its calls. */
  ghost predicate Refused(w: World, n: nat, calls: seq<Outcome>, k: nat) {
    k < |calls| && (calls[k].Refuse? || (n !in w.objects && k + 1 < |calls| && calls[k + 1].Refuse?))
  }

  /** The whole upload task: it stores the file once, whatever it finds, unless the storage refuses. */
  lemma StoreDelivery(cfg: Config, w: World, args: Args, left: nat, calls: seq<Outcome>, w': World, sent: seq<Proc>)
    requires Delivers(cfg, w, Uploader(args, UploadPc.Start, left), calls, 0, w', sent) && Calm(calls, 0)
    ensures !Active(w, args.doc) ==> w' == w.(temps := w.temps - {args.req}) && sent == []
    ensures Active(w, args.doc) && args.req !in w.temps ==>
      w' == w.(docs := w.docs[args.doc := w.docs[args.doc].(status := Cancelled, temp := None)]) && sent == []
    ensures Active(w, args.doc) && args.req in w.temps && Refused(w, args.req, calls, 3) ==>
      w'.docs == Closed(w, args, Failed).docs && w'.temps == w.temps - {args.req} && sent == []
    ensures Active(w, args.doc) && args.req in w.temps && !Refused(w, args.req, calls, 3) ==>
      && sent == [Extractor(args, ExtractPc.Start, 3)]
      && w' == w.(docs := w.docs[args.doc := w.docs[args.doc].(key := Some(args.req), status := Uploaded)],
                  objects := if args.req in w.objects then w.objects else w.objects[args.req := w.temps[args.req]])
  {
    hide Step, Marked;
    StoreStep(cfg, w, args, UploadPc.Start, left, calls[0]);
    if !Active(w, args.doc) {
      StoreUnlinks(cfg, w, args, left, calls, 1, w', sent);
    } else {
      StoreStep(cfg, w, args, UploadPc.CheckPath, left, calls[1]);
      if args.req in w.temps {
        StoreWorks(cfg, w, args, left, calls, 2, w', sent);
      } else {
        StoreCancels(cfg, w, args, left, calls, 2, w', sent);
      }
    }
  }

  lemma StoreWorks(cfg: Config, w: World, args: Args, left: nat, calls: seq<Outcome>, k: nat, w': World, sent: seq<Proc>)
    requires Delivers(cfg, w, Uploader(args, WriteUploading, left), calls, k, w', sent) && Calm(calls, k)
    requires args.doc < |w.docs| && args.req in w.temps
    ensures Refused(w, args.req, calls, k + 1) ==>
      w'.docs == Closed(w, args, Failed).docs && w'.temps == w.temps - {args.req} && sent == []
    ensures !Refused(w, args.req, calls, k + 1) ==>
      && sent == [Extractor(args, ExtractPc.Start, 3)]
      && w' == w.(docs := w.docs[args.doc := w.docs[args.doc].(key := Some(args.req), status := Uploaded)],
                  objects := if args.req in w.objects then w.objects else w.objects[args.req := w.temps[args.req]])
  {
    hide Step;
    StoreStep(cfg, w, args, WriteUploading, left, calls[k]);
    var w1, d := Marked(w, args.doc, Uploading), args.doc;
    StoreLooks(cfg, w1, args, left, calls, k + 1, w', sent);
    ClosedOver(w, args, Uploading);
    var doc := w.docs[d].(key := Some(args.req), status := Uploaded);
    assert w1.docs[d := doc] == w.docs[d := doc];
    var closed := w.docs[d].(status := Failed, temp := None);
    assert w1.docs[d := closed] == w.docs[d := closed];
  }

  // --- The extraction task ---

  lemma ReadStep(cfg: Config, w: World, args: Args, pc: ExtractPc, left: nat, o: Outcome)
    ensures Step(cfg, w, Extractor(args, pc, left), o) == ExtractTask.Step(cfg, w, args, pc, left, o)
  {
  }

  lemma ReadUnlinks(cfg: Config, w: World, args: Args, left: nat, calls: seq<Outcome>, k: nat, w': World, sent: seq<Proc>)
    requires Delivers(cfg, w, Extractor(args, ExtractPc.Tail(Tail.Unlink), left), calls, k, w', sent) && Calm(calls, k)
    ensures w' == w.(temps := w.temps - {args.req}) && sent == []
  {
    hide Step, ExtractTask.StepDispatch;
    ReadStep(cfg, w, args, ExtractPc.Tail(Tail.Unlink), left, calls[k]);
  }

  lemma ReadCloses(cfg: Config, w: World, args: Args, left: nat, calls: seq<Outcome>, k: nat, w': World, sent: seq<Proc>)
    requires Delivers(cfg, w, Extractor(args, ExtractPc.WriteFailed, left), calls, k, w', sent) && Calm(calls, k)
    ensures w' == Closed(w, args, Failed) && sent == []
  {
    hide Step, ExtractTask.StepDispatch, ExtractTask.StepFailure;
    ReadStep(cfg, w, args, ExtractPc.WriteFailed, left, calls[k]);
    ReadUnlinks(cfg, Step(cfg, w, Extractor(args, ExtractPc.WriteFailed, left), calls[k]).world, args, left, calls, k + 1, w', sent);
  }

  /** The table gains this row under its next id. */
  ghost predicate Adds(t: Table, t': Table, row: Analysis) {
    t'.rows == t.rows[t.next := row] && t'.next == t.next + 1 && t'.removed == t.removed
  }

  /** The analysis of this document and request is published, and created when there is none. */
  ghost predicate Dispatched(w: World, d: nat, req: nat, provider: Provider, w': World, sent: seq<Proc>) {
    match w.analyses.Find(d, req)
    case Some(a) => w' == w && sent == [Handler(d, a, req, HandlerPc.Start, 0)]
    case None =>
      && w' == w.(analyses := w'.analyses)
      && Adds(w.analyses, w'.analyses, Analysis(d, req, provider, Queued, None, None, None, None))
      && sent == [Handler(d, w.analyses.next, req, HandlerPc.Start, 0)]
  }

  lemma ReadPublishes(cfg: Config, w: World, args: Args, run: nat, left: nat, calls: seq<Outcome>, k: nat, w': World,
                      sent: seq<Proc>)
    requires Delivers(cfg, w, Extractor(args, ExtractPc.Publish(run), left), calls, k, w', sent) && Calm(calls, k)
    ensures w' == w && sent == [Handler(args.doc, run, args.req, HandlerPc.Start, 0)]
  {
    hide Step, ExtractTask.StepFailure;
    ReadStep(cfg, w, args, ExtractPc.Publish(run), left, calls[k]);
  }

  /** An analysis found under this document and request is one for the same provider. */
  ghost predicate Agreed(t: Table, d: nat, req: nat, provider: Provider) {
    t.Find(d, req).Some? ==> t.Find(d, req).value in t.rows && t.rows[t.Find(d, req).value].provider == provider
  }

  lemma ReadInserts(cfg: Config, w: World, args: Args, left: nat, calls: seq<Outcome>, k: nat, w': World, sent: seq<Proc>)
    requires Delivers(cfg, w, Extractor(args, ExtractPc.Insert, left), calls, k, w', sent) && Calm(calls, k)
    requires w.analyses.Find(args.doc, args.req).None?
    ensures Dispatched(w, args.doc, args.req, args.provider, w', sent)
  {
    hide Step, ExtractTask.StepFailure;
    ReadStep(cfg, w, args, ExtractPc.Insert, left, calls[k]);
    var w1 := w.(analyses := w.analyses.Insert(args.doc, args.req, args.provider, None));
    ReadPublishes(cfg, w1, args, w.analyses.next, left, calls, k + 1, w', sent);
  }

  lemma ReadDispatches(cfg: Config, w: World, args: Args, left: nat, calls: seq<Outcome>, k: nat, w': World, sent: seq<Proc>)
    requires Delivers(cfg, w, Extractor(args, ExtractPc.Find, left), calls, k, w', sent) && Calm(calls, k)
    requires Agreed(w.analyses, args.doc, args.req, args.provider)
    ensures Dispatched(w, args.doc, args.req, args.provider, w', sent)
  {
    hide Step, ExtractTask.StepFailure;
    ReadStep(cfg, w, args, ExtractPc.Find, left, calls[k]);
    var found := w.analyses.Find(args.doc, args.req);
    if found.Some? {
      ReadPublishes(cfg, w, args, found.value, left, calls, k + 1, w', sent);
    } else {
      hide Dispatched;
      ReadInserts(cfg, w, args, left, calls, k + 1, w', sent);
    }
  }

  /** A document that has its text already: remove the file, and see to the analysis. */
  lemma ReadCompletes(cfg: Config, w: World, args: Args, left: nat, calls: seq<Outcome>, k: nat, w': World, sent: seq<Proc>)
    requires Delivers(cfg, w, Extractor(args, ExtractPc.Unlink, left), calls, k, w', sent) && Calm(calls, k)
    requires Agreed(w.analyses, args.doc, args.req, args.provider)
    ensures Dispatched(w.(temps := w.temps - {args.req}), args.doc, args.req, args.provider, w', sent)
  {
    hide Step, ExtractTask.StepDispatch, ExtractTask.StepFailure, Dispatched;
    ReadStep(cfg, w, args, ExtractPc.Unlink, left, calls[k]);
    ReadDispatches(cfg, w.(temps := w.temps - {args.req}), args, left, calls, k + 1, w', sent);
  }

  /** The text is stored, the document extracted, its file gone. */
  ghost function Texted(w: World, args: Args, text: string): World {
    Closed(w, args, Extracted).(texts := w.texts[args.doc := text])
  }

  lemma ReadMarks(cfg: Config, w: World, args: Args, left: nat, calls: seq<Outcome>, k: nat, w': World, sent: seq<Proc>)
    requires Delivers(cfg, w, Extractor(args, WriteExtracted, left), calls, k, w', sent) && Calm(calls, k)
    requires Agreed(w.analyses, args.doc, args.req, args.provider)
    ensures Dispatched(Closed(w, args, Extracted), args.doc, args.req, args.provider, w', sent)
  {
    hide Step, ExtractTask.StepDispatch, ExtractTask.StepFailure, Dispatched;
    ReadStep(cfg, w, args, WriteExtracted, left, calls[k]);
    var w1 := Step(cfg, w, Extractor(args, WriteExtracted, left), calls[k]).world;
    ReadCompletes(cfg, w1, args, left, calls, k + 1, w', sent);
  }

  lemma ReadStores(cfg: Config, w: World, args: Args, text: string, left: nat, calls: seq<Outcome>, k: nat, w': World,
                   sent: seq<Proc>)
    requires Delivers(cfg, w, Extractor(args, Upsert(text), left), calls, k, w', sent) && Calm(calls, k)
    requires Agreed(w.analyses, args.doc, args.req, args.provider)
    ensures Dispatched(Texted(w, args, text), args.doc, args.req, args.provider, w', sent)
  {
    hide Step, ExtractTask.StepDispatch, ExtractTask.StepFailure, Dispatched;
    ReadStep(cfg, w, args, Upsert(text), left, calls[k]);
    ReadMarks(cfg, w.(texts := w.texts[args.doc := text]), args, left, calls, k + 1, w', sent);
  }

  /** What becomes of a document whose file holds these bytes. */
  ghost predicate Read(cfg: Config, w: World, args: Args, bytes: Bytes, w': World, sent: seq<Proc>) {
    match cfg.extract(bytes, args.mime)
    case Some(text) => Dispatched(Texted(w, args, text), args.doc, args.req, args.provider, w', sent)
    case None => w' == Closed(w, args, Failed) && sent == []
  }

  lemma ReadReads(cfg: Config, w: World, args: Args, key: Option<nat>, left: nat, calls: seq<Outcome>, k: nat, w': World,
                  sent: seq<Proc>)
    requires Delivers(cfg, w, Extractor(args, Extract(key, false), left), calls, k, w', sent) && Calm(calls, k)
    requires Agreed(w.analyses, args.doc, args.req, args.provider) && args.req in w.temps
    ensures Read(cfg, w, args, w.temps[args.req], w', sent)
  {
    hide Step, ExtractTask.StepDispatch, ExtractTask.StepFailure, Dispatched, Texted, Closed;
    ReadStep(cfg, w, args, Extract(key, false), left, calls[k]);
    match cfg.extract(w.temps[args.req], args.mime)
    case Some(text) => ReadStores(cfg, w, args, text, left, calls, k + 1, w', sent);
    case None => ReadCloses(cfg, w, args, left, calls, k + 1, w', sent);
  }

  lemma ReadWorks(cfg: Config, w: World, args: Args, key: Option<nat>, left: nat, calls: seq<Outcome>, k: nat, w': World,
                  sent: seq<Proc>)
    requires Delivers(cfg, w, Extractor(args, WriteExtracting(key), left), calls, k, w', sent) && Calm(calls, k)
    requires Agreed(w.analyses, args.doc, args.req, args.provider) && args.req in w.temps && args.doc < |w.docs|
    ensures Read(cfg, w, args, w.temps[args.req], w', sent)
  {
    hide Step, ExtractTask.StepDispatch, ExtractTask.StepFailure, Dispatched;
    ReadStep(cfg, w, args, WriteExtracting(key), left, calls[k]);
    var w1 := Marked(w, args.doc, Extracting);
    ReadReads(cfg, w1, args, key, left, calls, k + 1, w', sent);
    ClosedOver(w, args, Extracting);
    forall text ensures Texted(w1, args, text) == Texted(w, args, text) {
    }
  }

  lemma ReadRestores(cfg: Config, w: World, args: Args, key: nat, left: nat, calls: seq<Outcome>, k: nat, w': World,
                     sent: seq<Proc>)
    requires Delivers(cfg, w, Extractor(args, Restore(Some(key), false), left), calls, k, w', sent) && Calm(calls, k)
    requires Agreed(w.analyses, args.doc, args.req, args.provider) && args.doc < |w.docs|
    ensures k < |calls|
    ensures
      if key in w.objects && !calls[k].Refuse? then
        Read(cfg, w.(temps := w.temps[args.req := w.objects[key]]), args, w.objects[key], w', sent)
      else w' == Closed(w, args, Failed) && sent == []
  {
    hide Step, ExtractTask.StepDispatch, ExtractTask.StepFailure, Dispatched, Texted, Closed;
    ReadStep(cfg, w, args, Restore(Some(key), false), left, calls[k]);
    if key in w.objects && !calls[k].Refuse? {
      ReadWorks(cfg, w.(temps := w.temps[args.req := w.objects[key]]), args, Some(key), left, calls, k + 1, w', sent);
    } else {
      ReadCloses(cfg, w, args, left, calls, k + 1, w', sent);
    }
  }

  lemma ReadChecks(cfg: Config, w: World, args: Args, key: Option<nat>, left: nat, calls: seq<Outcome>, k: nat, w': World,
                   sent: seq<Proc>)
    requires Delivers(cfg, w, Extractor(args, ExtractPc.CheckPath(key), left), calls, k, w', sent) && Calm(calls, k)
    requires Agreed(w.analyses, args.doc, args.req, args.provider) && args.doc < |w.docs|
    ensures args.req in w.temps ==> Read(cfg, w, args, w.temps[args.req], w', sent)
    ensures args.req !in w.temps && key.Some? ==>
      && k + 1 < |calls|
      && if key.value in w.objects && !calls[k + 1].Refuse? then
           Read(cfg, w.(temps := w.temps[args.req := w.objects[key.value]]), args, w.objects[key.value], w', sent)
         else w' == Closed(w, args, Failed) && sent == []
  {
    hide Step, ExtractTask.StepDispatch, ExtractTask.StepFailure, Read, Closed;
    ReadStep(cfg, w, args, ExtractPc.CheckPath(key), left, calls[k]);
    if args.req in w.temps {
      ReadWorks(cfg, w, args, key, left, calls, k + 1, w', sent);
    } else if key.Some? {
      ReadRestores(cfg, w, args, key.value, left, calls, k + 1, w', sent);
    }
  }

  /** The whole extraction task: the status decides. */
  lemma ReadDelivery(cfg: Config, w: World, args: Args, left: nat, calls: seq<Outcome>, w': World, sent: seq<Proc>)
    requires Delivers(cfg, w, Extractor(args, ExtractPc.Start, left), calls, 0, w', sent) && Calm(calls, 0)
    requires Agreed(w.analyses, args.doc, args.req, args.provider)
    ensures args.doc >= |w.docs| || w.docs[args.doc].status.Bad() ==> w' == w.(temps := w.temps - {args.req}) && sent == []
    ensures args.doc < |w.docs| ==>
      var doc := w.docs[args.doc];
      && (doc.status.Created? || doc.status.Scanning? || doc.status.Uploading? ==> w' == w && sent == [])
      && (doc.status.Extracted? ==>
            Dispatched(w.(temps := w.temps - {args.req}), args.doc, args.req, args.provider, w', sent))
      && ((doc.status.Uploaded? || doc.status.Extracting?) && args.req in w.temps ==>
            Read(cfg, w, args, w.temps[args.req], w', sent))
      && ((doc.status.Uploaded? || doc.status.Extracting?) && args.req !in w.temps && doc.key.Some? ==>
            && |calls| > 2
            && var key := doc.key.value;
               if key in w.objects && !calls[2].Refuse? then
                 Read(cfg, w.(temps := w.temps[args.req := w.objects[key]]), args, w.objects[key], w', sent)
               else w' == Closed(w, args, Failed) && sent == [])
  {
    hide Step, ExtractTask.StepDispatch, ExtractTask.StepFailure, Read, Closed, Dispatched;
    ReadStep(cfg, w, args, ExtractPc.Start, left, calls[0]);
    var pc := Step(cfg, w, Extractor(args, ExtractPc.Start, left), calls[0]).proc.epc;
    if pc.Tail? {
      ReadUnlinks(cfg, w, args, left, calls, 1, w', sent);
    } else if pc.Unlink? {
      ReadCompletes(cfg, w, args, left, calls, 1, w', sent);
    } else if pc.CheckPath? {
      ReadChecks(cfg, w, args, pc.key, left, calls, 1, w', sent);
    }
  }

  // --- Calls that raise ---

  /** A raised call of a task took effect as a whole or not at all. */
  ghost predicate AllOrNothing(w: World, m: Move, ok: Move, landed: bool) {
    if landed then m.world == ok.world && m.spawned == ok.spawned else m.world == w && m.spawned.None?
  }

  /** The task begins anew with one retry fewer, or ends with its failure callback. */
  lemma ScanRaises(cfg: Config, w: World, args: Args, pc: ScanPc, left: nat, o: Outcome)
    requires o.Raise? && !pc.CheckPath? && !pc.Tail? && !pc.Done?
    ensures var m := Step(cfg, w, Scanner(args, pc, left), o);
      && m.proc == (if left == 0 || o.fatal then Scanner(args, ScanPc.Tail(ReadStatus), left)
                    else Scanner(args, ScanPc.Start, left - 1))
      && if pc.Scan? then m.world == w && m.spawned.None?
         else AllOrNothing(w, m, Step(cfg, w, Scanner(args, pc, left), Ok(0)), o.landed)
  {
    hide Step, World.Finish, World.SetStatus;
    ScanStep(cfg, w, args, pc, left, o);
    ScanStep(cfg, w, args, pc, left, Ok(0));
  }

  lemma StoreRaises(cfg: Config, w: World, args: Args, pc: UploadPc, left: nat, o: Outcome)
    requires o.Raise? && !pc.CheckPath? && !pc.Tail? && !pc.Done? && (pc.Put? ==> args.req in w.temps)
    ensures var m := Step(cfg, w, Uploader(args, pc, left), o);
      && m.proc == (if left == 0 || o.fatal then Uploader(args, UploadPc.Tail(ReadStatus), left)
                    else Uploader(args, UploadPc.Start, left - 1))
      && AllOrNothing(w, m, Step(cfg, w, Uploader(args, pc, left), Ok(0)), o.landed)
  {
    hide Step, World.Finish, World.SetStatus, UploadTask.SetUploaded;
    StoreStep(cfg, w, args, pc, left, o);
    StoreStep(cfg, w, args, pc, left, Ok(0));
  }

  /** A file that vanished before it was stored is not tried again. */
  lemma StoreMissesFile(cfg: Config, w: World, args: Args, left: nat, o: Outcome)
    requires args.req !in w.temps
    ensures Step(cfg, w, Uploader(args, Put, left), o) == Move(w, Uploader(args, UploadPc.Tail(ReadStatus), left), None)
  {
    hide Step;
    StoreStep(cfg, w, args, Put, left, o);
  }

  lemma ReadRaises(cfg: Config, w: World, args: Args, pc: ExtractPc, left: nat, o: Outcome)
    requires o.Raise? && !pc.CheckPath? && !pc.Unlink? && !pc.Tail? && !pc.Done?
    requires !pc.ReadExtracted? && !pc.MarkFind? && !pc.MarkWrite?
    requires (pc.Restore? ==> pc.key.Some?) && (pc.Extract? ==> args.req in w.temps)
    ensures var m := Step(cfg, w, Extractor(args, pc, left), o);
      && m.proc == (if left == 0 || o.fatal then Extractor(args, ReadExtracted, left)
                    else Extractor(args, ExtractPc.Start, left - 1))
      && AllOrNothing(w, m, Step(cfg, w, Extractor(args, pc, left), Ok(0)), o.landed)
  {
    hide Step, World.Finish, World.SetStatus, Table.Insert, ExtractTask.StepFailure;
    ReadStep(cfg, w, args, pc, left, o);
    ReadStep(cfg, w, args, pc, left, Ok(0));
  }

  /** An insert that the unique index refuses looks again, and publishes what it finds then; an analysis of another
      provider, or none at all, is an error, which is tried again. */
  lemma ReadLooksAgain(cfg: Config, w: World, args: Args, left: nat, o: Outcome)
    requires !o.Raise?
    ensures var found, agreed := w.analyses.Find(args.doc, args.req), Agreed(w.analyses, args.doc, args.req, args.provider);
      var retry := if left == 0 then Extractor(args, ReadExtracted, 0) else Extractor(args, ExtractPc.Start, left - 1);
      && (found.Some? ==>
            Step(cfg, w, Extractor(args, ExtractPc.Insert, left), o) == Move(w, Extractor(args, ExtractPc.FindAgain, left), None))
      && (found.Some? && !agreed ==> Step(cfg, w, Extractor(args, ExtractPc.Find, left), o) == Move(w, retry, None))
      && Step(cfg, w, Extractor(args, ExtractPc.FindAgain, left), o) ==
           Move(w, if found.Some? && agreed then Extractor(args, ExtractPc.Publish(found.value), left) else retry, None)
  {
    hide Step, ExtractTask.StepFailure;
    ReadStep(cfg, w, args, ExtractPc.Insert, left, o);
    ReadStep(cfg, w, args, ExtractPc.Find, left, o);
    ReadStep(cfg, w, args, ExtractPc.FindAgain, left, o);
  }

  /** A file that vanished is restored once; after that, and without a key, extraction fails for good. */
  lemma ReadMissesFile(cfg: Config, w: World, args: Args, pc: ExtractPc, left: nat, o: Outcome)
    ensures pc.Extract? && args.req !in w.temps && !pc.again ==>
      Step(cfg, w, Extractor(args, pc, left), o) == Move(w, Extractor(args, Restore(pc.key, true), left), None)
    ensures pc.Extract? && args.req !in w.temps && pc.again ==>
      Step(cfg, w, Extractor(args, pc, left), o) == Move(w, Extractor(args, ReadExtracted, left), None)
    ensures pc.Extract? && args.req in w.temps && pc.again && !o.Raise?
            && cfg.extract(w.temps[args.req], args.mime).None? ==>
      Step(cfg, w, Extractor(args, pc, left), o) == Move(w, Extractor(args, ReadExtracted, left), None)
    ensures pc.Restore? && pc.key.None? ==>
      Step(cfg, w, Extractor(args, pc, left), o) == Move(w, Extractor(args, ReadExtracted, left), None)
  {
    hide Step, ExtractTask.StepDispatch, ExtractTask.StepFailure;
    ReadStep(cfg, w, args, pc, left, o);
  }

  /** The failure callback: the document fails, unless it is gone or was cancelled; its file goes in any case. */
  lemma ScanFails(cfg: Config, w: World, args: Args, left: nat, calls: seq<Outcome>, k: nat, w': World, sent: seq<Proc>)
    requires Delivers(cfg, w, Scanner(args, ScanPc.Tail(ReadStatus), left), calls, k, w', sent) && Calm(calls, k)
    ensures sent == [] && w' == if Active(w, args.doc) then Closed(w, args, Failed) else w.(temps := w.temps - {args.req})
  {
    hide Step;
    ScanStep(cfg, w, args, ScanPc.Tail(ReadStatus), left, calls[k]);
    if Active(w, args.doc) {
      ScanStep(cfg, w, args, ScanPc.Tail(Tail.WriteFailed), left, calls[k + 1]);
      ScanUnlinks(cfg, w.Finish(args.doc, Failed), args, left, calls, k + 2, w', sent);
    } else {
      ScanUnlinks(cfg, w, args, left, calls, k + 1, w', sent);
    }
  }

  lemma StoreFails(cfg: Config, w: World, args: Args, left: nat, calls: seq<Outcome>, k: nat, w': World, sent: seq<Proc>)
    requires Delivers(cfg, w, Uploader(args, UploadPc.Tail(ReadStatus), left), calls, k, w', sent) && Calm(calls, k)
    ensures sent == [] && w' == if Active(w, args.doc) then Closed(w, args, Failed) else w.(temps := w.temps - {args.req})
  {
    hide Step;
    StoreStep(cfg, w, args, UploadPc.Tail(ReadStatus), left, calls[k]);
    if Active(w, args.doc) {
      StoreStep(cfg, w, args, UploadPc.Tail(Tail.WriteFailed), left, calls[k + 1]);
      StoreUnlinks(cfg, w.Finish(args.doc, Failed), args, left, calls, k + 2, w', sent);
    } else {
      StoreUnlinks(cfg, w, args, left, calls, k + 1, w', sent);
    }
  }

  lemma ReadTails(cfg: Config, w: World, args: Args, left: nat, calls: seq<Outcome>, k: nat, w': World, sent: seq<Proc>)
    requires Delivers(cfg, w, Extractor(args, ExtractPc.Tail(ReadStatus), left), calls, k, w', sent) && Calm(calls, k)
    ensures sent == [] && w' == if Active(w, args.doc) then Closed(w, args, Failed) else w.(temps := w.temps - {args.req})
  {
    hide Step, ExtractTask.StepDispatch;
    ReadStep(cfg, w, args, ExtractPc.Tail(ReadStatus), left, calls[k]);
    if Active(w, args.doc) {
      ReadStep(cfg, w, args, ExtractPc.Tail(Tail.WriteFailed), left, calls[k + 1]);
      ReadUnlinks(cfg, w.Finish(args.doc, Failed), args, left, calls, k + 2, w', sent);
    } else {
      ReadUnlinks(cfg, w, args, left, calls, k + 1, w', sent);
    }
  }

  /** The row of this document and request, if it is still queued, fails for a passing reason. */
  ghost function Unqueued(t: Table, d: nat, req: nat): Table {
    match t.Find(d, req)
    case Some(a) =>
      if a in t.rows && t.rows[a].status == Queued
      then t.(rows := t.rows[a := t.rows[a].(status := Broken, failure := Some(Transient))]) else t
    case None => t
  }

  lemma ReadFailsQueued(cfg: Config, w: World, args: Args, left: nat, calls: seq<Outcome>, k: nat, w': World, sent: seq<Proc>)
    requires Delivers(cfg, w, Extractor(args, ExtractPc.MarkWrite, left), calls, k, w', sent) && Calm(calls, k)
    requires var found := w.analyses.Find(args.doc, args.req);
      found.Some? && found.value in w.analyses.rows && w.analyses.rows[found.value].status == Queued
    ensures sent == []
    ensures w' == w.(temps := w.temps - {args.req}, analyses := Unqueued(w.analyses, args.doc, args.req))
  {
    hide Step, ExtractTask.StepDispatch;
    ReadStep(cfg, w, args, ExtractPc.MarkWrite, left, calls[k]);
    ReadUnlinks(cfg, w.(analyses := Unqueued(w.analyses, args.doc, args.req)), args, left, calls, k + 1, w', sent);
  }

  lemma ReadUnqueues(cfg: Config, w: World, args: Args, left: nat, calls: seq<Outcome>, k: nat, w': World, sent: seq<Proc>)
    requires Delivers(cfg, w, Extractor(args, ExtractPc.MarkFind, left), calls, k, w', sent) && Calm(calls, k)
    ensures sent == []
    ensures w' == w.(temps := w.temps - {args.req}, analyses := Unqueued(w.analyses, args.doc, args.req))
  {
    hide Step, ExtractTask.StepDispatch;
    ReadStep(cfg, w, args, ExtractPc.MarkFind, left, calls[k]);
    var m := Step(cfg, w, Extractor(args, ExtractPc.MarkFind, left), calls[k]);
    if m.proc.epc.MarkWrite? {
      ReadFailsQueued(cfg, w, args, left, calls, k + 1, w', sent);
    } else {
      ReadUnlinks(cfg, w, args, left, calls, k + 1, w', sent);
    }
  }

  /** The failure callback of the extraction: a document with its text keeps its status, and its queued analysis
      fails instead. */
  lemma ReadFails(cfg: Config, w: World, args: Args, left: nat, calls: seq<Outcome>, k: nat, w': World, sent: seq<Proc>)
    requires Delivers(cfg, w, Extractor(args, ReadExtracted, left), calls, k, w', sent) && Calm(calls, k)
    ensures sent == [] && w' ==
      if !Active(w, args.doc) then w.(temps := w.temps - {args.req})
      else if w.docs[args.doc].status.Extracted? then
        w.(temps := w.temps - {args.req}, analyses := Unqueued(w.analyses, args.doc, args.req))
      else Closed(w, args, Failed)
  {
    hide Step, ExtractTask.StepDispatch, Closed, Unqueued;
    ReadStep(cfg, w, args, ReadExtracted, left, calls[k]);
    var pc := Step(cfg, w, Extractor(args, ReadExtracted, left), calls[k]).proc.epc;
    if pc.MarkFind? {
      ReadUnqueues(cfg, w, args, left, calls, k + 1, w', sent);
    } else if pc == ExtractPc.Tail(ReadStatus) {
      ReadTails(cfg, w, args, left, calls, k + 1, w', sent);
    } else {
      ReadUnlinks(cfg, w, args, left, calls, k + 1, w', sent);
    }
  }
}
