/** Along every run in which the tasks of one document do not overlap, no temp file is left behind. */
module TempRuns {
  import opened Types
  import opened AnalysisTable
  import opened Pipeline
  import opened BaseTask
  import opened Machine
  import opened Rules
  import opened Invariant
  import opened Safety
  import opened Progress
  import opened Idempotence
  import opened Temps
  import ScanTask
  import UploadTask
  import ExtractTask
  import UploadRequest
  import Services
  import Consumer

  ghost predicate TempHeld(s: System, n: nat) {
    Clear(s.world, n) || exists i :: 0 <= i < |s.procs| && Keeps(s.world.docs, s.procs[i], n)
  }

  ghost predicate Tidy(s: System) {
    && Distinct(s.world.docs)
    && Owned(s)
    && (forall i :: 0 <= i < |s.procs| ==> Fresh(s.world.docs, s.procs[i]))
    && (forall i :: 0 <= i < |s.procs| ==> Sees(s.world, s.procs[i]))
    && (forall n :: TempHeld(s, n))
  }

  // --- Documents and requests ---

  lemma RequestKeepsFresh(cfg: Config, w: World, req: nat, pc: RequestPc, o: Outcome)
    ensures var m := UploadRequest.Step(cfg, w, req, pc, o);
      && m.proc.Request? && m.proc.req == req
      && (m.proc.Doc().None? && !m.proc.Ended() ==>
           Request(req, pc).Doc().None? && !Request(req, pc).Ended() && |m.world.docs| == |w.docs|)
  {
  }

  /** Only a request that has no document yet creates one, and it is the one of its own number. */
  lemma CreatesOwn(cfg: Config, w: World, p: Proc, w': World)
    requires ProcOk(cfg, w, p) && Framed(ScopeOf(w, p), w, w') && |w'.docs| > |w.docs|
    ensures p.Request? && p.Doc().None? && w'.docs[|w.docs|].req == p.req
  {
    hide RequestOk, ExtractOk, HandlerOk;
    match p
    case Request(req, pc) => RequestDoc(cfg, w, req, pc);
    case Extractor(args, pc, _) => ExtractDoc(cfg, w, args, pc);
    case _ =>
  }

  lemma ReqsKept(w: World, w': World)
    requires Grows(w, w')
    ensures |w.docs| <= |w'.docs| && forall d :: 0 <= d < |w.docs| ==> w'.docs[d].req == w.docs[d].req
  {
  }

  ghost predicate ReqsGrow(docs: seq<Document>, docs': seq<Document>, req: nat) {
    && |docs| <= |docs'| <= |docs| + 1
    && (forall d :: 0 <= d < |docs| ==> docs'[d].req == docs[d].req)
    && (|docs'| > |docs| ==> docs'[|docs|].req == req)
  }

  lemma DistinctKept(docs: seq<Document>, docs': seq<Document>, req: nat)
    requires Distinct(docs) && ReqsGrow(docs, docs', req)
    requires |docs'| > |docs| ==> Unused(docs, req)
    ensures Distinct(docs')
    ensures forall k :: Unused(docs, k) && (k == req ==> |docs'| == |docs|) ==> Unused(docs', k)
  {
  }

  lemma ActKeepsFresh(cfg: Config, s: System, i: nat, o: Outcome)
    requires Safe(cfg, s) && Enabled(cfg, s, Act(i, o)) && Distinct(s.world.docs) && Owned(s)
    requires forall j :: 0 <= j < |s.procs| ==> Fresh(s.world.docs, s.procs[j])
    requires StepOk(cfg, s.world, s.procs[i], Step(cfg, s.world, s.procs[i], o))
    ensures var s' := Apply(cfg, s, Act(i, o));
      Distinct(s'.world.docs) && forall j :: 0 <= j < |s'.procs| ==> Fresh(s'.world.docs, s'.procs[j])
  {
    hide WorldOk, Step, Grows, Framed, ProcOk, Distinct, Unused;
    var w, m, p := s.world, Step(cfg, s.world, s.procs[i], o), s.procs[i];
    var s' := Apply(cfg, s, Act(i, o));
    ReqsKept(w, m.world);
    DocsByOne(ScopeOf(w, p), w, m.world);
    var req := if p.Request? then p.req else 0;
    if |m.world.docs| > |w.docs| { CreatesOwn(cfg, w, p, m.world); }
    DistinctKept(w.docs, m.world.docs, req);
    StepKeepsOwner(cfg, w, p, o, i);
    SpawnIsIdle(cfg, w, p, o);
    forall j | 0 <= j < |s'.procs| ensures Fresh(s'.world.docs, s'.procs[j]) {
      if j == i { StepKeepsFresh(cfg, w, p, o); }
      else if j < |s.procs| { assert s'.procs[j] == s.procs[j]; assert Fresh(w.docs, s.procs[j]); }
    }
  }

  lemma DocsByOne(at: Scope, w: World, w': World)
    requires Framed(at, w, w')
    ensures |w.docs| <= |w'.docs| <= |w.docs| + 1
  {
  }

  lemma StepKeepsFresh(cfg: Config, w: World, p: Proc, o: Outcome)
    ensures var m := Step(cfg, w, p, o);
      m.proc.Request? && m.proc.Doc().None? && !m.proc.Ended() ==>
        p.Request? && p.req == m.proc.req && p.Doc().None? && !p.Ended() && |m.world.docs| == |w.docs|
  {
    hide UploadRequest.Step, ScanTask.Step, UploadTask.Step, ExtractTask.Step, Services.StepCancel, Services.StepCreate;
    hide Services.StepRetry, Services.StepRemove, Consumer.Step;
    match p
    case Request(req, pc) => RequestKeepsFresh(cfg, w, req, pc, o);
    case Scanner(args, pc, left) => ScannerStays(cfg, w, args, pc, left, o);
    case Uploader(args, pc, left) => UploaderStays(w, args, pc, left, o);
    case Extractor(args, pc, left) => ExtractorStays(cfg, w, args, pc, left, o);
    case Canceller(d, pc) => CancellerHarmless(w, d, pc, o);
    case Creator(d, req, provider, pc) => CreatorStays(w, d, req, provider, pc, o);
    case Retrier(d, req, parent, pc) => RetrierStays(w, d, req, parent, pc, o);
    case Remover(d, target, pc) => RemoverHarmless(w, d, target, pc, o);
    case Handler(d, a, req, pc, n) => HandlerStays(w, d, a, req, pc, n, o);
  }

  // --- Nobody takes a file from another ---

  /** Only a scan or upload of the document, which is then not finished, takes back that its object is stored. */
  ghost predicate Unstores(p: Proc, m: Move, d: nat) {
    || (p.Scanner? && p.args.doc == d && m.proc.Scanner? && m.proc.args == p.args && !m.proc.spc.Done?)
    || (p.Uploader? && p.args.doc == d && m.proc.Uploader? && m.proc.args == p.args && !m.proc.upc.Done?)
  }

  ghost predicate StaysStored(w: World, p: Proc, m: Move, d: nat) {
    d < |w.docs| && d < |m.world.docs| && !Unstored(w.docs[d].status) && Unstored(m.world.docs[d].status) ==>
      Unstores(p, m, d)
  }

  lemma ScannerStored(cfg: Config, w: World, args: Args, pc: ScanPc, left: nat, o: Outcome, d: nat)
    ensures StaysStored(w, Scanner(args, pc, left), ScanTask.Step(cfg, w, args, pc, left, o), d)
  {
  }

  lemma UploaderStored(w: World, args: Args, pc: UploadPc, left: nat, o: Outcome, d: nat)
    ensures StaysStored(w, Uploader(args, pc, left), UploadTask.Step(w, args, pc, left, o), d)
  {
  }

  lemma ExtractorStored(cfg: Config, w: World, args: Args, pc: ExtractPc, left: nat, o: Outcome, d: nat)
    ensures var w' := ExtractTask.Step(cfg, w, args, pc, left, o).world;
      d < |w.docs| && d < |w'.docs| && !Unstored(w.docs[d].status) ==> !Unstored(w'.docs[d].status)
  {
    hide ExtractTask.StepDispatch, ExtractTask.StepFailure;
    if ExtractTask.Dispatching(pc) {
      hide *;
      DispatchStored(cfg, w, args, pc, left, o, d);
    } else if pc.ReadExtracted? || pc.MarkFind? || pc.MarkWrite? || pc.Tail? {
      hide *;
      FailureStored(cfg, w, args, pc, left, o, d);
    }
  }

  lemma DispatchStored(cfg: Config, w: World, args: Args, pc: ExtractPc, left: nat, o: Outcome, d: nat)
    requires ExtractTask.Dispatching(pc)
    ensures var w' := ExtractTask.Step(cfg, w, args, pc, left, o).world;
      d < |w.docs| && d < |w'.docs| && !Unstored(w.docs[d].status) ==> !Unstored(w'.docs[d].status)
  {
  }

  lemma FailureStored(cfg: Config, w: World, args: Args, pc: ExtractPc, left: nat, o: Outcome, d: nat)
    requires pc.ReadExtracted? || pc.MarkFind? || pc.MarkWrite? || pc.Tail?
    ensures var w' := ExtractTask.Step(cfg, w, args, pc, left, o).world;
      d < |w.docs| && d < |w'.docs| && !Unstored(w.docs[d].status) ==> !Unstored(w'.docs[d].status)
  {
    hide ExtractTask.Step;
    if !pc.Tail? { FailureElsewhere(cfg, w, args, pc, left, o); } else { TailStored(cfg, w, args, pc, left, o, d); }
  }

  lemma TailStored(cfg: Config, w: World, args: Args, pc: ExtractPc, left: nat, o: Outcome, d: nat)
    requires pc.Tail?
    ensures var w' := ExtractTask.Step(cfg, w, args, pc, left, o).world;
      d < |w.docs| && d < |w'.docs| && !Unstored(w.docs[d].status) ==> !Unstored(w'.docs[d].status)
  {
    hide ExtractTask.StepDispatch;
  }

  lemma RequestStored(cfg: Config, w: World, req: nat, pc: RequestPc, o: Outcome, d: nat)
    ensures var w' := UploadRequest.Step(cfg, w, req, pc, o).world;
      d < |w.docs| && d < |w'.docs| && !Unstored(w.docs[d].status) ==> !Unstored(w'.docs[d].status)
  {
  }

  lemma CancellerStored(w: World, e: nat, pc: CancelPc, o: Outcome, d: nat)
    ensures var w' := Services.StepCancel(w, e, pc, o).world;
      d < |w.docs| && d < |w'.docs| && !Unstored(w.docs[d].status) ==> !Unstored(w'.docs[d].status)
  {
  }

  lemma StepStaysStored(cfg: Config, w: World, p: Proc, o: Outcome, d: nat)
    ensures StaysStored(w, p, Step(cfg, w, p, o), d)
  {
    hide UploadRequest.Step, ScanTask.Step, UploadTask.Step, ExtractTask.Step, Services.StepCancel, Services.StepCreate;
    hide Services.StepRetry, Services.StepRemove, Consumer.Step;
    match p
    case Request(req, pc) => RequestStored(cfg, w, req, pc, o, d);
    case Scanner(args, pc, left) => ScannerStored(cfg, w, args, pc, left, o, d);
    case Uploader(args, pc, left) => UploaderStored(w, args, pc, left, o, d);
    case Extractor(args, pc, left) => ExtractorStored(cfg, w, args, pc, left, o, d);
    case Canceller(e, pc) => CancellerStored(w, e, pc, o, d);
    case Creator(e, req, provider, pc) => CreatorCovers(w, e, req, provider, pc, o);
    case Retrier(e, req, parent, pc) => RetrierCovers(w, e, req, parent, pc, o);
    case Remover(e, target, pc) => RemoverCovers(w, e, target, pc, o);
    case Handler(e, a, req, pc, n) => HandlerCovers(w, e, a, req, pc, n, o);
  }

  /** Another process that keeps a temp file still does after a step, or the stepping process does. */
  lemma OthersKeep(cfg: Config, w: World, p: Proc, o: Outcome, q: Proc, n: nat)
    requires ProcOk(cfg, w, p) && ProcOk(cfg, w, q) && Grows(w, Step(cfg, w, p, o).world) && Keeps(w.docs, q, n)
    ensures var m := Step(cfg, w, p, o); Keeps(m.world.docs, q, n) || Keeps(m.world.docs, m.proc, n)
  {
    hide Step, Grows, ExtractOk, RequestOk, HandlerOk, ApiOk;
    ReqsKept(w, Step(cfg, w, p, o).world);
    if q.Extractor? {
      ExtractDoc(cfg, w, q.args, q.epc);
      StepStaysStored(cfg, w, p, o, q.args.doc);
    }
  }

  lemma ActHoldsTemp(cfg: Config, s: System, i: nat, o: Outcome, n: nat)
    requires Safe(cfg, s) && Enabled(cfg, s, Act(i, o)) && Sees(s.world, s.procs[i]) && TempHeld(s, n)
    requires StepOk(cfg, s.world, s.procs[i], Step(cfg, s.world, s.procs[i], o))
    ensures TempHeld(Apply(cfg, s, Act(i, o)), n)
  {
    hide WorldOk, ProcOk, Step, Keeps, Clear, Grows, Framed, Sees;
    var m := Step(cfg, s.world, s.procs[i], o);
    var s' := Apply(cfg, s, Act(i, o));
    assert s'.procs[i] == m.proc;
    assert m.spawned.Some? ==> s'.procs[|s.procs|] == m.spawned.value;
    StepKeepsTemp(cfg, s.world, s.procs[i], o, n);
    if !Clear(s.world, n) && !Keeps(s.world.docs, s.procs[i], n) {
      var j :| 0 <= j < |s.procs| && Keeps(s.world.docs, s.procs[j], n);
      assert s'.procs[j] == s.procs[j];
      OthersKeep(cfg, s.world, s.procs[i], o, s.procs[j], n);
    }
  }

  /** What another process in the middle of its work has seen is still so. */
  lemma OthersSee(cfg: Config, w: World, p: Proc, o: Outcome, q: Proc)
    requires ProcOk(cfg, w, p) && ProcOk(cfg, w, q) && !p.Ended() && Sees(w, q) && q.Running()
    requires Framed(ScopeOf(w, p), w, Step(cfg, w, p, o).world)
    requires Distinct(w.docs) && Fresh(w.docs, p) && !Clash(OneTaskPerDocument, p, q)
    ensures Sees(Step(cfg, w, p, o).world, q)
  {
    hide ProcOk, Step, Framed, Distinct, Unused, ScopeOf;
    if !OnFile(p) {
      hide Sees, Harmless;
      OffFileIsHarmless(cfg, w, p, o);
      HarmlessSees(w, Step(cfg, w, p, o).world, q);
    } else if OnFile(q) && q.Doc().Some? {
      hide Sees;
      if q.Doc() != p.Doc() {
        Apart(cfg, w, p, q);
        ApartSees(cfg, ScopeOf(w, p), w, Step(cfg, w, p, o).world, q);
      }
    }
  }

  lemma ActKeepsTidy(cfg: Config, s: System, i: nat, o: Outcome)
    requires cfg.CollisionFree() && Safe(cfg, s) && Numbered(s) && Tidy(s)
    requires Enabled(cfg, s, Act(i, o)) && Free(OneTaskPerDocument, s.procs, i)
    ensures Tidy(Apply(cfg, s, Act(i, o)))
  {
    hide WorldOk, ProcOk, Step, Sees, Distinct, Fresh, TempHeld, Owned, Grows, Framed, Clash;
    var w, p, m := s.world, s.procs[i], Step(cfg, s.world, s.procs[i], o);
    var s' := Apply(cfg, s, Act(i, o));
    StepKeepsSafety(cfg, w, p, o);
    ApplyKeepsOwned(cfg, s, Act(i, o));
    ActKeepsFresh(cfg, s, i, o);
    StepSees(cfg, w, p, o);
    SpawnIsIdle(cfg, w, p, o);
    forall j | 0 <= j < |s'.procs| ensures Sees(s'.world, s'.procs[j]) {
      if j != i {
        if s'.procs[j].Running() { OthersSee(cfg, w, p, o, s.procs[j]); } else { RestSees(s'.world, s'.procs[j]); }
      }
    }
    forall n ensures TempHeld(s', n) { ActHoldsTemp(cfg, s, i, o, n); }
  }

  lemma NumberIsUnused(cfg: Config, s: System)
    requires WorldOk(cfg, s.world) && Numbered(s)
    ensures Unused(s.world.docs, |s.procs|)
  {
  }

  lemma MoreHoldTemp(s: System, s': System, n: nat)
    requires s'.world == s.world.(uploads := s'.world.uploads) && s.procs <= s'.procs && TempHeld(s, n)
    ensures TempHeld(s', n)
  {
    hide Keeps;
    if !Clear(s.world, n) {
      var i :| 0 <= i < |s.procs| && Keeps(s.world.docs, s.procs[i], n);
      assert s'.procs[i] == s.procs[i];
    }
  }

  lemma ArriveKeepsTidy(cfg: Config, s: System, e: Event)
    requires Safe(cfg, s) && Numbered(s) && Enabled(cfg, s, e) && !e.Act? && Tidy(s)
    ensures Tidy(Apply(cfg, s, e))
  {
    hide WorldOk, ProcOk, Sees, Distinct, TempHeld, Owned;
    var s', p := Apply(cfg, s, e), Started(s, e);
    ApplyKeepsOwned(cfg, s, e);
    StartedRests(cfg, s, e);
    if e.NewUpload? { NumberIsUnused(cfg, s); }
    forall j | 0 <= j < |s'.procs| ensures Sees(s'.world, s'.procs[j]) {
      if j == |s.procs| { RestSees(s'.world, p); } else { SeesElsewhere(s.world, s'.world, s.procs[j]); }
    }
    forall n ensures TempHeld(s', n) { MoreHoldTemp(s, s', n); }
  }

  lemma SeesElsewhere(w: World, w': World, p: Proc)
    requires w' == w.(uploads := w'.uploads) && Sees(w, p)
    ensures Sees(w', p)
  {
  }

  lemma {:induction false} RunIsTidy(cfg: Config, s: System, es: seq<Event>)
    requires cfg.CollisionFree() && Safe(cfg, s) && Numbered(s) && Tidy(s)
    requires Feasible(cfg, s, es) && Respects(cfg, OneTaskPerDocument, s, es)
    ensures Tidy(Run(cfg, s, es))
    decreases |es|
  {
    hide WorldOk, ProcOk, Tidy, Free, Step, Grows;
    if es != [] {
      ApplyKeepsSafety(cfg, s, es[0]);
      if es[0].Act? { ActKeepsTidy(cfg, s, es[0].i, es[0].o); } else { ArriveKeepsTidy(cfg, s, es[0]); }
      RunIsTidy(cfg, Apply(cfg, s, es[0]), es[1..]);
    }
  }
}
