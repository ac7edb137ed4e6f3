/** The unique indexes make overlapping calls agree, call by call: whoever asks for the analysis of one document
    and request gets the same record, and one analysis is retried once. */
module Idempotence {
  import opened Types
  import opened AnalysisTable
  import opened Pipeline
  import opened Machine
  import opened Invariant
  import opened Writes
  import opened Safety
  import UploadRequest
  import ScanTask
  import UploadTask
  import ExtractTask
  import Services
  import Consumer

  /** The record a process has in hand and will publish next, with the key it asked for. */
  datatype Record = Record(doc: nat, req: nat, run: nat)

  function InHand(p: Proc): Option<Record> {
    match p
    case Request(req, Publish(d, run)) => Some(Record(d, req, run))
    case Extractor(args, Publish(run), _) => Some(Record(args.doc, args.req, run))
    case Creator(d, req, _, Publish(run)) => Some(Record(d, req, run))
    case Retrier(d, req, _, Publish(run)) => Some(Record(d, req, run))
    case _ => None
  }

  lemma InHandOk(cfg: Config, w: World, p: Proc)
    requires ProcOk(cfg, w, p) && InHand(p).Some?
    ensures var r := InHand(p).value; RunOk(w.analyses, r.run, r.doc, r.req)
  {
  }

  /** Two ids handed out for one key are the same id, unless the analysis was removed in between. */
  lemma OneIdPerKey(t: Table, d: nat, req: nat, run: nat, run': nat)
    requires t.Valid() && RunOk(t, run, d, req) && RunOk(t, run', d, req)
    ensures run == run' || run in t.removed || run' in t.removed
  {
  }

  lemma RunOkStable(t: Table, t': Table, run: nat, d: nat, req: nat)
    requires RunOk(t, run, d, req) && TableGrows(t, t')
    ensures RunOk(t', run, d, req)
  {
  }

  /** Whatever interleaving leads from `s` on: a record returned for a key in `s` and a record returned for the
      same key later are the same, as long as neither was removed. */
  lemma GetOrCreateAgrees(cfg: Config, s: System, es: seq<Event>, i: nat, j: nat)
    requires cfg.CollisionFree() && Safe(cfg, s) && Numbered(s) && Feasible(cfg, s, es)
    requires i < |s.procs| && j < |Run(cfg, s, es).procs|
    requires InHand(s.procs[i]).Some? && InHand(Run(cfg, s, es).procs[j]).Some?
    ensures var s' := Run(cfg, s, es);
      var r, r' := InHand(s.procs[i]).value, InHand(s'.procs[j]).value;
      r.doc == r'.doc && r.req == r'.req ==>
        r.run == r'.run || r.run in s'.world.analyses.removed || r'.run in s'.world.analyses.removed
  {
    hide ProcOk, InHand, WorldOk, Grows, RunOk, Run;
    var s' := Run(cfg, s, es);
    var r, r' := InHand(s.procs[i]).value, InHand(s'.procs[j]).value;
    RunIsSafe(cfg, s, es);
    InHandOk(cfg, s.world, s.procs[i]);
    InHandOk(cfg, s'.world, s'.procs[j]);
    if r.doc == r'.doc && r.req == r'.req {
      TableGrown(s.world, s'.world);
      RunOkStable(s.world.analyses, s'.world.analyses, r.run, r.doc, r.req);
      TableValid(cfg, s'.world);
      OneIdPerKey(s'.world.analyses, r.doc, r.req, r.run, r'.run);
    }
  }

  lemma TableValid(cfg: Config, w: World)
    requires WorldOk(cfg, w)
    ensures w.analyses.Valid()
  {
  }

  lemma TableGrown(w: World, w': World)
    requires Grows(w, w')
    ensures TableGrows(w.analyses, w'.analyses)
  {
  }

  // --- Retries ---

  /** Every request keeps the number it was given when it arrived. */
  predicate Owns(p: Proc, i: nat) {
    match p
    case Request(req, _) => req == i
    case Creator(_, req, _, _) => req == i
    case Retrier(_, req, _, _) => req == i
    case _ => true
  }

  predicate Owned(s: System) {
    forall i :: 0 <= i < |s.procs| ==> Owns(s.procs[i], i)
  }

  /** The id a retry of `parent` is about to publish. */
  predicate Holds(p: Proc, parent: nat, run: nat) {
    p.Retrier? && p.parent == parent && p.apc == ApiPc.Publish(run)
  }

  lemma HeldIsChild(cfg: Config, w: World, p: Proc, parent: nat, run: nat)
    requires ProcOk(cfg, w, p) && Holds(p, parent, run)
    ensures ChildOf(w.analyses, run, parent) && RunOk(w.analyses, run, p.target, p.req)
  {
  }

  /** No step comes to hold a child that existed before it: only the call that inserts a child holds it, once. */
  lemma RetryStep(cfg: Config, w: World, p: Proc, o: Outcome, parent: nat, run: nat)
    requires w.analyses.Valid() && run < w.analyses.next
    ensures !Holds(Step(cfg, w, p, o).proc, parent, run)
  {
    hide UploadRequest.Step, ScanTask.Step, UploadTask.Step, ExtractTask.Step, Consumer.Step, Services.StepCreate;
    match p
    case Retrier(d, req, q, pc) =>
    case Request(req, pc) => RequestStays(cfg, w, req, pc, o);
    case Scanner(args, pc, left) => ScannerStays(cfg, w, args, pc, left, o);
    case Uploader(args, pc, left) => UploaderStays(w, args, pc, left, o);
    case Extractor(args, pc, left) => ExtractorStays(cfg, w, args, pc, left, o);
    case Handler(d, a, req, pc, n) => HandlerStays(w, d, a, req, pc, n, o);
    case Creator(d, req, provider, pc) => CreatorStays(w, d, req, provider, pc, o);
    case _ =>
  }

  lemma RequestStays(cfg: Config, w: World, req: nat, pc: RequestPc, o: Outcome)
    ensures var m := UploadRequest.Step(cfg, w, req, pc, o);
      m.proc.Request? && m.proc.req == req && (m.spawned.Some? ==> m.spawned.value.IsTask() || m.spawned.value.Handler?)
  {
  }

  lemma ScannerStays(cfg: Config, w: World, args: Args, pc: ScanPc, left: nat, o: Outcome)
    ensures var m := ScanTask.Step(cfg, w, args, pc, left, o);
      m.proc.Scanner? && (m.spawned.Some? ==> m.spawned.value.IsTask())
  {
  }

  lemma UploaderStays(w: World, args: Args, pc: UploadPc, left: nat, o: Outcome)
    ensures var m := UploadTask.Step(w, args, pc, left, o);
      m.proc.Uploader? && (m.spawned.Some? ==> m.spawned.value.IsTask())
  {
  }

  lemma ExtractorStays(cfg: Config, w: World, args: Args, pc: ExtractPc, left: nat, o: Outcome)
    ensures var m := ExtractTask.Step(cfg, w, args, pc, left, o);
      m.proc.Extractor? && (m.spawned.Some? ==> m.spawned.value.Handler?)
  {
  }

  lemma HandlerStays(w: World, d: nat, a: nat, req: nat, pc: HandlerPc, n: nat, o: Outcome)
    ensures var m := Consumer.Step(w, d, a, req, pc, n, o); m.proc.Handler? && m.spawned.None?
  {
  }

  lemma CreatorStays(w: World, d: nat, req: nat, provider: Provider, pc: ApiPc, o: Outcome)
    ensures var m := Services.StepCreate(w, d, req, provider, pc, o);
      m.proc.Creator? && m.proc.req == req && (m.spawned.Some? ==> m.spawned.value.Handler?)
  {
  }

  lemma RetrierStays(w: World, d: nat, req: nat, parent: nat, pc: ApiPc, o: Outcome)
    ensures var m := Services.StepRetry(w, d, req, parent, pc, o);
      m.proc.Retrier? && m.proc.req == req && (m.spawned.Some? ==> m.spawned.value.Handler?)
  {
  }

  lemma ApplyKeepsOwned(cfg: Config, s: System, e: Event)
    requires Owned(s) && Enabled(cfg, s, e)
    ensures Owned(Apply(cfg, s, e))
  {
    if e.Act? {
      StepKeepsOwner(cfg, s.world, s.procs[e.i], e.o, e.i);
    }
  }

  lemma StepKeepsOwner(cfg: Config, w: World, p: Proc, o: Outcome, i: nat)
    requires Owns(p, i)
    ensures var m := Step(cfg, w, p, o);
      Owns(m.proc, i) && (m.spawned.Some? ==> m.spawned.value.IsTask() || m.spawned.value.Handler?)
  {
    hide UploadRequest.Step, ScanTask.Step, UploadTask.Step, ExtractTask.Step, Consumer.Step, Services.StepCreate;
    hide Services.StepRetry;
    match p
    case Retrier(d, req, q, pc) => RetrierStays(w, d, req, q, pc, o);
    case Request(req, pc) => RequestStays(cfg, w, req, pc, o);
    case Scanner(args, pc, left) => ScannerStays(cfg, w, args, pc, left, o);
    case Uploader(args, pc, left) => UploaderStays(w, args, pc, left, o);
    case Extractor(args, pc, left) => ExtractorStays(cfg, w, args, pc, left, o);
    case Handler(d, a, req, pc, n) => HandlerStays(w, d, a, req, pc, n, o);
    case Creator(d, req, provider, pc) => CreatorStays(w, d, req, provider, pc, o);
    case _ =>
  }

  /** What a step enqueues is a task or message that has not started. */
  lemma SpawnIsIdle(cfg: Config, w: World, p: Proc, o: Outcome)
    ensures var s := Step(cfg, w, p, o).spawned; s.Some? ==> s.value.Idle() && (s.value.IsTask() || s.value.Handler?)
  {
    hide UploadRequest.Step, ExtractTask.Step, Services.StepCreate, Services.StepRetry, Consumer.Step, ScanTask.Step;
    hide UploadTask.Step;
    match p
    case Request(req, pc) => RequestSpawns(cfg, w, req, pc, o);
    case Scanner(args, pc, left) => ScannerSpawns(cfg, w, args, pc, left, o);
    case Uploader(args, pc, left) => UploaderSpawns(w, args, pc, left, o);
    case Extractor(args, pc, left) => ExtractorSpawns(cfg, w, args, pc, left, o);
    case Creator(d, req, provider, pc) => CreatorSpawns(w, d, req, provider, pc, o);
    case Retrier(d, req, parent, pc) => RetrierSpawns(w, d, req, parent, pc, o);
    case Handler(d, a, req, pc, n) => HandlerStays(w, d, a, req, pc, n, o);
    case _ =>
  }

  lemma RequestSpawns(cfg: Config, w: World, req: nat, pc: RequestPc, o: Outcome)
    ensures var s := UploadRequest.Step(cfg, w, req, pc, o).spawned;
      s.Some? ==> s.value.Idle() && (s.value.IsTask() || s.value.Handler?)
  {
  }

  lemma ScannerSpawns(cfg: Config, w: World, args: Args, pc: ScanPc, left: nat, o: Outcome)
    ensures var s := ScanTask.Step(cfg, w, args, pc, left, o).spawned; s.Some? ==> s.value.Idle() && s.value.IsTask()
  {
  }

  lemma UploaderSpawns(w: World, args: Args, pc: UploadPc, left: nat, o: Outcome)
    ensures var s := UploadTask.Step(w, args, pc, left, o).spawned; s.Some? ==> s.value.Idle() && s.value.IsTask()
  {
  }

  lemma ExtractorSpawns(cfg: Config, w: World, args: Args, pc: ExtractPc, left: nat, o: Outcome)
    ensures var s := ExtractTask.Step(cfg, w, args, pc, left, o).spawned; s.Some? ==> s.value.Idle() && s.value.Handler?
  {
  }

  lemma CreatorSpawns(w: World, d: nat, req: nat, provider: Provider, pc: ApiPc, o: Outcome)
    ensures var s := Services.StepCreate(w, d, req, provider, pc, o).spawned; s.Some? ==> s.value.Idle() && s.value.Handler?
  {
  }

  lemma RetrierSpawns(w: World, d: nat, req: nat, parent: nat, pc: ApiPc, o: Outcome)
    ensures var s := Services.StepRetry(w, d, req, parent, pc, o).spawned; s.Some? ==> s.value.Idle() && s.value.Handler?
  {
  }

  lemma StartedRests(cfg: Config, s: System, e: Event)
    requires Enabled(cfg, s, e) && !e.Act?
    ensures !Started(s, e).Running() && (Started(s, e).Request? ==> e.NewUpload?)
  {
  }

  /** The children of `parent` that the calls of a run publish, in order. A publish that raises counts, too,
      since the message may have been sent. */
  ghost function Published(cfg: Config, s: System, es: seq<Event>, parent: nat): seq<nat>
    requires Feasible(cfg, s, es)
    decreases |es|
  {
    if es == [] then [] else
    var rest := Published(cfg, Apply(cfg, s, es[0]), es[1..], parent);
    if es[0].Act? && s.procs[es[0].i].Retrier? && s.procs[es[0].i].parent == parent && s.procs[es[0].i].apc.Publish?
    then [s.procs[es[0].i].apc.run] + rest else rest
  }

  /** A child that is out, and no process holds any more. */
  ghost predicate Spent(s: System, parent: nat, run: nat) {
    && ChildOf(s.world.analyses, run, parent)
    && forall i :: 0 <= i < |s.procs| ==> !Holds(s.procs[i], parent, run)
  }

  lemma ApplyKeepsSpent(cfg: Config, s: System, e: Event, parent: nat, run: nat)
    requires cfg.CollisionFree() && Safe(cfg, s) && Numbered(s) && Enabled(cfg, s, e) && Spent(s, parent, run)
    ensures Spent(Apply(cfg, s, e), parent, run)
  {
    hide WorldOk, ProcOk, Grows, Holds, ChildOf;
    ApplyKeepsSafety(cfg, s, e);
    var s' := Apply(cfg, s, e);
    TableGrown(s.world, s'.world);
    ChildOfStable(s.world.analyses, s'.world.analyses, run, parent);
    forall i | 0 <= i < |s'.procs| ensures !Holds(s'.procs[i], parent, run) {
      if Holds(s'.procs[i], parent, run) {
        if e.Act? {
          TableValid(cfg, s.world);
          NewcomerHolds(cfg, s.world, s.procs[e.i], e.o, parent, run);
        } else {
          StartedHolds(cfg, s, e, parent, run);
        }
      }
    }
  }

  lemma ChildOfStable(t: Table, t': Table, run: nat, parent: nat)
    requires ChildOf(t, run, parent) && TableGrows(t, t')
    ensures ChildOf(t', run, parent) && run < t.next
  {
  }

  lemma StartedHolds(cfg: Config, s: System, e: Event, parent: nat, run: nat)
    requires !e.Act? && Enabled(cfg, s, e)
    ensures !Holds(Started(s, e), parent, run)
  {
  }

  lemma NewcomerHolds(cfg: Config, w: World, p: Proc, o: Outcome, parent: nat, run: nat)
    requires w.analyses.Valid() && run < w.analyses.next
    ensures !Holds(Step(cfg, w, p, o).proc, parent, run)
    ensures Step(cfg, w, p, o).spawned.Some? ==> !Holds(Step(cfg, w, p, o).spawned.value, parent, run)
  {
    hide Step;
    RetryStep(cfg, w, p, o, parent, run);
    var i := match p case Request(req, _) => req case Creator(_, req, _, _) => req case Retrier(_, req, _, _) => req case _ => 0;
    StepKeepsOwner(cfg, w, p, o, i);
  }

  /** After a child was published, every child published later, or the first one, was removed. */
  lemma {:induction false} SpentExcludes(cfg: Config, s: System, es: seq<Event>, parent: nat, run: nat)
    requires cfg.CollisionFree() && Safe(cfg, s) && Numbered(s) && Feasible(cfg, s, es) && Spent(s, parent, run)
    ensures var removed := Run(cfg, s, es).world.analyses.removed;
      forall x <- Published(cfg, s, es, parent) :: x in removed || run in removed
    decreases |es|
  {
    hide WorldOk, ProcOk, Grows, Holds, ChildOf;
    if es != [] {
      var s' := Apply(cfg, s, es[0]);
      ApplyKeepsSafety(cfg, s, es[0]);
      ApplyKeepsSpent(cfg, s, es[0], parent, run);
      SpentExcludes(cfg, s', es[1..], parent, run);
      var e := es[0];
      if e.Act? && s.procs[e.i].Retrier? && s.procs[e.i].parent == parent && s.procs[e.i].apc.Publish? {
        var x := s.procs[e.i].apc.run;
        IsHeld(s.procs[e.i], parent, x);
        HeldIsChild(cfg, s.world, s.procs[e.i], parent, x);
        RunIsSafe(cfg, s, es);
        TableValid(cfg, Run(cfg, s, es).world);
        TableGrown(s.world, Run(cfg, s, es).world);
        OneChild(s.world.analyses, Run(cfg, s, es).world.analyses, parent, x, run);
      }
    }
  }

  lemma IsHeld(p: Proc, parent: nat, run: nat)
    requires p.Retrier? && p.parent == parent && p.apc == ApiPc.Publish(run)
    ensures Holds(p, parent, run)
  {
  }

  lemma OneChild(t: Table, t': Table, parent: nat, x: nat, y: nat)
    requires t'.Valid() && TableGrows(t, t') && ChildOf(t, x, parent) && ChildOf(t, y, parent) && x != y
    ensures x in t'.removed || y in t'.removed
  {
  }

  /** Of any two of these ids, one was removed. */
  ghost predicate OneSurvives(ids: seq<nat>, removed: set<nat>) {
    forall k, l :: 0 <= k < l < |ids| ==> ids[k] in removed || ids[l] in removed
  }

  lemma OneMore(x: nat, rest: seq<nat>, removed: set<nat>)
    requires OneSurvives(rest, removed)
    requires forall y <- rest :: y in removed || x in removed
    ensures OneSurvives([x] + rest, removed)
  {
    var ids := [x] + rest;
    forall k, l | 0 <= k < l < |ids| ensures ids[k] in removed || ids[l] in removed {
      assert ids[l] == rest[l - 1];
      if k > 0 { assert ids[k] == rest[k - 1]; }
    }
  }

  /** However many retries of one analysis overlap: of any two children that are published, one was removed.
      So without removals a parent gets at most one child, which is published at most once. */
  lemma {:induction false} OneRetryIsPublished(cfg: Config, s: System, es: seq<Event>, parent: nat)
    requires cfg.CollisionFree() && Safe(cfg, s) && Numbered(s) && Owned(s) && Feasible(cfg, s, es)
    ensures OneSurvives(Published(cfg, s, es, parent), Run(cfg, s, es).world.analyses.removed)
    decreases |es|
  {
    hide WorldOk, ProcOk, Grows, Holds, ChildOf, Owned;
    if es != [] {
      var s' := Apply(cfg, s, es[0]);
      ApplyKeepsSafety(cfg, s, es[0]);
      ApplyKeepsOwned(cfg, s, es[0]);
      OneRetryIsPublished(cfg, s', es[1..], parent);
      var e := es[0];
      if e.Act? && s.procs[e.i].Retrier? && s.procs[e.i].parent == parent && s.procs[e.i].apc.Publish? {
        var x := s.procs[e.i].apc.run;
        IsHeld(s.procs[e.i], parent, x);
        PublishSpends(cfg, s, e.i, e.o, parent, x);
        if x in s.world.analyses.removed {
          RunIsSafe(cfg, s, es);
          TableValid(cfg, s.world);
          TableValid(cfg, Run(cfg, s, es).world);
          TableGrown(s.world, Run(cfg, s, es).world);
          RemovedForever(s.world.analyses, Run(cfg, s, es).world.analyses, x);
        } else {
          SpentExcludes(cfg, s', es[1..], parent, x);
        }
        OneMore(x, Published(cfg, s', es[1..], parent), Run(cfg, s, es).world.analyses.removed);
      }
    }
  }

  lemma RemovedForever(t: Table, t': Table, a: nat)
    requires t.Valid() && t'.Valid() && TableGrows(t, t') && a in t.removed
    ensures a in t'.removed
  {
  }

  lemma PublishSpends(cfg: Config, s: System, i: nat, o: Outcome, parent: nat, run: nat)
    requires cfg.CollisionFree() && Safe(cfg, s) && Numbered(s) && Owned(s) && Enabled(cfg, s, Act(i, o))
    requires Holds(s.procs[i], parent, run)
    ensures Spent(Apply(cfg, s, Act(i, o)), parent, run) || run in s.world.analyses.removed
  {
    hide WorldOk, ProcOk, Grows, ChildOf, Step, RunOk;
    var s' := Apply(cfg, s, Act(i, o));
    ApplyKeepsSafety(cfg, s, Act(i, o));
    HeldIsChild(cfg, s.world, s.procs[i], parent, run);
    TableGrown(s.world, s'.world);
    ChildOfStable(s.world.analyses, s'.world.analyses, run, parent);
    TableValid(cfg, s.world);
    NewcomerHolds(cfg, s.world, s.procs[i], o, parent, run);
    forall j | 0 <= j < |s'.procs| && run !in s.world.analyses.removed ensures !Holds(s'.procs[j], parent, run) {
      if j < |s.procs| && j != i && Holds(s.procs[j], parent, run) {
        HoldersAgree(cfg, s.world, s.procs[i], s.procs[j], parent, run);
      }
    }
  }

  lemma HoldersAgree(cfg: Config, w: World, p: Proc, q: Proc, parent: nat, run: nat)
    requires WorldOk(cfg, w) && ProcOk(cfg, w, p) && ProcOk(cfg, w, q)
    requires Holds(p, parent, run) && Holds(q, parent, run) && run !in w.analyses.removed
    ensures p.req == q.req
  {
    hide WorldOk, ProcOk, RunOk;
    TableValid(cfg, w);
    HeldIsChild(cfg, w, p, parent, run);
    HeldIsChild(cfg, w, q, parent, run);
    OneHolder(w.analyses, run, p.target, p.req, q.target, q.req);
  }

  lemma OneHolder(t: Table, run: nat, d: nat, req: nat, d': nat, req': nat)
    requires t.Valid() && RunOk(t, run, d, req) && RunOk(t, run, d', req') && run !in t.removed
    ensures req == req'
  {
  }
}
