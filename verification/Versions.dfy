/** Which prompt a result was computed with: the version recorded with a report was returned by a prompt lookup of
    a handler of the same document and request. */
module Versions {
  import opened Types
  import opened AnalysisTable
  import opened Pipeline
  import opened BaseTask
  import opened Machine
  import opened Invariant
  import opened Safety
  import opened Idempotence
  import opened TableWrites
  import ScanTask
  import UploadTask
  import ExtractTask
  import UploadRequest
  import Services
  import Consumer

  /** A handler of this document and request was told that this version is active. */
  datatype Lookup = Lookup(doc: nat, req: nat, version: nat)

  /** What this call looks up: only a handler at its prompt lookup looks anything up. */
  ghost function LookupOf(p: Proc, o: Outcome): set<Lookup> {
    if p.Handler? && p.hpc.ReadPrompt? && !o.Raise? then {Lookup(p.target, p.req, if o.Ok? then o.pick else 0)} else {}
  }

  /** The prompt lookups of a run. */
  ghost function Lookups(cfg: Config, s: System, es: seq<Event>): set<Lookup>
    requires Feasible(cfg, s, es)
    decreases |es|
  {
    if es == [] then {} else
    (if es[0].Act? then LookupOf(s.procs[es[0].i], es[0].o) else {}) + Lookups(cfg, Apply(cfg, s, es[0]), es[1..])
  }

  ghost predicate RowsTraced(known: set<Lookup>, rows: map<nat, Analysis>) {
    forall a <- rows :: rows[a].report.Some? ==> Lookup(rows[a].doc, rows[a].req, rows[a].report.value.prompt) in known
  }

  /** The version a handler carries from its lookup to its result. */
  ghost function Carried(pc: HandlerPc): Option<nat> {
    match pc
    case WriteAnalyzing(_, version) => Some(version)
    case Ask(_, version) => Some(version)
    case WriteSuccess(report) => Some(report.prompt)
    case _ => None
  }

  ghost predicate ProcTraced(known: set<Lookup>, p: Proc) {
    p.Handler? && Carried(p.hpc).Some? ==> Lookup(p.target, p.req, Carried(p.hpc).value) in known
  }

  ghost predicate Traced(known: set<Lookup>, s: System) {
    RowsTraced(known, s.world.analyses.rows) && forall i :: 0 <= i < |s.procs| ==> ProcTraced(known, s.procs[i])
  }

  lemma HandlerTraced(known: set<Lookup>, w: World, d: nat, a: nat, req: nat, pc: HandlerPc, n: nat, o: Outcome)
    requires ProcTraced(known, Handler(d, a, req, pc, n))
    ensures var p := Consumer.Step(w, d, a, req, pc, n, o).proc;
      ProcTraced(known + LookupOf(Handler(d, a, req, pc, n), o), p)
  {
    hide Consumer.Updated, World.Update, World.LoseRun;
  }

  lemma OthersTraced(cfg: Config, w: World, p: Proc, o: Outcome)
    requires !p.Handler?
    ensures !Step(cfg, w, p, o).proc.Handler?
  {
    hide UploadRequest.Step, ScanTask.Step, UploadTask.Step, ExtractTask.Step, Consumer.Step;
    hide Services.StepCreate, Services.StepRetry;
    match p
    case Request(req, pc) => RequestStays(cfg, w, req, pc, o);
    case Scanner(args, pc, left) => ScannerStays(cfg, w, args, pc, left, o);
    case Uploader(args, pc, left) => UploaderStays(w, args, pc, left, o);
    case Extractor(args, pc, left) => ExtractorStays(cfg, w, args, pc, left, o);
    case Creator(d, req, provider, pc) => CreatorStays(w, d, req, provider, pc, o);
    case Retrier(d, req, parent, pc) => RetrierStays(w, d, req, parent, pc, o);
    case _ =>
  }

  lemma StepTraced(cfg: Config, known: set<Lookup>, w: World, p: Proc, o: Outcome)
    requires ProcTraced(known, p)
    ensures ProcTraced(known + LookupOf(p, o), Step(cfg, w, p, o).proc)
  {
    hide UploadRequest.Step, ScanTask.Step, UploadTask.Step, ExtractTask.Step, Consumer.Step, Carried, LookupOf;
    hide Services.StepCancel, Services.StepCreate, Services.StepRetry, Services.StepRemove;
    if p.Handler? {
      HandlerTraced(known, w, p.target, p.analysis, p.req, p.hpc, p.deliveries, o);
    } else {
      OthersTraced(cfg, w, p, o);
    }
  }

  lemma RestTraced(known: set<Lookup>, p: Proc)
    requires !p.Running()
    ensures ProcTraced(known, p)
  {
  }

  /** A write that finishes an analysis records the version its handler carried. */
  lemma WriteTraced(known: set<Lookup>, w: World, p: Proc, o: Outcome)
    requires ProcTraced(known, p)
    ensures var write := WriteOf(w, p, o);
      write.Update? && write.change.Finish? ==> Lookup(write.doc, write.req, write.change.report.prompt) in known
  {
  }

  lemma TableTraced(known: set<Lookup>, t: Table, write: Write)
    requires t.Valid() && RowsTraced(known, t.rows)
    requires write.Update? && write.change.Finish? ==> Lookup(write.doc, write.req, write.change.report.prompt) in known
    ensures RowsTraced(known, write.Apply(t).rows)
  {
  }

  lemma TableIsValid(cfg: Config, s: System)
    requires Safe(cfg, s)
    ensures s.world.analyses.Valid()
  {
    hide Table.Valid;
  }

  lemma ActKeepsTraced(cfg: Config, known: set<Lookup>, s: System, i: nat, o: Outcome)
    requires Safe(cfg, s) && Enabled(cfg, s, Act(i, o)) && Traced(known, s)
    ensures Traced(known + LookupOf(s.procs[i], o), Apply(cfg, s, Act(i, o)))
  {
    hide Safe, Step, ProcTraced, LookupOf, Table.Valid, WriteOf, Write.Apply;
    var w, p, m := s.world, s.procs[i], Step(cfg, s.world, s.procs[i], o);
    var s', more := Apply(cfg, s, Act(i, o)), known + LookupOf(p, o);
    assert ProcTraced(known, p);
    StepTraced(cfg, known, w, p, o);
    SpawnIsIdle(cfg, w, p, o);
    TableIsValid(cfg, s);
    StepTable(cfg, w, p, o);
    WriteTraced(known, w, p, o);
    TableTraced(known, w.analyses, WriteOf(w, p, o));
    forall j | 0 <= j < |s'.procs| ensures ProcTraced(more, s'.procs[j]) {
      if j < |s.procs| {
        if j != i { MoreTraced(known, more, s.procs[j]); }
      } else {
        RestTraced(more, s'.procs[j]);
      }
    }
  }

  lemma MoreTraced(known: set<Lookup>, more: set<Lookup>, p: Proc)
    requires ProcTraced(known, p) && known <= more
    ensures ProcTraced(more, p)
  {
  }

  lemma ArriveKeepsTraced(cfg: Config, known: set<Lookup>, s: System, e: Event)
    requires Enabled(cfg, s, e) && !e.Act? && Traced(known, s)
    ensures Traced(known, Apply(cfg, s, e))
  {
    hide ProcTraced;
    StartedRests(cfg, s, e);
    RestTraced(known, Started(s, e));
  }

  /** Along every run: what was traced before, or to a lookup of the run. */
  lemma {:induction false} RunIsTraced(cfg: Config, known: set<Lookup>, s: System, es: seq<Event>)
    requires cfg.CollisionFree() && Safe(cfg, s) && Numbered(s) && Traced(known, s) && Feasible(cfg, s, es)
    ensures Traced(known + Lookups(cfg, s, es), Run(cfg, s, es))
    decreases |es|
  {
    hide Safe, Numbered, Step, Traced, LookupOf;
    if es == [] {
      assert known + Lookups(cfg, s, es) == known;
    } else {
      var now := if es[0].Act? then LookupOf(s.procs[es[0].i], es[0].o) else {};
      assert known + Lookups(cfg, s, es) == known + now + Lookups(cfg, Apply(cfg, s, es[0]), es[1..]);
      ApplyKeepsSafety(cfg, s, es[0]);
      if es[0].Act? {
        ActKeepsTraced(cfg, known, s, es[0].i, es[0].o);
      } else {
        ArriveKeepsTraced(cfg, known, s, es[0]);
        assert known + now == known;
      }
      RunIsTraced(cfg, known + now, Apply(cfg, s, es[0]), es[1..]);
    }
  }
}
