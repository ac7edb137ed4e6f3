/** The whole system: shared state plus every process ever started, and the events that change it. */
module Machine {
  import opened Types
  import opened Pipeline
  import Validation
  import ScanTask
  import UploadTask
  import ExtractTask
  import UploadRequest
  import Services
  import Consumer

  datatype System = System(world: World, procs: seq<Proc>)

  const EMPTY_SYSTEM := System(EMPTY_WORLD, [])

  /** One external call of one process. */
  function Step(cfg: Config, w: World, p: Proc, o: Outcome): Move {
    match p
    case Request(req, pc) => UploadRequest.Step(cfg, w, req, pc, o)
    case Scanner(args, pc, left) => ScanTask.Step(cfg, w, args, pc, left, o)
    case Uploader(args, pc, left) => UploadTask.Step(w, args, pc, left, o)
    case Extractor(args, pc, left) => ExtractTask.Step(cfg, w, args, pc, left, o)
    case Canceller(d, pc) => Services.StepCancel(w, d, pc, o)
    case Creator(d, req, provider, pc) => Services.StepCreate(w, d, req, provider, pc, o)
    case Retrier(d, req, parent, pc) => Services.StepRetry(w, d, req, parent, pc, o)
    case Remover(d, target, pc) => Services.StepRemove(w, d, target, pc, o)
    case Handler(d, a, req, pc, n) => Consumer.Step(w, d, a, req, pc, n, o)
  }

  /** Either some process makes its next call, or the outside world acts: a request arrives, or the broker
      delivers a task or a message once more (`count` is the retry count that copy carries). */
  datatype Event =
    | Act(i: nat, o: Outcome)
    | NewUpload(bytes: Bytes, extension: string, provider: Provider)
    | NewCancel(doc: nat)
    | NewCreate(doc: nat, provider: Provider)
    | NewRetry(doc: nat, parent: nat)
    | NewRemove(doc: nat, target: nat)
    | Duplicate(i: nat, count: nat)

  predicate Enabled(cfg: Config, s: System, e: Event) {
    match e
    case Act(i, _) => i < |s.procs| && !s.procs[i].Ended()
    case NewUpload(bytes, extension, _) => Validation.Accept(cfg, bytes, extension).Some?
    case Duplicate(i, count) => i < |s.procs| && (s.procs[i].IsTask() || s.procs[i].Handler?) && count <= MAX_RETRIES
    case _ => true
  }

  /** A second delivery starts from the beginning with the same arguments. */
  function Copy(p: Proc, count: nat): Proc {
    match p
    case Scanner(args, _, _) => Scanner(args, ScanPc.Start, count)
    case Uploader(args, _, _) => Uploader(args, UploadPc.Start, count)
    case Extractor(args, _, _) => Extractor(args, ExtractPc.Start, count)
    case Handler(d, a, req, _, _) => Handler(d, a, req, HandlerPc.Start, count)
    case _ => p
  }

  /** The process an outside event starts. Request ids are fresh: the position of the process. */
  function Started(s: System, e: Event): Proc
    requires !e.Act? && (e.Duplicate? ==> e.i < |s.procs|)
  {
    var req := |s.procs|;
    match e
    case NewUpload(_, _, _) => Request(req, Save)
    case NewCancel(d) => Canceller(d, CancelPc.Start)
    case NewCreate(d, provider) => Creator(d, req, provider, ApiPc.Start)
    case NewRetry(d, parent) => Retrier(d, req, parent, ApiPc.Start)
    case NewRemove(d, target) => Remover(d, target, RemovePc.Start)
    case Duplicate(i, count) => Copy(s.procs[i], count)
  }

  function Arrive(cfg: Config, s: System, e: Event): World {
    if e.NewUpload? && Validation.Accept(cfg, e.bytes, e.extension).Some? then
      s.world.(uploads := s.world.uploads[|s.procs| :=
        UploadedFile(e.bytes, Validation.Accept(cfg, e.bytes, e.extension).value, e.provider)])
    else s.world
  }

  function Apply(cfg: Config, s: System, e: Event): System
    requires Enabled(cfg, s, e)
  {
    if e.Act? then
      var m := Step(cfg, s.world, s.procs[e.i], e.o);
      System(m.world, s.procs[e.i := m.proc] + if m.spawned.Some? then [m.spawned.value] else [])
    else
      System(Arrive(cfg, s, e), s.procs + [Started(s, e)])
  }

  /** A run: every event is enabled when it happens. */
  predicate Feasible(cfg: Config, s: System, es: seq<Event>)
    decreases |es|
  {
    es == [] || (Enabled(cfg, s, es[0]) && Feasible(cfg, Apply(cfg, s, es[0]), es[1..]))
  }

  function Run(cfg: Config, s: System, es: seq<Event>): System
    requires Feasible(cfg, s, es)
    decreases |es|
  {
    if es == [] then s else Run(cfg, Apply(cfg, s, es[0]), es[1..])
  }
}
