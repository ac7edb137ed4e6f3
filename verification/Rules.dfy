/** Rules about overlapping, each for the promises that need it. A rule says which processes may not step while
    another one is in the middle of its work; everything else interleaves freely. */
module Rules {
  import opened Types
  import opened Pipeline
  import opened Machine

  datatype Rule =
    | OnePerAnalysis      // handlers and dispatchers of one analysis
    | RetryOrRemove       // the retry and the removal of one analysis
    | OneTaskPerDocument  // the upload request and the tasks of one document

  /** Document and request of the analysis a process works on. */
  function KeyOf(p: Proc): Option<(nat, nat)> {
    match p
    case Request(req, _) => if p.Doc().Some? then Some((p.Doc().value, req)) else None
    case Extractor(args, _, _) => Some((args.doc, args.req))
    case Creator(d, req, _, _) => Some((d, req))
    case Retrier(d, req, _, _) => Some((d, req))
    case Handler(d, _, req, _, _) => Some((d, req))
    case _ => None
  }

  predicate OnFile(p: Proc) {
    p.Request? || p.IsTask()
  }

  predicate Clash(rule: Rule, p: Proc, q: Proc) {
    match rule
    case OnePerAnalysis => KeyOf(p).Some? && KeyOf(p) == KeyOf(q)
    case RetryOrRemove =>
      (p.Retrier? && q.Remover? && p.parent == q.analysis) || (p.Remover? && q.Retrier? && p.analysis == q.parent)
    case OneTaskPerDocument => OnFile(p) && OnFile(q) && p.Doc().Some? && p.Doc() == q.Doc()
  }

  /** No clashing process is in the middle of its work. */
  ghost predicate Free(rule: Rule, procs: seq<Proc>, i: nat)
    requires i < |procs|
  {
    forall j :: 0 <= j < |procs| && j != i && procs[j].Running() ==> !Clash(rule, procs[i], procs[j])
  }

  /** Every step of the run is made while nothing that clashes with it is under way. */
  ghost predicate Respects(cfg: Config, rule: Rule, s: System, es: seq<Event>)
    requires Feasible(cfg, s, es)
    decreases |es|
  {
    es != [] ==>
      && (es[0].Act? ==> Free(rule, s.procs, es[0].i))
      && Respects(cfg, rule, Apply(cfg, s, es[0]), es[1..])
  }
}
