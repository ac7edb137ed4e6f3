/** The collection of analyses with its two unique indexes. Lookups go through the indexes,
    so an insert is refused exactly when one of the indexes already holds its key. */
module AnalysisTable {
  import opened Types

  datatype Analysis = Analysis(
    doc: nat,
    req: nat,
    provider: Provider,
    status: AnalysisStatus,
    failure: Option<FailureKind>,
    report: Option<Report>,
    prompt: Option<nat>,
    retryOf: Option<nat>)
  {
    predicate Terminal() {
      status.Succeeded? || status.Broken?
    }

    /** A failure names its kind, a success carries a result and the prompt version it used. */
    predicate WellFormed() {
      && (status.Broken? <==> failure.Some?)
      && (status.Succeeded? <==> report.Some?)
      && (report.Some? <==> prompt.Some?)
      && (report.Some? ==> report.value.prompt == prompt.value)
    }

    predicate Retryable() {
      status.Broken? && failure == Some(Transient)
    }

    function With(change: Change): Analysis {
      match change
      case Begin => this.(status := Analyzing)
      case Break(kind) => this.(status := Broken, failure := Some(kind))
      case Finish(report) =>
        this.(status := Succeeded, failure := None, report := Some(report), prompt := Some(report.prompt))
    }
  }

  /** The three field updates the consumer and the services apply to an analysis. */
  datatype Change = Begin | Break(kind: FailureKind) | Finish(report: Report)

  /** `removed` remembers the ids of deleted rows; ids are never used twice. */
  datatype Table = Table(
    rows: map<nat, Analysis>,
    byRequest: map<(nat, nat), nat>,
    byParent: map<nat, nat>,
    next: nat,
    removed: set<nat>)
  {
    /** The indexes hold exactly the keys of the rows, and every id below `next` is a row or was removed. */
    ghost predicate Valid() {
      && (forall a <- rows :: a < next && (rows[a].doc, rows[a].req) in byRequest
                           && byRequest[(rows[a].doc, rows[a].req)] == a)
      && (forall k <- byRequest :: byRequest[k] in rows && (rows[byRequest[k]].doc, rows[byRequest[k]].req) == k)
      && (forall a <- rows :: rows[a].retryOf.Some? ==>
            && rows[a].retryOf.value in byParent && byParent[rows[a].retryOf.value] == a
            && rows[a].retryOf.value < a)
      && (forall p <- byParent :: byParent[p] in rows && rows[byParent[p]].retryOf == Some(p))
      && (forall a :: 0 <= a < next ==> a in rows || a in removed)
      && (forall a <- removed :: a < next && a !in rows)
    }

    function Find(doc: nat, req: nat): Option<nat> {
      if (doc, req) in byRequest then Some(byRequest[(doc, req)]) else None
    }

    function FindChild(parent: nat): Option<nat> {
      if parent in byParent then Some(byParent[parent]) else None
    }

    predicate Accepts(doc: nat, req: nat, retryOf: Option<nat>) {
      (doc, req) !in byRequest && (retryOf.Some? ==> retryOf.value !in byParent)
    }

    /** Inserts a queued analysis under the id `next`. */
    function Insert(doc: nat, req: nat, provider: Provider, retryOf: Option<nat>): (t: Table)
      requires Accepts(doc, req, retryOf)
    {
      Table(
        rows[next := Analysis(doc, req, provider, Queued, None, None, None, retryOf)],
        byRequest[(doc, req) := next],
        if retryOf.Some? then byParent[retryOf.value := next] else byParent,
        next + 1,
        removed)
    }

    /** Looks the row up by document and request and saves it back with the change applied. */
    function Update(doc: nat, req: nat, change: Change): Table {
      match Find(doc, req)
      case None => this
      case Some(a) => if a in rows then this.(rows := rows[a := rows[a].With(change)]) else this
    }

    function Delete(a: nat): Table
    {
      if a !in rows then this else
      var row := rows[a];
      Table(
        map b | b in rows && b != a :: rows[b],
        map k | k in byRequest && k != (row.doc, row.req) :: byRequest[k],
        map p | p in byParent && byParent[p] != a :: byParent[p],
        next,
        removed + {a})
    }
  }

  const EMPTY := Table(map[], map[], map[], 0, {})

  /** A lookup through an index finds exactly the row with that key. */
  lemma LookupsAreExact(t: Table, doc: nat, req: nat, parent: nat, a: nat)
    requires t.Valid()
    ensures t.Find(doc, req) == Some(a) <==> a in t.rows && t.rows[a].doc == doc && t.rows[a].req == req
    ensures t.FindChild(parent) == Some(a) <==> a in t.rows && t.rows[a].retryOf == Some(parent)
  {
  }

  lemma AcceptsIff(t: Table, doc: nat, req: nat, retryOf: Option<nat>)
    requires t.Valid()
    ensures t.Accepts(doc, req, retryOf) <==>
      forall a <- t.rows :: !(t.rows[a].doc == doc && t.rows[a].req == req) && (retryOf.Some? ==> t.rows[a].retryOf != retryOf)
  {
    if (doc, req) in t.byRequest { assert t.byRequest[(doc, req)] in t.rows; }
    if retryOf.Some? && retryOf.value in t.byParent { assert t.byParent[retryOf.value] in t.rows; }
  }

  /** A queued row appears under an id that was never used, and nothing else changes. */
  lemma InsertValid(t: Table, doc: nat, req: nat, provider: Provider, retryOf: Option<nat>)
    requires t.Valid() && t.Accepts(doc, req, retryOf)
    requires retryOf.Some? ==> retryOf.value < t.next
    ensures var t' := t.Insert(doc, req, provider, retryOf);
      && t'.Valid() && t'.next == t.next + 1 && t'.removed == t.removed && t.next !in t.rows
      && t'.rows == t.rows[t.next := Analysis(doc, req, provider, Queued, None, None, None, retryOf)]
  {
  }

  lemma UpdateValid(t: Table, doc: nat, req: nat, change: Change)
    requires t.Valid()
    ensures t.Update(doc, req, change).Valid()
  {
  }

  /** The row with that document and request changes, and no other. */
  lemma UpdateRows(t: Table, doc: nat, req: nat, change: Change)
    requires t.Valid()
    ensures var t' := t.Update(doc, req, change);
      && t'.next == t.next && t'.removed == t.removed && t'.rows.Keys == t.rows.Keys
      && forall a <- t.rows :: t'.rows[a] ==
           if t.rows[a].doc == doc && t.rows[a].req == req then t.rows[a].With(change) else t.rows[a]
  {
    hide Analysis.With;
    forall a | a in t.rows { LookupsAreExact(t, doc, req, 0, a); }
  }

  /** The row is gone, its id is spent, and the keys of the others still lead to them. */
  lemma DeleteValid(t: Table, a: nat)
    requires t.Valid()
    ensures var t' := t.Delete(a);
      t'.Valid() && t'.next == t.next && t'.rows == t.rows - {a} && (a in t.rows ==> a in t'.removed)
  {
  }
}
