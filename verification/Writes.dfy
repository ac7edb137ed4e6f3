/** Every write of the program keeps the invariant, one lemma for each kind of write. */
module Writes {
  import opened Types
  import opened AnalysisTable
  import opened Pipeline
  import opened BaseTask
  import opened Invariant
  import Consumer
  import UploadTask
  import UploadRequest

  lemma SameMap<K, V>(m: map<K, V>)
    ensures Extends(m, m)
  {
  }

  lemma SameTable(t: Table, d: nat)
    ensures TableGrows(t, t) && OtherRows(t.rows, t.rows, d)
  {
  }

  lemma SameDocs(docs: seq<Document>, d: nat, texts: map<nat, string>)
    ensures DocsGrow(docs, docs, texts) && OtherDocs(docs, docs, d)
  {
  }

  /** Whatever a write leaves alone grows and is framed. */
  lemma Same(at: Scope, w: World)
    ensures Extends(w.uploads, w.uploads) && Extends(w.objects, w.objects) && Extends(w.texts, w.texts)
    ensures TableGrows(w.analyses, w.analyses) && OtherRows(w.analyses.rows, w.analyses.rows, at.doc)
    ensures DocsGrow(w.docs, w.docs, w.texts) && OtherDocs(w.docs, w.docs, at.doc)
    ensures OtherTemps(w.temps, w.temps, at.temp)
  {
    SameMap(w.uploads);
    SameMap(w.objects);
    SameMap(w.texts);
    SameTable(w.analyses, at.doc);
    SameDocs(w.docs, at.doc, w.texts);
  }

  lemma DocWriteOk(cfg: Config, at: Scope, w: World, d: nat, doc: Document)
    requires WorldOk(cfg, w) && d < |w.docs|
    requires DocOk(cfg, w.uploads, w.objects, doc) && DocGrows(w.docs[d], doc, d in w.texts)
    requires at.doc == d
    ensures Kept(cfg, at, w, w.(docs := w.docs[d := doc]))
  {
    hide Table.Valid, KinOk, RowsOk, TableGrows, OtherRows, BytesOk, GateOk, UploadsOk, DocOk, OtherTemps, Extends;
    Same(at, w);
  }

  lemma StatusOk(cfg: Config, at: Scope, w: World, d: nat, status: DocumentStatus)
    requires WorldOk(cfg, w) && d < |w.docs|
    requires status.Uploaded? || status.Extracting? || status.Extracted? ==> HasKey(w, d)
    requires status.Extracted? ==> d in w.texts
    requires at.doc == d
    ensures Kept(cfg, at, w, w.SetStatus(d, status))
    ensures Kept(cfg, at, w, w.Finish(d, status))
  {
    DocWriteOk(cfg, at, w, d, w.docs[d].(status := status));
    DocWriteOk(cfg, at, w, d, w.docs[d].(status := status, temp := None));
  }

  lemma CleanedOk(cfg: Config, at: Scope, w: World, n: nat, o: Outcome)
    requires WorldOk(cfg, w)
    requires at.temp == Some(n)
    ensures Kept(cfg, at, w, Cleaned(w, n, o))
  {
    hide Table.Valid, KinOk, RowsOk, TableGrows, OtherRows, DocsOk, TextsOk, GateOk, UploadsOk, DocsGrow, OtherDocs, Extends;
    Same(at, w);
  }

  lemma TempOk(cfg: Config, at: Scope, w: World, n: nat)
    requires WorldOk(cfg, w) && n in w.uploads
    requires at.temp == Some(n)
    ensures Kept(cfg, at, w, w.(temps := w.temps[n := w.uploads[n].bytes]))
  {
    hide Table.Valid, KinOk, RowsOk, TableGrows, OtherRows, DocsOk, TextsOk, GateOk, UploadsOk, DocsGrow, OtherDocs, Extends;
    Same(at, w);
  }

  lemma PutOk(cfg: Config, at: Scope, w: World, n: nat)
    requires WorldOk(cfg, w) && n in w.temps && Scanned(cfg, w, n)
    ensures Kept(cfg, at, w, w.(objects := w.objects[n := w.temps[n]]))
  {
    hide Table.Valid, KinOk, RowsOk, TableGrows, OtherRows, TextsOk, UploadsOk, DocsGrow, OtherDocs, OtherTemps;
    Same(at, w);
    var objects' := w.objects[n := w.temps[n]];
    assert forall k <- w.objects :: objects'[k] == w.objects[k];
  }

  lemma TextOk(cfg: Config, at: Scope, w: World, d: nat, text: string)
    requires WorldOk(cfg, w) && d < |w.docs| && TextOf(cfg, w.uploads[w.docs[d].req]) == Some(text)
    ensures Kept(cfg, at, w, w.(texts := w.texts[d := text]))
  {
    hide Table.Valid, KinOk, TableGrows, OtherRows, GateOk, BytesOk, UploadsOk, OtherTemps, OtherDocs;
    Same(at, w);
  }

  lemma TableOk(cfg: Config, at: Scope, w: World, t: Table)
    requires WorldOk(cfg, w) && t.Valid() && RowsOk(t.rows, w.texts) && KinOk(t.rows) && TableGrows(w.analyses, t)
    requires OtherRows(w.analyses.rows, t.rows, at.doc)
    ensures Kept(cfg, at, w, w.(analyses := t))
  {
    hide Table.Valid, KinOk, RowsOk, TableGrows, OtherRows, DocsOk, TextsOk, GateOk, BytesOk, UploadsOk;
    hide OtherTemps, OtherDocs, DocsGrow, Extends;
    Same(at, w);
  }

  lemma InsertKin(t: Table, d: nat, req: nat, provider: Provider, retryOf: Option<nat>)
    requires t.Valid() && KinOk(t.rows) && t.Accepts(d, req, retryOf)
    requires retryOf.Some? ==> ParentIs(t, d, retryOf.value, provider)
    ensures KinOk(t.Insert(d, req, provider, retryOf).rows)
  {
  }

  lemma InsertGrows(t: Table, d: nat, req: nat, provider: Provider, retryOf: Option<nat>)
    requires t.Valid() && t.Accepts(d, req, retryOf)
    ensures TableGrows(t, t.Insert(d, req, provider, retryOf))
  {
  }

  lemma InsertOk(cfg: Config, at: Scope, w: World, d: nat, req: nat, provider: Provider, retryOf: Option<nat>)
    requires WorldOk(cfg, w) && w.analyses.Accepts(d, req, retryOf) && d in w.texts
    requires retryOf.Some? ==> ParentIs(w.analyses, d, retryOf.value, provider)
    requires at.doc == d
    ensures Kept(cfg, at, w, w.(analyses := w.analyses.Insert(d, req, provider, retryOf)))
  {
    hide DocsOk, UploadsOk, BytesOk, GateOk, TextsOk, Table.Valid, KinOk, TableGrows, Kept;
    var t := w.analyses.Insert(d, req, provider, retryOf);
    InsertRows(w.analyses, d, req, provider, retryOf, w.texts);
    InsertValid(w.analyses, d, req, provider, retryOf);
    InsertKin(w.analyses, d, req, provider, retryOf);
    InsertGrows(w.analyses, d, req, provider, retryOf);
    TableOk(cfg, at, w, t);
  }

  lemma InsertRows(t: Table, d: nat, req: nat, provider: Provider, retryOf: Option<nat>, texts: map<nat, string>)
    requires t.Valid() && RowsOk(t.rows, texts) && t.Accepts(d, req, retryOf) && d in texts
    ensures var t' := t.Insert(d, req, provider, retryOf);
      RowsOk(t'.rows, texts) && OtherRows(t.rows, t'.rows, d)
  {
  }

  lemma UpdateRows(t: Table, d: nat, req: nat, change: Change, texts: map<nat, string>)
    requires t.Valid() && RowsOk(t.rows, texts)
    requires change.Finish? ==> d in texts && change.report.text == texts[d]
    ensures RowsOk(t.Update(d, req, change).rows, texts)
  {
  }

  lemma UpdateKin(t: Table, d: nat, req: nat, change: Change)
    requires t.Valid() && KinOk(t.rows)
    ensures KinOk(t.Update(d, req, change).rows)
  {
    hide KinOk;
    UpdateGrows(t, d, req, change);
    KinKept(t, t.Update(d, req, change));
  }

  /** Lineage is a matter of fields that no update touches. */
  lemma KinKept(t: Table, t': Table)
    requires KinOk(t.rows) && forall a <- t'.rows :: a in t.rows && SameRun(t.rows[a], t'.rows[a])
    ensures KinOk(t'.rows)
  {
  }

  lemma UpdateGrows(t: Table, d: nat, req: nat, change: Change)
    requires t.Valid()
    ensures TableGrows(t, t.Update(d, req, change))
  {
  }

  lemma UpdateFrame(t: Table, d: nat, req: nat, change: Change)
    requires t.Valid()
    ensures OtherRows(t.rows, t.Update(d, req, change).rows, d)
  {
  }

  lemma UpdateOk(cfg: Config, at: Scope, w: World, d: nat, req: nat, change: Change)
    requires WorldOk(cfg, w)
    requires change.Finish? ==> d in w.texts && change.report.text == w.texts[d]
    requires at.doc == d
    ensures Kept(cfg, at, w, w.Update(d, req, change))
  {
    UpdateValid(w.analyses, d, req, change);
    UpdateRows(w.analyses, d, req, change, w.texts);
    UpdateKin(w.analyses, d, req, change);
    UpdateGrows(w.analyses, d, req, change);
    UpdateFrame(w.analyses, d, req, change);
    TableOk(cfg, at, w, w.analyses.Update(d, req, change));
  }

  lemma DeleteRows(t: Table, a: nat, texts: map<nat, string>, d: nat)
    requires RowsOk(t.rows, texts) && KinOk(t.rows)
    requires a in t.rows ==> t.rows[a].doc == d
    ensures RowsOk(t.Delete(a).rows, texts) && KinOk(t.Delete(a).rows) && TableGrows(t, t.Delete(a))
    ensures OtherRows(t.rows, t.Delete(a).rows, d)
  {
  }

  lemma DeleteOk(cfg: Config, at: Scope, w: World, a: nat)
    requires WorldOk(cfg, w)
    requires a in w.analyses.rows ==> w.analyses.rows[a].doc == at.doc
    ensures Kept(cfg, at, w, w.(analyses := w.analyses.Delete(a)))
  {
    DeleteValid(w.analyses, a);
    DeleteRows(w.analyses, a, w.texts, at.doc);
    TableOk(cfg, at, w, w.analyses.Delete(a));
  }

  lemma SameOk(cfg: Config, at: Scope, w: World)
    requires WorldOk(cfg, w)
    ensures Kept(cfg, at, w, w)
  {
    hide WorldOk, Extends, TableGrows, OtherRows, DocsGrow, OtherDocs, OtherTemps;
    Same(at, w);
  }

  lemma CleanOk(cfg: Config, at: Scope, w: World, n: nat)
    requires WorldOk(cfg, w)
    ensures n in w.temps ==> Kept(cfg, at, w, w.(clean := w.clean + {w.temps[n]}))
  {
    hide Table.Valid, KinOk, RowsOk, TableGrows, OtherRows, DocsOk, TextsOk, BytesOk, UploadsOk, DocsGrow, OtherDocs, OtherTemps, Extends;
    Same(at, w);
  }

  /** The history of failed last resorts is not looked at. */
  lemma LossOk(cfg: Config, at: Scope, w: World, w': World)
    requires WorldOk(cfg, w)
    requires w' == w.(lostDocs := w'.lostDocs, lostRuns := w'.lostRuns, leaked := w'.leaked)
    requires w.lostDocs <= w'.lostDocs && w.lostRuns <= w'.lostRuns && w.leaked <= w'.leaked
    ensures Kept(cfg, at, w, w')
  {
    hide Table.Valid, KinOk, RowsOk, TableGrows, OtherRows, DocsOk, TextsOk, BytesOk, GateOk, UploadsOk, DocsGrow, OtherDocs, OtherTemps, Extends;
    Same(at, w);
  }

  lemma ExtendsTrans<K, V>(m: map<K, V>, m': map<K, V>, m'': map<K, V>)
    requires Extends(m, m') && Extends(m', m'')
    ensures Extends(m, m'')
  {
  }

  lemma GrowsTrans(w: World, w': World, w'': World)
    requires Grows(w, w') && Grows(w', w'')
    ensures Grows(w, w'')
  {
    hide Extends;
    ExtendsTrans(w.uploads, w'.uploads, w''.uploads);
    ExtendsTrans(w.objects, w'.objects, w''.objects);
    ExtendsTrans(w.texts, w'.texts, w''.texts);
    assert forall d <- w'.texts :: d in w''.texts by { ExtendsKeys(w'.texts, w''.texts); }
  }

  lemma ExtendsKeys<K, V>(m: map<K, V>, m': map<K, V>)
    requires Extends(m, m')
    ensures forall k <- m :: k in m'
  {
  }

  lemma FramedTrans(at: Scope, w: World, w': World, w'': World)
    requires Framed(at, w, w') && Framed(at, w', w'') && DocsGrow(w'.docs, w''.docs, w''.texts)
    ensures Framed(at, w, w'')
  {
  }

  lemma KeptTrans(cfg: Config, at: Scope, w: World, w': World, w'': World)
    requires Kept(cfg, at, w, w') && Kept(cfg, at, w', w'')
    ensures Kept(cfg, at, w, w'')
  {
    hide WorldOk, Framed, Extends, DocsGrow, TableGrows;
    GrowsTrans(w, w', w'');
    FramedTrans(at, w, w', w'');
  }
}
