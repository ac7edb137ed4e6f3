/** The tables, the disk, the object store and the queue, as one process uses them.

    Every method is one external call; the environment decides how it turns out. The ghost fields follow the step
    machine: `Valid` says that the calls made so far are exactly those of the process that was begun, with the same
    effects, the same messages sent, and the process now at `pos`. A method demands of its caller that the call it
    makes is the one `pos` stands for. */
module Stores {
  import opened Types
  import opened AnalysisTable
  import opened Pipeline
  import opened BaseTask
  import opened Machine
  import UploadTask

  function Sending(p: Option<Proc>): seq<Proc> {
    if p.Some? then [p.value] else []
  }

  /** Where process `p` stands after its calls turned out as listed, and what it has enqueued by then. */
  ghost function Follow(cfg: Config, w: World, p: Proc, calls: seq<Outcome>): (World, Proc, seq<Proc>) {
    if calls == [] then (w, p, []) else
    var last := |calls| - 1;
    var (w1, p1, sent) := Follow(cfg, w, p, calls[..last]);
    var m := Step(cfg, w1, p1, calls[last]);
    (m.world, m.proc, sent + Sending(m.spawned))
  }

  lemma FollowOne(cfg: Config, w: World, p: Proc, calls: seq<Outcome>, o: Outcome)
    ensures var (w1, p1, sent) := Follow(cfg, w, p, calls);
      var m := Step(cfg, w1, p1, o);
      Follow(cfg, w, p, calls + [o]) == (m.world, m.proc, sent + Sending(m.spawned))
  {
    assert (calls + [o])[..|calls|] == calls;
  }

  /** The process was still under way at each of these calls. */
  ghost predicate Busy(cfg: Config, w: World, p: Proc, calls: seq<Outcome>) {
    calls != [] ==>
      Busy(cfg, w, p, calls[..|calls| - 1]) && !Follow(cfg, w, p, calls[..|calls| - 1]).1.Ended()
  }

  lemma BusyOne(cfg: Config, w: World, p: Proc, calls: seq<Outcome>, o: Outcome)
    requires Busy(cfg, w, p, calls) && !Follow(cfg, w, p, calls).1.Ended()
    ensures Busy(cfg, w, p, calls + [o])
  {
    assert (calls + [o])[..|calls|] == calls;
  }

  /** A duplicate whose text could not be copied is treated like one without a text. */
  function Degraded(w: World, d: nat, name: nat): World {
    if d < |w.docs| then w.(docs := w.docs[d := w.docs[d].(status := Uploaded, temp := Some(name))]) else w
  }

  /** The same tables and files; the history may differ. */
  ghost predicate Agrees(w: World, w': World) {
    && w.docs == w'.docs && w.temps == w'.temps && w.objects == w'.objects && w.texts == w'.texts
    && w.analyses == w'.analyses && w.uploads == w'.uploads
  }

  /** A database write may raise before it lands or after. */
  predicate Lands(o: Outcome) { !(o.Raise? && !o.landed) }

  /** So may a write that tells a refusal from other errors ... */
  predicate LandsUnlessRefused(o: Outcome) { Lands(o) && !(o.Refuse? && !o.landed) }

  /** ... or a lost connection. */
  predicate LandsUnlessDisconnected(o: Outcome) { Lands(o) && !(o.Disconnect? && !o.landed) }

  /** A refused download leaves the file alone. */
  predicate Downloads(o: Outcome) { Lands(o) && !o.Refuse? }

  /** The next call of `p` changes the tables from `w` to `w'` if it lands, and not at all otherwise. */
  ghost predicate Writes(cfg: Config, w: World, p: Proc, w': World, lands: Outcome -> bool) {
    forall o :: Agrees(Step(cfg, w, p, o).world, if lands(o) then w' else w) && Step(cfg, w, p, o).spawned.None?
  }

  ghost predicate Reads(cfg: Config, w: World, p: Proc) {
    forall o :: Agrees(Step(cfg, w, p, o).world, w) && Step(cfg, w, p, o).spawned.None?
  }

  /** The next call of `p` puts `q` into the queue if it lands. */
  ghost predicate Enqueues(cfg: Config, w: World, p: Proc, q: Proc) {
    forall o :: Agrees(Step(cfg, w, p, o).world, w) && Step(cfg, w, p, o).spawned == Sent(q, o)
  }

  /** The next call of `p` removes a temp file, and ignores a failure. */
  ghost predicate Unlinks(cfg: Config, w: World, p: Proc, n: nat) {
    forall o :: Agrees(Step(cfg, w, p, o).world, Cleaned(w, n, o)) && Step(cfg, w, p, o).spawned.None?
  }

  lemma OneWrite(cfg: Config, w: World, p: Proc, w': World, lands: Outcome -> bool, o: Outcome)
    requires Writes(cfg, w, p, w', lands)
    ensures Agrees(Step(cfg, w, p, o).world, if lands(o) then w' else w) && Step(cfg, w, p, o).spawned.None?
  {
    hide Step;
  }

  lemma OneRead(cfg: Config, w: World, p: Proc, o: Outcome)
    requires Reads(cfg, w, p)
    ensures Agrees(Step(cfg, w, p, o).world, w) && Step(cfg, w, p, o).spawned.None?
  {
    hide Step;
  }

  lemma OneEnqueue(cfg: Config, w: World, p: Proc, q: Proc, o: Outcome)
    requires Enqueues(cfg, w, p, q)
    ensures Agrees(Step(cfg, w, p, o).world, w) && Step(cfg, w, p, o).spawned == Sent(q, o)
  {
    hide Step;
  }

  lemma OneUnlink(cfg: Config, w: World, p: Proc, n: nat, o: Outcome)
    requires Unlinks(cfg, w, p, n)
    ensures Agrees(Step(cfg, w, p, o).world, Cleaned(w, n, o)) && Step(cfg, w, p, o).spawned.None?
  {
    hide Step;
  }

  class Stores {
    const cfg: Config
    var docs: seq<Document>
    var temps: map<nat, Bytes>
    var objects: map<nat, Bytes>
    var texts: map<nat, string>
    var analyses: Table
    const uploads: map<nat, UploadedFile>
    var queue: seq<Proc>
    ghost var clean: set<Bytes>
    ghost var lostDocs: set<nat>
    ghost var lostRuns: set<nat>
    ghost var leaked: set<nat>
    ghost var origin: World
    ghost var first: Proc
    ghost var calls: seq<Outcome>
    ghost var pos: Proc

    ghost function World(): World
      reads this
    {
      Pipeline.World(docs, temps, objects, texts, analyses, uploads, clean, lostDocs, lostRuns, leaked)
    }

    ghost predicate Valid()
      reads this
    {
      Follow(cfg, origin, first, calls) == (World(), pos, queue) && Busy(cfg, origin, first, calls)
    }

    /** The same process is still under way, and what it has done so far stands. */
    twostate predicate Continues()
      reads this
    {
      Valid() && origin == old(origin) && first == old(first) && old(calls) <= calls
    }

    /** One of the calls made since then raised. */
    twostate predicate SomeRaised()
      reads this
    {
      exists i :: |old(calls)| <= i < |calls| && calls[i].Raise?
    }

    /** The call made last. */
    ghost function Latest(): Outcome
      requires calls != []
      reads this
    {
      calls[|calls| - 1]
    }

    /** It has made one call more, which turned out as `o`. */
    twostate predicate Called(o: Outcome)
      reads this
    {
      && Continues() && calls == old(calls) + [o]
      && World() == Step(cfg, old(World()), old(pos), o).world
      && pos == Step(cfg, old(World()), old(pos), o).proc
    }

    /** A new process takes over. */
    method Begin(p: Proc)
      modifies this
      ensures Valid() && World() == old(World()) && origin == World() && first == p && pos == p && calls == [] && queue == []
    {
      queue := [];
      origin, first, calls, pos := World(), p, [], p;
    }

    /** The environment has answered a call; the history takes note. */
    ghost method Note(w: World, sent: seq<Proc>, o: Outcome)
      requires Follow(cfg, origin, first, calls) == (w, pos, sent) && Busy(cfg, origin, first, calls) && !pos.Ended()
      requires Agrees(Step(cfg, w, pos, o).world, World()) && queue == sent + Sending(Step(cfg, w, pos, o).spawned)
      modifies this`clean, this`lostDocs, this`lostRuns, this`leaked, this`calls, this`pos
      ensures Valid() && calls == old(calls) + [o]
      ensures pos == Step(cfg, w, old(pos), o).proc && World() == Step(cfg, w, old(pos), o).world
    {
      hide Step, Follow, Busy;
      FollowOne(cfg, origin, first, calls, o);
      BusyOne(cfg, origin, first, calls, o);
      var m := Step(cfg, w, pos, o);
      clean, lostDocs, lostRuns, leaked := m.world.clean, m.world.lostDocs, m.world.lostRuns, m.world.leaked;
      calls, pos := calls + [o], m.proc;
    }

    /** Not a call at all: the program raises an exception of its own. */
    ghost method Pass()
      requires Valid() && !pos.Ended() && Reads(cfg, World(), pos)
      modifies this`clean, this`lostDocs, this`lostRuns, this`leaked, this`calls, this`pos
      ensures Called(Ok(0)) && queue == old(queue) && Agrees(World(), old(World()))
    {
      hide Step, Follow, Busy, Reads;
      OneRead(cfg, World(), pos, Ok(0));
      Note(World(), queue, Ok(0));
    }

    /** A call that only reads. */
    method Read() returns (o: Outcome)
      requires Valid() && !pos.Ended() && Reads(cfg, World(), pos)
      modifies this
      ensures Called(o) && queue == old(queue) && Agrees(World(), old(World()))
    {
      hide Step, Follow, Busy, Reads;
      o := *;
      OneRead(cfg, World(), pos, o);
      Note(World(), queue, o);
    }

    method SetStatus(d: nat, status: DocumentStatus) returns (o: Outcome)
      requires Valid() && !pos.Ended()
      requires Writes(cfg, World(), pos, World().SetStatus(d, status), Lands)
      modifies this
      ensures Called(o) && queue == old(queue)
      ensures Agrees(World(), if Lands(o) then old(World().SetStatus(d, status)) else old(World()))
    {
      hide Step, Follow, Busy, Writes;
      o := *;
      ghost var w, w' := World(), World().SetStatus(d, status);
      OneWrite(cfg, w, pos, w', Lands, o);
      if Lands(o) { if d < |docs| { docs := docs[d := docs[d].(status := status)]; } }
      Note(w, queue, o);
    }

    method Finish(d: nat, status: DocumentStatus) returns (o: Outcome)
      requires Valid() && !pos.Ended()
      requires Writes(cfg, World(), pos, World().Finish(d, status), Lands)
      modifies this
      ensures Called(o) && queue == old(queue)
      ensures Agrees(World(), if Lands(o) then old(World().Finish(d, status)) else old(World()))
    {
      hide Step, Follow, Busy, Writes;
      o := *;
      ghost var w, w' := World(), World().Finish(d, status);
      OneWrite(cfg, w, pos, w', Lands, o);
      if Lands(o) { if d < |docs| { docs := docs[d := docs[d].(status := status, temp := None)]; } }
      Note(w, queue, o);
    }

    method SetUploaded(d: nat, key: nat) returns (o: Outcome)
      requires Valid() && !pos.Ended()
      requires Writes(cfg, World(), pos, UploadTask.SetUploaded(World(), d, key), Lands)
      modifies this
      ensures Called(o) && queue == old(queue)
      ensures Agrees(World(), if Lands(o) then old(UploadTask.SetUploaded(World(), d, key)) else old(World()))
    {
      hide Step, Follow, Busy, Writes;
      o := *;
      ghost var w, w' := World(), UploadTask.SetUploaded(World(), d, key);
      OneWrite(cfg, w, pos, w', Lands, o);
      if Lands(o) { if d < |docs| { docs := docs[d := docs[d].(key := Some(key), status := Uploaded)]; } }
      Note(w, queue, o);
    }

    method Degrade(d: nat, name: nat) returns (o: Outcome)
      requires Valid() && !pos.Ended()
      requires Writes(cfg, World(), pos, Degraded(World(), d, name), Lands)
      modifies this
      ensures Called(o) && queue == old(queue)
      ensures Agrees(World(), if Lands(o) then old(Degraded(World(), d, name)) else old(World()))
    {
      hide Step, Follow, Busy, Writes;
      o := *;
      ghost var w, w' := World(), Degraded(World(), d, name);
      OneWrite(cfg, w, pos, w', Lands, o);
      if Lands(o) { if d < |docs| { docs := docs[d := docs[d].(status := Uploaded, temp := Some(name))]; } }
      Note(w, queue, o);
    }

    method CreateDocument(doc: Document) returns (o: Outcome)
      requires Valid() && !pos.Ended()
      requires Writes(cfg, World(), pos, World().(docs := docs + [doc]), Lands)
      modifies this
      ensures Called(o) && queue == old(queue)
      ensures Agrees(World(), if Lands(o) then old(World().(docs := docs + [doc])) else old(World()))
    {
      hide Step, Follow, Busy, Writes;
      o := *;
      ghost var w, w' := World(), World().(docs := docs + [doc]);
      OneWrite(cfg, w, pos, w', Lands, o);
      if Lands(o) { docs := docs + [doc]; }
      Note(w, queue, o);
    }

    method SaveTemp(n: nat, bytes: Bytes) returns (o: Outcome)
      requires Valid() && !pos.Ended()
      requires Writes(cfg, World(), pos, World().(temps := temps[n := bytes]), Lands)
      modifies this
      ensures Called(o) && queue == old(queue)
      ensures Agrees(World(), if Lands(o) then old(World().(temps := temps[n := bytes])) else old(World()))
    {
      hide Step, Follow, Busy, Writes;
      o := *;
      ghost var w, w' := World(), World().(temps := temps[n := bytes]);
      OneWrite(cfg, w, pos, w', Lands, o);
      if Lands(o) { temps := temps[n := bytes]; }
      Note(w, queue, o);
    }

    method PutObject(key: nat) returns (o: Outcome)
      requires Valid() && !pos.Ended() && key in temps
      requires Writes(cfg, World(), pos, World().(objects := objects[key := temps[key]]), LandsUnlessRefused)
      modifies this
      ensures Called(o) && queue == old(queue)
      ensures Agrees(World(), if LandsUnlessRefused(o) then old(World().(objects := objects[key := temps[key]])) else old(World()))
    {
      hide Step, Follow, Busy, Writes;
      o := *;
      ghost var w, w' := World(), World().(objects := objects[key := temps[key]]);
      OneWrite(cfg, w, pos, w', LandsUnlessRefused, o);
      if LandsUnlessRefused(o) { objects := objects[key := temps[key]]; }
      Note(w, queue, o);
    }

    method Download(key: nat, n: nat) returns (o: Outcome)
      requires Valid() && !pos.Ended() && key in objects
      requires Writes(cfg, World(), pos, World().(temps := temps[n := objects[key]]), Downloads)
      modifies this
      ensures Called(o) && queue == old(queue)
      ensures Agrees(World(), if Downloads(o) then old(World().(temps := temps[n := objects[key]])) else old(World()))
    {
      hide Step, Follow, Busy, Writes;
      o := *;
      ghost var w, w' := World(), World().(temps := temps[n := objects[key]]);
      OneWrite(cfg, w, pos, w', Downloads, o);
      if Downloads(o) { temps := temps[n := objects[key]]; }
      Note(w, queue, o);
    }

    method UpsertText(d: nat, text: string, lands: Outcome -> bool) returns (o: Outcome)
      requires Valid() && !pos.Ended()
      requires Writes(cfg, World(), pos, World().(texts := texts[d := text]), lands)
      modifies this
      ensures Called(o) && queue == old(queue)
      ensures Agrees(World(), if lands(o) then old(World().(texts := texts[d := text])) else old(World()))
    {
      hide Step, Follow, Busy, Writes;
      o := *;
      ghost var w, w' := World(), World().(texts := texts[d := text]);
      OneWrite(cfg, w, pos, w', lands, o);
      if lands(o) { texts := texts[d := text]; }
      Note(w, queue, o);
    }

    method InsertAnalysis(d: nat, req: nat, provider: Provider, retryOf: Option<nat>) returns (o: Outcome)
      requires Valid() && !pos.Ended() && analyses.Accepts(d, req, retryOf)
      requires Writes(cfg, World(), pos, World().(analyses := analyses.Insert(d, req, provider, retryOf)), Lands)
      modifies this
      ensures Called(o) && queue == old(queue)
      ensures Agrees(World(), if Lands(o) then old(World().(analyses := analyses.Insert(d, req, provider, retryOf))) else old(World()))
    {
      hide Step, Follow, Busy, Writes;
      o := *;
      ghost var w, w' := World(), World().(analyses := analyses.Insert(d, req, provider, retryOf));
      OneWrite(cfg, w, pos, w', Lands, o);
      if Lands(o) { analyses := analyses.Insert(d, req, provider, retryOf); }
      Note(w, queue, o);
    }

    method UpdateAnalysis(d: nat, req: nat, change: Change) returns (o: Outcome)
      requires Valid() && !pos.Ended()
      requires Writes(cfg, World(), pos, World().Update(d, req, change), Lands)
      modifies this
      ensures Called(o) && queue == old(queue)
      ensures Agrees(World(), if Lands(o) then old(World().Update(d, req, change)) else old(World()))
    {
      hide Step, Follow, Busy, Writes;
      o := *;
      ghost var w, w' := World(), World().Update(d, req, change);
      OneWrite(cfg, w, pos, w', Lands, o);
      if Lands(o) { analyses := analyses.Update(d, req, change); }
      Note(w, queue, o);
    }

    method DeleteAnalysis(a: nat) returns (o: Outcome)
      requires Valid() && !pos.Ended()
      requires Writes(cfg, World(), pos, World().(analyses := analyses.Delete(a)), Lands)
      modifies this
      ensures Called(o) && queue == old(queue)
      ensures Agrees(World(), if Lands(o) then old(World().(analyses := analyses.Delete(a))) else old(World()))
    {
      hide Step, Follow, Busy, Writes;
      o := *;
      ghost var w, w' := World(), World().(analyses := analyses.Delete(a));
      OneWrite(cfg, w, pos, w', Lands, o);
      if Lands(o) { analyses := analyses.Delete(a); }
      Note(w, queue, o);
    }

    method Enqueue(p: Proc) returns (o: Outcome)
      requires Valid() && !pos.Ended() && Enqueues(cfg, World(), pos, p)
      modifies this
      ensures Called(o)
      ensures Agrees(World(), old(World())) && queue == old(queue) + if Lands(o) then [p] else []
    {
      hide Step, Follow, Busy, Enqueues;
      o := *;
      ghost var sent := queue;
      OneEnqueue(cfg, World(), pos, p, o);
      if !(o.Raise? && !o.landed) { queue := queue + [p]; }
      Note(World(), sent, o);
    }

    method Unlink(n: nat) returns (o: Outcome)
      requires Valid() && !pos.Ended() && Unlinks(cfg, World(), pos, n)
      modifies this
      ensures Called(o) && queue == old(queue) && Agrees(World(), Cleaned(old(World()), n, o))
    {
      hide Step, Follow, Busy, Unlinks;
      o := *;
      ghost var w := World();
      OneUnlink(cfg, w, pos, n, o);
      if !o.Raise? { temps := temps - {n}; }
      Note(w, queue, o);
    }
  }
}
