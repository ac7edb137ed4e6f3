/** The prompts table with its cache of active prompts, over whole calls during which the cache is up or down. */
module Prompts {
  import opened Types

  datatype Prompt = Prompt(version: string, kind: string, content: string, active: bool)

  /** What the cache holds for a type of prompt, and until when. */
  datatype Entry = Entry(version: string, content: string, expires: nat)

  /** The table at the moment a call began. */
  datatype Snapshot = Snapshot(time: nat, table: seq<Prompt>)

  predicate UniqueVersions(table: seq<Prompt>) {
    forall i, j :: 0 <= i < j < |table| ==> table[i].version != table[j].version
  }

  /** At most one prompt of each type is active. */
  predicate OneActive(table: seq<Prompt>) {
    forall i, j :: 0 <= i < j < |table| && table[i].active && table[j].active ==> table[i].kind != table[j].kind
  }

  predicate IsActive(table: seq<Prompt>, kind: string, version: string, content: string) {
    Prompt(version, kind, content, true) in table
  }

  /** The position of the active prompt of this type. */
  function FindActive(table: seq<Prompt>, kind: string): (found: Option<nat>)
    ensures found.Some? ==> found.value < |table| && table[found.value].kind == kind && table[found.value].active
    ensures found.None? ==> forall p <- table :: p.kind == kind ==> !p.active
  {
    if table == [] then None else
    var last := |table| - 1;
    if table[last].kind == kind && table[last].active then Some(last) else FindActive(table[..last], kind)
  }

  function Deactivated(table: seq<Prompt>, found: Option<nat>): seq<Prompt>
    requires found.Some? ==> found.value < |table|
  {
    match found
    case None => table
    case Some(i) => table[i := table[i].(active := false)]
  }

  predicate HasVersion(table: seq<Prompt>, version: string) {
    exists i :: 0 <= i < |table| && table[i].version == version
  }

  /** This prompt was the active one, with this content, at a moment later than `since`. */
  ghost predicate WasActive(log: seq<Snapshot>, since: int, until: nat, kind: string, version: string, content: string) {
    exists k :: 0 <= k < |log| && since < log[k].time <= until && IsActive(log[k].table, kind, version, content)
  }

  lemma NewVersion(table: seq<Prompt>, version: string)
    requires !HasVersion(table, version)
    ensures forall i :: 0 <= i < |table| ==> table[i].version != version
  {
  }

  /** What replacing the active prompt does to the table: its type has no other active prompt, and all else stays. */
  ghost predicate Replaced(table: seq<Prompt>, table': seq<Prompt>, kind: string, prompt: Prompt) {
    && |table'| == |table| + 1 && table'[|table|] == prompt
    && forall i :: 0 <= i < |table| ==> table'[i] == table[i].(active := table[i].active && table[i].kind != kind)
  }

  lemma CreateReplaces(table: seq<Prompt>, kind: string, prompt: Prompt)
    requires OneActive(table)
    ensures Replaced(table, Deactivated(table, FindActive(table, kind)) + [prompt], kind, prompt)
  {
    hide FindActive;
    var found := FindActive(table, kind);
    var table' := Deactivated(table, found) + [prompt];
    forall i | 0 <= i < |table| ensures table'[i] == table[i].(active := table[i].active && table[i].kind != kind) {
      assert table[i] in table;
      if found.Some? && found.value != i { assert table[i].active ==> table[i].kind != kind; }
    }
  }

  lemma CreateKeepsTable(table: seq<Prompt>, version: string, kind: string, content: string)
    requires UniqueVersions(table) && OneActive(table) && !HasVersion(table, version)
    ensures var table' := Deactivated(table, FindActive(table, kind)) + [Prompt(version, kind, content, true)];
      UniqueVersions(table') && OneActive(table')
  {
    hide HasVersion, FindActive;
    var found := FindActive(table, kind);
    assert forall i :: 0 <= i < |table| ==> table[i].version != version by { NewVersion(table, version); }
    var table' := Deactivated(table, found) + [Prompt(version, kind, content, true)];
    assert forall i :: 0 <= i < |table| ==> table'[i].version == table[i].version && table'[i].kind == table[i].kind;
    forall i | 0 <= i < |table| && table'[i].active ensures table'[i].kind != kind {
      assert table[i] in table;
      if found.Some? { assert i != found.value; }
    }
  }

  /** What the cache holds was active, with that content, exactly `ttl` seconds before it expires. */
  ghost predicate Backed(e: Entry, log: seq<Snapshot>, ttl: nat, kind: string) {
    exists k :: 0 <= k < |log| && log[k].time + ttl == e.expires && IsActive(log[k].table, kind, e.version, e.content)
  }

  ghost predicate AllBacked(cache: map<string, Entry>, log: seq<Snapshot>, ttl: nat) {
    forall kind <- cache :: Backed(cache[kind], log, ttl, kind)
  }

  predicate Past(log: seq<Snapshot>, clock: nat) {
    forall k :: 0 <= k < |log| ==> log[k].time <= clock
  }

  lemma BackedLater(cache: map<string, Entry>, log: seq<Snapshot>, ttl: nat, s: Snapshot)
    requires AllBacked(cache, log, ttl)
    ensures AllBacked(cache, log + [s], ttl)
  {
    forall kind | kind in cache ensures Backed(cache[kind], log + [s], ttl, kind) {
      var e := cache[kind];
      var k :| 0 <= k < |log| && log[k].time + ttl == e.expires && IsActive(log[k].table, kind, e.version, e.content);
      assert (log + [s])[k] == log[k];
    }
  }

  class PromptsRepository {
    const ttl: nat
    var table: seq<Prompt>
    var cache: map<string, Entry>
    ghost var log: seq<Snapshot>
    ghost var clock: nat

    ghost predicate Valid()
      reads this
    {
      UniqueVersions(table) && OneActive(table) && AllBacked(cache, log, ttl) && Past(log, clock)
    }

    ghost predicate Recent(p: Prompt, kind: string, now: nat)
      reads this
    {
      && p.active && p.kind == kind
      && (WasActive(log, now - ttl, now, kind, p.version, p.content) || IsActive(table, kind, p.version, p.content))
    }

    constructor (ttl: nat)
      ensures Valid() && table == [] && cache == map[] && this.ttl == ttl && clock == 0
    {
      this.ttl, table, cache, log, clock := ttl, [], map[], [], 0;
    }

    /** The cache answers: it is up, and has an entry that has not expired. */
    predicate Answers(cache: map<string, Entry>, kind: string, now: nat, up: bool) {
      up && kind in cache && now < cache[kind].expires
    }

    /** What a lookup returns and caches, and how. */
    twostate predicate LookedUp(kind: string, now: nat, up: bool, prompt: Option<Prompt>)
      reads this
    {
      if Answers(old(cache), kind, now, up) then
        var e := old(cache)[kind];
        prompt == Some(Prompt(e.version, kind, e.content, true)) && cache == old(cache)
      else if prompt.None? then
        cache == old(cache) && forall p <- table :: p.kind == kind ==> !p.active
      else
        && prompt.value in table && prompt.value.active && prompt.value.kind == kind
        && cache == if up then old(cache)[kind := Entry(prompt.value.version, prompt.value.content, now + ttl)] else old(cache)
    }

    /** The lookup itself: the cache while it is up and its entry has not expired, otherwise the table, whose
        answer is cached. */
    method Lookup(kind: string, now: nat, up: bool) returns (prompt: Option<Prompt>)
      requires Valid() && clock == now && |log| > 0 && log[|log| - 1] == Snapshot(now, table)
      modifies this`cache
      ensures Valid()
      ensures prompt.Some? ==> Recent(prompt.value, kind, now)
      ensures LookedUp(kind, now, up, prompt)
      ensures !Answers(old(cache), kind, now, up) ==>
        prompt == match FindActive(table, kind) case Some(i) => Some(table[i]) case None => None
    {
      if up && kind in cache && now < cache[kind].expires {
        var e := cache[kind];
        assert Backed(e, log, ttl, kind);
        return Some(Prompt(e.version, kind, e.content, true));
      }
      prompt := None;
      var found := FindActive(table, kind);
      if found.Some? {
        var p := table[found.value];
        prompt := Some(p);
        assert p == Prompt(p.version, kind, p.content, true) && p in table;
        if up {
          cache := cache[kind := Entry(p.version, p.content, now + ttl)];
          assert Backed(cache[kind], log, ttl, kind) by { assert log[|log| - 1].time + ttl == now + ttl; }
        }
      }
    }

    /** Whatever is returned was active within the last `ttl` seconds, or is active now. */
    method GetActivePrompt(kind: string, now: nat, up: bool) returns (prompt: Option<Prompt>)
      requires Valid() && clock <= now
      modifies this
      ensures Valid() && clock == now && table == old(table) && log == old(log) + [Snapshot(now, table)]
      ensures prompt.Some? ==> Recent(prompt.value, kind, now)
      ensures LookedUp(kind, now, up, prompt)
    {
      Begin(now);
      prompt := Lookup(kind, now, up);
    }

    ghost method Begin(now: nat)
      requires Valid() && clock <= now
      modifies this`log, this`clock
      ensures Valid() && clock == now && log == old(log) + [Snapshot(now, table)]
    {
      BackedLater(cache, log, ttl, Snapshot(now, table));
      log, clock := log + [Snapshot(now, table)], now;
    }

    /** A new version replaces the active prompt of its type. The cache is cleared first, but the lookup of the
        prompt to replace fills it again with that prompt. */
    method CreatePrompt(version: string, kind: string, content: string, now: nat, up: bool) returns (conflict: bool)
      requires Valid() && clock <= now
      modifies this
      ensures Valid() && clock == now && log == old(log) + [Snapshot(now, old(table))]
      ensures conflict <==> HasVersion(old(table), version)
      ensures conflict ==> table == old(table) && cache == old(cache)
      ensures !conflict ==>
        var replaced := FindActive(old(table), kind);
        && Replaced(old(table), table, kind, Prompt(version, kind, content, true))
        && cache == (if !up then old(cache)
                     else if replaced.None? then old(cache) - {kind}
                     else old(cache)[kind := Entry(old(table)[replaced.value].version, old(table)[replaced.value].content, now + ttl)])
    {
      hide UniqueVersions, OneActive, Backed, HasVersion, WasActive, Past;
      Begin(now);
      conflict := HasVersion(table, version);
      if conflict { return; }
      if up { cache := cache - {kind}; }
      var active := Lookup(kind, now, up);
      assert active.Some? && up ==> cache == old(cache)[kind := Entry(active.value.version, active.value.content, now + ttl)];
      Replace(version, kind, content);
    }

    /** Deactivate the active prompt of this type, then insert the new one. */
    method Replace(version: string, kind: string, content: string)
      requires UniqueVersions(table) && OneActive(table) && !HasVersion(table, version)
      modifies this`table
      ensures Replaced(old(table), table, kind, Prompt(version, kind, content, true))
      ensures UniqueVersions(table) && OneActive(table)
    {
      hide UniqueVersions, OneActive, HasVersion;
      CreateKeepsTable(table, version, kind, content);
      CreateReplaces(table, kind, Prompt(version, kind, content, true));
      var active := FindActive(table, kind);
      if active.Some? {
        table := table[active.value := table[active.value].(active := false)];
      }
      table := table + [Prompt(version, kind, content, true)];
    }
  }
}
