/** The sliding-window rate limiter: a pruned, expiring sorted set that answers like the full history. */
module RateLimiter {
  import opened Types

  /** The requests later than `t`. */
  function After(times: seq<nat>, t: int): (late: seq<nat>) {
    if times == [] then [] else
    var last := |times| - 1;
    After(times[..last], t) + if times[last] > t then [times[last]] else []
  }

  predicate Ordered(times: seq<nat>) {
    forall i, j :: 0 <= i < j < |times| ==> times[i] <= times[j]
  }

  lemma {:induction false} AfterAppend(times: seq<nat>, more: seq<nat>, t: int)
    ensures After(times + more, t) == After(times, t) + After(more, t)
  {
    if more == [] {
      assert times + more == times;
    } else {
      var last := |more| - 1;
      assert (times + more)[..|times| + last] == times + more[..last];
      AfterAppend(times, more[..last], t);
    }
  }

  /** Pruning twice is pruning once, at the later time. */
  lemma {:induction false} AfterTwice(times: seq<nat>, t: int, t': int)
    requires t <= t'
    ensures After(After(times, t), t') == After(times, t')
  {
    if times != [] {
      var last := |times| - 1;
      AfterTwice(times[..last], t, t');
      AfterAppend(After(times[..last], t), if times[last] > t then [times[last]] else [], t');
    }
  }

  lemma {:induction false} AfterEmpty(times: seq<nat>, t: int)
    requires forall i :: 0 <= i < |times| ==> times[i] <= t
    ensures After(times, t) == []
  {
    if times != [] { AfterEmpty(times[..|times| - 1], t); }
  }

  lemma {:induction false} AfterShrinks(times: seq<nat>, t: int, t': int)
    requires t <= t'
    ensures |After(times, t')| <= |After(times, t)| <= |times|
  {
    if times != [] { AfterShrinks(times[..|times| - 1], t, t'); }
  }

  /** The positions of the requests made in (from, to]. */
  ghost function InWindow(times: seq<nat>, from: int, to: int): set<nat> {
    set i: nat | i < |times| && from < times[i] <= to
  }

  lemma {:induction false} AfterCounts(times: seq<nat>, from: int, to: int)
    requires forall i :: 0 <= i < |times| ==> times[i] <= to
    ensures |After(times, from)| == |InWindow(times, from, to)|
  {
    if times == [] {
      assert InWindow(times, from, to) == {};
    } else {
      var last := |times| - 1;
      AfterCounts(times[..last], from, to);
      assert InWindow(times, from, to) == InWindow(times[..last], from, to) + if from < times[last] then {last} else {};
    }
  }

  /** How many requests the window that ends with this request holds, this one included. */
  function Counted(earlier: seq<nat>, now: nat, width: nat): nat {
    |After(earlier, now - width)| + 1
  }

  /** A key of the store: scores in order, and the time at which the store drops the key. */
  datatype Entry = Entry(scores: seq<nat>, expires: nat)

  /** Times are in milliseconds, windows in seconds. */
  const SECOND: nat := 1000

  /** What is kept for a key: the last request, and the earlier ones of its window, until they expire. */
  ghost predicate Kept(h: seq<nat>, width: nat, entry: Option<Entry>, clock: nat) {
    h != [] ==>
      var last := |h| - 1;
      && Ordered(h) && h[last] <= clock
      && match entry
         case Some(e) =>
           e.scores == After(h[..last], h[last] as int - width) + [h[last]] && e.expires == h[last] + width
         case None => h[last] + width <= clock
  }

  function Lookup<V>(m: map<string, V>, key: string): Option<V> {
    if key in m then Some(m[key]) else None
  }

  function Scores(entry: Option<Entry>): seq<nat> {
    if entry.Some? then entry.value.scores else []
  }

  /** The store drops a key when its time has come. */
  function Dropped(entry: Option<Entry>, now: nat): Option<Entry> {
    if entry.Some? && entry.value.expires <= now then None else entry
  }

  ghost predicate AllKept(history: map<string, seq<nat>>, widths: map<string, nat>, entries: map<string, Entry>, clock: nat) {
    && (forall key <- history :: key in widths && history[key] != [] && Kept(history[key], widths[key], Lookup(entries, key), clock))
    && (forall key <- entries :: key in history)
  }

  lemma AllKeptNext(history: map<string, seq<nat>>, widths: map<string, nat>, entries: map<string, Entry>, clock: nat,
                    key: string, h: seq<nat>, width: nat, now: nat)
    requires AllKept(history, widths, entries, clock) && clock <= now
    requires if key in history then h == history[key] && widths[key] == width else h == []
    ensures AllKept(history[key := h + [now]], widths[key := width],
                    entries[key := Entry(After(h, now - width) + [now], now + width)], now)
  {
    hide After, Kept;
    KeptNext(h, width, Lookup(entries, key), clock, now);
    forall k | k in history && k != key ensures Kept(history[k], widths[k], Lookup(entries, k), now) {
      KeptLater(history[k], widths[k], Lookup(entries, k), clock, now);
    }
  }

  lemma ReadKept(history: map<string, seq<nat>>, widths: map<string, nat>, entries: map<string, Entry>, clock: nat, key: string)
    requires AllKept(history, widths, entries, clock)
    ensures key in history ==> history[key] != [] && key in widths && Kept(history[key], widths[key], Lookup(entries, key), clock)
    ensures key in entries ==> key in history
  {
  }

  class RateLimiter {
    var entries: map<string, Entry>
    ghost var history: map<string, seq<nat>>
    ghost var widths: map<string, nat>
    ghost var clock: nat

    ghost predicate Valid()
      reads this
    {
      AllKept(history, widths, entries, clock)
    }

    ghost function Earlier(key: string): seq<nat>
      reads this
    {
      if key in history then history[key] else []
    }

    constructor ()
      ensures Valid() && history == map[] && clock == 0
    {
      entries, history, widths, clock := map[], map[], map[], 0;
    }

    /** One transaction of the store: prune, add, count, expire. Rejected requests are counted, too. */
    method CheckRateLimit(key: string, limit: nat, window: nat, now: nat) returns (allowed: bool, count: nat, reset: nat)
      requires Valid() && clock <= now
      requires key in widths ==> widths[key] == window * SECOND
      modifies this
      ensures Valid() && clock == now
      ensures history == old(history)[key := old(Earlier(key)) + [now]]
      ensures widths == old(widths)[key := window * SECOND]
      ensures count == Counted(old(Earlier(key)), now, window * SECOND)
      ensures count == 1 + |InWindow(old(Earlier(key)), now - window * SECOND, now)|
      ensures window > 0 ==> count == |InWindow(history[key], now - window * SECOND, now)|
      ensures allowed <==> |InWindow(old(Earlier(key)), now - window * SECOND, now)| < limit
      ensures var times := history[key]; allowed <==> Admitted(times, |times| - 1, window * SECOND, limit)
      ensures reset == now / SECOND + window
    {
      hide After, Kept, AllKept;
      var width := window * SECOND;
      ghost var h, before := Earlier(key), entries;
      ReadKept(history, widths, entries, clock, key);
      AllKeptNext(history, widths, entries, clock, key, h, width, now);
      if key in entries && entries[key].expires <= now {
        entries := entries - {key};
      }
      PrunedIsRecent(h, width, Lookup(before, key), clock, now);
      var scores := After(if key in entries then entries[key].scores else [], now - width) + [now];
      count := |scores|;
      entries := entries[key := Entry(scores, now + width)];
      assert entries == before[key := Entry(scores, now + width)];
      history, widths, clock := history[key := h + [now]], widths[key := width], now;
      assert (h + [now])[..|h|] == h;
      reset := now / SECOND + window;
      allowed := !(count > limit);
      CountsWindow(h, width, Lookup(before, key), old(clock), now);
    }
  }

  /** Pruning the kept set gives what pruning the whole history gives; a key that expired has nothing to give. */
  lemma PrunedIsRecent(h: seq<nat>, width: nat, entry: Option<Entry>, clock: nat, now: nat)
    requires (if h == [] then entry.None? else Kept(h, width, entry, clock)) && clock <= now
    ensures After(Scores(Dropped(entry, now)), now - width) == After(h, now - width)
  {
    hide After;
    AfterEmpty([], now - width);
    if h != [] {
      var last := |h| - 1;
      assert h == h[..last] + [h[last]];
      if Dropped(entry, now).Some? {
        KeptIsRecent(h[..last], h[last], width, now);
      } else {
        assert forall i :: 0 <= i < |h| ==> h[i] <= h[last];
        AfterEmpty(h, now - width);
      }
    }
  }

  /** The count is the number of requests in the window that ends now; an empty window still holds this one. */
  lemma CountsWindow(h: seq<nat>, width: nat, entry: Option<Entry>, clock: nat, now: nat)
    requires (h != [] ==> Kept(h, width, entry, clock)) && clock <= now
    ensures Counted(h, now, width) == 1 + |InWindow(h, now - width, now)|
    ensures width > 0 ==> Counted(h, now, width) == |InWindow(h + [now], now - width, now)|
  {
    hide After, InWindow;
    NotLater(h, width, entry, clock, now);
    AfterCounts(h, now - width, now);
    if width > 0 { WindowWithNow(h, now, width); }
  }

  lemma NotLater(h: seq<nat>, width: nat, entry: Option<Entry>, clock: nat, now: nat)
    requires (h != [] ==> Kept(h, width, entry, clock)) && clock <= now
    ensures forall i :: 0 <= i < |h| ==> h[i] <= now
  {
    hide After;
    forall i | 0 <= i < |h| ensures h[i] <= now { assert h[i] <= h[|h| - 1]; }
  }

  lemma WindowWithNow(h: seq<nat>, now: nat, width: nat)
    requires width > 0
    ensures |InWindow(h + [now], now - width, now)| == 1 + |InWindow(h, now - width, now)|
  {
    assert InWindow(h + [now], now - width, now) == InWindow(h, now - width, now) + {|h|};
  }

  lemma KeptIsRecent(earlier: seq<nat>, last: nat, width: nat, now: nat)
    requires last <= now
    ensures After(After(earlier, last as int - width) + [last], now - width) == After(earlier + [last], now - width)
  {
    hide After;
    AfterAppend(After(earlier, last as int - width), [last], now - width);
    AfterTwice(earlier, last as int - width, now - width);
    AfterAppend(earlier, [last], now - width);
  }

  lemma KeptNext(h: seq<nat>, width: nat, entry: Option<Entry>, clock: nat, now: nat)
    requires (h != [] ==> Kept(h, width, entry, clock)) && clock <= now
    ensures Kept(h + [now], width, Some(Entry(After(h, now - width) + [now], now + width)), now)
  {
    hide After;
    assert (h + [now])[..|h|] == h;
    assert Ordered(h + [now]) by {
      forall i, j | 0 <= i < j < |h| + 1 ensures (h + [now])[i] <= (h + [now])[j] {
        assert i < |h| - 1 ==> h[i] <= h[|h| - 1];
      }
    }
  }

  lemma KeptLater(h: seq<nat>, width: nat, entry: Option<Entry>, clock: nat, now: nat)
    requires Kept(h, width, entry, clock) && clock <= now
    ensures Kept(h, width, entry, now)
  {
  }

  // --- What the verdicts mean for the requests of one key ---

  predicate Admitted(times: seq<nat>, k: nat, width: nat, limit: nat)
    requires k < |times|
  {
    Counted(times[..k], times[k], width) <= limit
  }

  /** A request is refused exactly when as many earlier ones as the limit allows lie in the window that ends with it. */
  lemma RefusedIff(times: seq<nat>, k: nat, width: nat, limit: nat)
    requires Ordered(times) && k < |times|
    ensures !Admitted(times, k, width, limit) <==> |InWindow(times[..k], times[k] - width, times[k])| >= limit
  {
    AfterCounts(times[..k], times[k] - width, times[k]);
  }

  /** How many of the requests in (from, to] were admitted. */
  function AdmittedIn(times: seq<nat>, width: nat, limit: nat, from: int, to: int): nat {
    if times == [] then 0 else
    var last := |times| - 1;
    AdmittedIn(times[..last], width, limit, from, to)
      + if from < times[last] <= to && Admitted(times, last, width, limit) then 1 else 0
  }

  lemma {:induction false} AdmittedAreLate(times: seq<nat>, width: nat, limit: nat, from: int, to: int)
    ensures AdmittedIn(times, width, limit, from, to) <= |After(times, from)|
  {
    if times != [] { AdmittedAreLate(times[..|times| - 1], width, limit, from, to); }
  }

  /** No interval as long as the window admits more than the limit, wherever it starts. */
  lemma {:induction false} NoBurst(times: seq<nat>, width: nat, limit: nat, to: int)
    requires Ordered(times)
    ensures AdmittedIn(times, width, limit, to - width, to) <= limit
  {
    if times != [] {
      var last := |times| - 1;
      if to - width < times[last] <= to && Admitted(times, last, width, limit) {
        AdmittedAreLate(times[..last], width, limit, to - width, to);
        AfterShrinks(times[..last], times[last] - width, to - width);
      } else {
        NoBurst(times[..last], width, limit, to);
      }
    }
  }

  /** Requests that follow count at most one more each. */
  lemma CountedGrowsByOne(times: seq<nat>, k: nat, j: nat, width: nat)
    requires Ordered(times) && k <= j < |times|
    ensures Counted(times[..j], times[j], width) <= Counted(times[..k], times[k], width) + (j - k)
  {
    assert times[..j] == times[..k] + times[k..j];
    AfterAppend(times[..k], times[k..j], times[j] - width);
    AfterShrinks(times[..k], times[k] - width, times[j] - width);
    AfterShrinks(times[k..j], times[j] - width, times[j] - width);
  }

  /** An advertised remainder of r is kept: the next r requests are admitted. */
  lemma RemainingIsHonoured(times: seq<nat>, k: nat, j: nat, width: nat, limit: nat)
    requires Ordered(times) && k < j < |times|
    requires j - k <= limit - Counted(times[..k], times[k], width)
    ensures Admitted(times, j, width, limit)
  {
    CountedGrowsByOne(times, k, j, width);
  }

  /** The advertised reset time is rounded down: a request still counts then unless it came on a full second. */
  lemma ResetIsEarlyIff(now: nat, window: nat)
    ensures var reset := now / SECOND + window;
      After([now], reset * SECOND - window * SECOND) == [] <==> now % SECOND == 0
    ensures After([now], (now / SECOND + window + 1) * SECOND - window * SECOND) == []
  {
    var reset := now / SECOND + window;
    assert reset * SECOND - window * SECOND == now / SECOND * SECOND;
    assert (reset + 1) * SECOND - window * SECOND == now / SECOND * SECOND + SECOND;
    AfterOne(now, now / SECOND * SECOND);
    AfterOne(now, now / SECOND * SECOND + SECOND);
  }

  lemma AfterOne(time: nat, t: int)
    ensures After([time], t) == if time > t then [time] else []
  {
    assert [time][..0] == [];
  }
}
