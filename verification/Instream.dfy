/** The scanner's INSTREAM exchange: length-prefixed chunks out, a NUL-terminated reply back in pieces. */
module Instream {
  import opened Types

  const BASE: nat := 0x1_0000_0000

  /** A length as four bytes, most significant first. */
  function Pack(n: nat): (bytes: Bytes)
    requires n < BASE
    ensures |bytes| == 4
  {
    [(n / 0x100_0000) as byte, (n / 0x1_0000 % 0x100) as byte, (n / 0x100 % 0x100) as byte, (n % 0x100) as byte]
  }

  function Unpack(bytes: Bytes): nat
    requires |bytes| == 4
  {
    bytes[0] as nat * 0x100_0000 + bytes[1] as nat * 0x1_0000 + bytes[2] as nat * 0x100 + bytes[3] as nat
  }

  lemma PackUnpack(n: nat)
    requires n < BASE
    ensures Unpack(Pack(n)) == n
    ensures var b := Pack(n);
      n == b[0] as nat * 0x100_0000 + b[1] as nat * 0x1_0000 + b[2] as nat * 0x100 + b[3] as nat
  {
    assert n == n / 0x100 * 0x100 + n % 0x100;
    assert n / 0x100 == n / 0x1_0000 * 0x100 + n / 0x100 % 0x100;
    assert n / 0x1_0000 == n / 0x100_0000 * 0x100 + n / 0x1_0000 % 0x100;
  }

  /** What the scanner reads: chunks until the empty one; `None` when the stream is cut off. */
  function Decode(stream: Bytes): (result: Option<(Bytes, Bytes)>)
    decreases |stream|
  {
    if |stream| < 4 then None else
    var length, rest := Unpack(stream[..4]), stream[4..];
    if length == 0 then Some(([], rest))
    else if |rest| < length then None
    else match Decode(rest[length..])
      case None => None
      case Some((bytes, left)) => Some((rest[..length] + bytes, left))
  }

  /** A chunk in front of a stream is decoded in front of it. */
  lemma DecodeChunk(chunk: Bytes, stream: Bytes)
    requires 0 < |chunk| < BASE
    ensures Decode(Pack(|chunk|) + chunk + stream) ==
      match Decode(stream)
      case None => None
      case Some((bytes, left)) => Some((chunk + bytes, left))
  {
    var whole := Pack(|chunk|) + chunk + stream;
    PackUnpack(|chunk|);
    assert whole[..4] == Pack(|chunk|);
    assert whole[4..] == chunk + stream;
    assert (chunk + stream)[..|chunk|] == chunk;
    assert (chunk + stream)[|chunk|..] == stream;
  }

  /** What a read of at most `size` bytes returns. */
  function Chunk(data: Bytes, size: nat): Bytes {
    if |data| <= size then data else data[..size]
  }

  /** The chunks a reader hands out: full ones, then the remainder. */
  function Frames(data: Bytes, size: nat): Bytes
    requires 0 < size < BASE
    decreases |data|
  {
    if data == [] then [] else
    var chunk := Chunk(data, size);
    Pack(|chunk|) + chunk + Frames(data[|chunk|..], size)
  }

  lemma DecodeEnd(more: Bytes)
    ensures Decode(Pack(0) + more) == Some(([], more))
  {
    PackUnpack(0);
    assert (Pack(0) + more)[..4] == Pack(0) && (Pack(0) + more)[4..] == more;
  }

  lemma Regroup(a: Bytes, b: Bytes, c: Bytes, d: Bytes, e: Bytes)
    ensures a + b + c + d + e == a + b + (c + d + e)
  {
  }

  /** Whatever the chunk size, the scanner sees exactly the file, and then what follows the final zero. */
  lemma {:induction false} FramesRoundTrip(data: Bytes, size: nat, more: Bytes)
    requires 0 < size < BASE
    ensures Decode(Frames(data, size) + Pack(0) + more) == Some((data, more))
    decreases |data|
  {
    hide Decode, Pack;
    if data == [] {
      DecodeEnd(more);
      assert Frames(data, size) + Pack(0) + more == Pack(0) + more;
    } else {
      var chunk := Chunk(data, size);
      var rest := data[|chunk|..];
      FramesRoundTrip(rest, size, more);
      DecodeChunk(chunk, Frames(rest, size) + Pack(0) + more);
      Regroup(Pack(|chunk|), chunk, Frames(rest, size), Pack(0), more);
      assert chunk + rest == data;
    }
  }

  /** zINSTREAM and a NUL. */
  const COMMAND: Bytes := [122, 73, 78, 83, 84, 82, 69, 65, 77, 0]

  // --- The reply ---

  predicate NoNul(bytes: Bytes) {
    forall i :: 0 <= i < |bytes| ==> bytes[i] != 0
  }

  function Concat(parts: seq<Bytes>): Bytes {
    if parts == [] then [] else parts[0] + Concat(parts[1..])
  }

  /** One receive returns at most this many bytes. */
  const RECEIVE: nat := 4096

  /** Nothing is received as an empty piece; that means the end. */
  predicate Pieces(parts: seq<Bytes>) {
    forall i :: 0 <= i < |parts| ==> 0 < |parts[i]| <= RECEIVE
  }

  function StripNuls(bytes: Bytes): Bytes {
    if bytes != [] && bytes[|bytes| - 1] == 0 then StripNuls(bytes[..|bytes| - 1]) else bytes
  }

  /** What has been read when the loop stops: pieces up to the first one after which a NUL has been seen. */
  function Received(seen: Bytes, parts: seq<Bytes>): Bytes
    decreases |parts|
  {
    if parts == [] then seen
    else if 0 in seen + parts[0] then seen + parts[0]
    else Received(seen + parts[0], parts[1..])
  }

  /** A reply is plain when nothing but NULs follows its first NUL, as far as one receive can reach. */
  ghost predicate Plain(reply: Bytes, text: Bytes) {
    NoNul(text) && text <= reply && forall i :: |text| <= i < |reply| && i < |text| + RECEIVE ==> reply[i] == 0
  }

  ghost predicate Padded(bytes: Bytes, text: Bytes) {
    NoNul(text) && text <= bytes && forall i :: |text| <= i < |bytes| ==> bytes[i] == 0
  }

  lemma {:induction false} StripPadded(bytes: Bytes, text: Bytes)
    requires Padded(bytes, text)
    ensures StripNuls(bytes) == text
  {
    if |bytes| > |text| { StripPadded(bytes[..|bytes| - 1], text); }
  }

  /** A part without a NUL is part of the text. */
  lemma TextCovers(seen: Bytes, whole: Bytes, text: Bytes)
    requires seen <= whole && Plain(whole, text)
    ensures NoNul(seen) ==> |seen| <= |text|
  {
    if |text| < |seen| { assert whole[|text|] == 0 && seen[|text|] == whole[|text|]; }
  }

  /** The piece that brings the first NUL cannot reach beyond the padding. */
  lemma LastPiece(seen: Bytes, piece: Bytes, rest: Bytes, text: Bytes)
    requires NoNul(seen) && |piece| <= RECEIVE && 0 in piece && Plain(seen + piece + rest, text)
    ensures Padded(seen + piece, text)
  {
    var whole, now := seen + piece + rest, seen + piece;
    assert forall i :: 0 <= i < |now| ==> now[i] == whole[i];
    assert forall i :: 0 <= i < |seen| ==> seen[i] == whole[i];
    assert seen <= whole;
    TextCovers(seen, whole, text);
    var k :| 0 <= k < |piece| && piece[k] == 0;
    assert whole[|seen| + k] == 0;
    assert |text| <= |seen| + k;
  }

  lemma NoNulAppend(a: Bytes, b: Bytes)
    requires NoNul(a)
    ensures 0 in a + b <==> 0 in b
    ensures 0 !in b ==> NoNul(a + b)
  {
    if 0 in b {
      var k :| 0 <= k < |b| && b[k] == 0;
      assert (a + b)[|a| + k] == 0;
    }
  }

  lemma WithoutNul(bytes: Bytes, text: Bytes)
    requires NoNul(bytes) && Plain(bytes, text)
    ensures bytes == text
  {
    TextCovers(bytes, bytes, text);
  }

  /** However a plain reply is split, the text that comes out is the same. */
  lemma {:induction false} ReceivedText(seen: Bytes, parts: seq<Bytes>, text: Bytes)
    requires NoNul(seen) && Pieces(parts) && Plain(seen + Concat(parts), text)
    ensures StripNuls(Received(seen, parts)) == text
    decreases |parts|
  {
    if parts == [] {
      assert seen + Concat(parts) == seen;
      WithoutNul(seen, text);
    } else {
      var now := seen + parts[0];
      assert seen + Concat(parts) == now + Concat(parts[1..]);
      NoNulAppend(seen, parts[0]);
      if 0 in now {
        LastPiece(seen, parts[0], Concat(parts[1..]), text);
        StripPadded(now, text);
      } else {
        ReceivedText(now, parts[1..], text);
      }
    }
  }

  lemma {:induction false} StripKeeps(bytes: Bytes, n: nat)
    requires n < |bytes| && bytes[n] != 0
    ensures |StripNuls(bytes)| > n
  {
    if bytes[|bytes| - 1] == 0 { StripKeeps(bytes[..|bytes| - 1], n); }
  }

  lemma {:induction false} StripShorter(bytes: Bytes)
    ensures |StripNuls(bytes)| <= |bytes|
  {
    if bytes != [] { StripShorter(bytes[..|bytes| - 1]); }
  }

  /** Bytes cut into pieces. */
  function Cut(bytes: Bytes): seq<Bytes>
    decreases |bytes|
  {
    if bytes == [] then [] else
    var piece := Chunk(bytes, RECEIVE);
    [piece] + Cut(bytes[|piece|..])
  }

  lemma {:induction false} CutIsWhole(bytes: Bytes)
    ensures Pieces(Cut(bytes)) && Concat(Cut(bytes)) == bytes
    decreases |bytes|
  {
    if bytes != [] {
      var piece := Chunk(bytes, RECEIVE);
      var parts := [piece] + Cut(bytes[|piece|..]);
      CutIsWhole(bytes[|piece|..]);
      assert parts[1..] == Cut(bytes[|piece|..]);
      assert piece + bytes[|piece|..] == bytes;
    }
  }

  lemma {:induction false} ConcatAppend(parts: seq<Bytes>, more: seq<Bytes>)
    ensures Concat(parts + more) == Concat(parts) + Concat(more)
  {
    if parts == [] {
      assert parts + more == more;
    } else {
      assert (parts + more)[1..] == parts[1..] + more;
      ConcatAppend(parts[1..], more);
    }
  }

  /** The loop stops with the piece that brings the first NUL. */
  lemma {:induction false} ReceivedThrough(seen: Bytes, before: seq<Bytes>, piece: Bytes, after: seq<Bytes>)
    requires NoNul(seen + Concat(before)) && 0 in piece
    ensures Received(seen, before + [piece] + after) == seen + Concat(before) + piece
    decreases |before|
  {
    var parts := before + [piece] + after;
    if before == [] {
      assert seen + Concat(before) == seen;
      NoNulAppend(seen, piece);
    } else {
      var now := seen + before[0];
      assert seen + Concat(before) == now + Concat(before[1..]);
      assert forall i :: 0 <= i < |now| ==> now[i] == (now + Concat(before[1..]))[i];
      assert parts[1..] == before[1..] + [piece] + after;
      ReceivedThrough(now, before[1..], piece, after);
    }
  }

  /** The reply cut so that one piece is `reply[n..m]`. */
  function CutAt(reply: Bytes, n: nat, m: nat): seq<Bytes>
    requires n <= m <= |reply|
  {
    Cut(reply[..n]) + [reply[n..m]] + Cut(reply[m..])
  }

  lemma CutAtFirst(reply: Bytes, n: nat, m: nat)
    requires n < m <= |reply| && m - n <= RECEIVE && NoNul(reply[..n]) && reply[n] == 0
    ensures Pieces(CutAt(reply, n, m)) && Concat(CutAt(reply, n, m)) == reply
    ensures Received([], CutAt(reply, n, m)) == reply[..m]
  {
    hide Received, Cut, Concat;
    var before, piece, after := Cut(reply[..n]), reply[n..m], Cut(reply[m..]);
    CutIsWhole(reply[..n]);
    CutIsWhole(reply[m..]);
    ConcatAppend(before + [piece], after);
    ConcatAppend(before, [piece]);
    ConcatOne(piece);
    assert reply[..n] + piece + reply[m..] == reply;
    assert [] + Concat(before) == reply[..n];
    assert piece[0] == 0;
    ReceivedThrough([], before, piece, after);
    assert reply[..n] + piece == reply[..m];
  }

  lemma ConcatOne(piece: Bytes)
    ensures Concat([piece]) == piece
  {
    assert [piece][1..] == [];
    assert piece + [] == piece;
  }

  /** A reply that is not plain can be cut right after its first NUL or later, with different results. */
  lemma CutMatters(reply: Bytes) returns (parts: seq<Bytes>, parts': seq<Bytes>)
    requires forall text :: !Plain(reply, text)
    ensures Pieces(parts) && Concat(parts) == reply && Pieces(parts') && Concat(parts') == reply
    ensures StripNuls(Received([], parts)) != StripNuls(Received([], parts'))
  {
    hide Concat, Received, StripNuls, Pieces, CutAt;
    var n := FirstNul(reply);
    var m := if |reply| <= n + RECEIVE then |reply| else n + RECEIVE;
    assert !Plain(reply, reply[..n]);
    var j :| n < j < m && reply[j] != 0;
    parts, parts' := CutAt(reply, n, n + 1), CutAt(reply, n, m);
    CutAtFirst(reply, n, n + 1);
    CutAtFirst(reply, n, m);
    StripKeeps(reply[..m], j);
    StripShorter(reply[..n + 1]);
  }

  ghost predicate SplitIndependent(reply: Bytes) {
    forall parts, parts' {:trigger Concat(parts), Concat(parts')} ::
      Pieces(parts) && Pieces(parts') && Concat(parts) == reply && Concat(parts') == reply ==>
        StripNuls(Received([], parts)) == StripNuls(Received([], parts'))
  }

  /** A reply comes out the same for every split exactly when nothing but NULs follows its first NUL, as far as one
      receive can reach. */
  lemma SplitIndependentIff(reply: Bytes)
    ensures (exists text :: Plain(reply, text)) <==> SplitIndependent(reply)
  {
    hide Plain, StripNuls, Received, Concat, Pieces;
    if text :| Plain(reply, text) {
      assert [] + reply == reply;
      forall parts, parts' | Pieces(parts) && Pieces(parts') && Concat(parts) == reply && Concat(parts') == reply
        ensures StripNuls(Received([], parts)) == StripNuls(Received([], parts'))
      {
        ReceivedText([], parts, text);
        ReceivedText([], parts', text);
      }
    } else {
      var parts, parts' := CutMatters(reply);
      assert Concat(parts) == Concat(parts');
    }
  }

  /** The position of the first NUL of a reply that is not plain. */
  lemma FirstNul(reply: Bytes) returns (n: nat)
    requires forall text :: !Plain(reply, text)
    ensures n < |reply| && reply[n] == 0 && NoNul(reply[..n])
  {
    n := 0;
    while n < |reply| && reply[n] != 0
      invariant n <= |reply| && NoNul(reply[..n])
    {
      n := n + 1;
    }
    if n == |reply| {
      assert reply[..n] == reply;
      assert Plain(reply, reply);
    }
  }

  lemma FramesEnd(size: nat)
    requires 0 < size < BASE
    ensures Frames([], size) == []
  {
  }

  lemma FramesStep(before: Bytes, rest: Bytes, size: nat)
    requires 0 < size < BASE && rest != []
    ensures var chunk := Chunk(rest, size);
      before + Frames(rest, size) == before + Pack(|chunk|) + chunk + Frames(rest[|chunk|..], size)
  {
    hide Pack;
    var chunk := Chunk(rest, size);
    Shift(before, Pack(|chunk|), chunk, Frames(rest[|chunk|..], size));
  }

  lemma Shift(a: Bytes, b: Bytes, c: Bytes, d: Bytes)
    ensures a + (b + c + d) == a + b + c + d
  {
  }

  /** One connection to the scanner. The other side answers with pieces of its choice. */
  class ClamAVClient {
    const chunkSize: nat
    var sent: Bytes

    constructor (chunkSize: nat)
      ensures this.chunkSize == chunkSize && sent == []
    {
      this.chunkSize, sent := chunkSize, [];
    }

    method SendAll(bytes: Bytes)
      modifies this
      ensures sent == old(sent) + bytes
    {
      sent := sent + bytes;
    }

    /** Send the file, then collect the reply. A missing file raises before anything is sent. */
    method ScanFile(file: Option<Bytes>, pieces: seq<Bytes>) returns (reply: Option<Bytes>)
      requires 0 < chunkSize < BASE && Pieces(pieces) && sent == []
      modifies this
      ensures file.None? ==> reply.None? && sent == []
      ensures file.Some? ==>
        && COMMAND <= sent && Decode(sent[|COMMAND|..]) == Some((file.value, []))
        && reply.Some? && reply.value == StripNuls(Received([], pieces))
      ensures file.Some? ==> forall text :: Plain(Concat(pieces), text) ==> reply == Some(text)
    {
      hide Frames, Decode, Pack, Plain, Received, StripNuls, Concat, Pieces;
      if file.None? { return None; }
      SendAll(COMMAND);
      var data := file.value;
      SendFile(data);
      SendAll(Pack(0));
      ghost var stream := Frames(data, chunkSize) + Pack(0) + [];
      assert sent[|COMMAND|..] == stream;
      FramesRoundTrip(data, chunkSize, []);
      var response := Receive(pieces);
      reply := Some(StripNuls(response));
      forall text | Plain(Concat(pieces), text) ensures reply == Some(text) {
        assert [] + Concat(pieces) == Concat(pieces);
        ReceivedText([], pieces, text);
      }
    }

    /** Each chunk is preceded by its length. */
    method SendFile(data: Bytes)
      requires 0 < chunkSize < BASE
      modifies this
      ensures sent == old(sent) + Frames(data, chunkSize)
    {
      hide Frames, Pack;
      FramesEnd(chunkSize);
      var at := 0;
      assert data[at..] == data;
      while at < |data|
        invariant at <= |data|
        invariant sent + Frames(data[at..], chunkSize) == old(sent) + Frames(data, chunkSize)
      {
        var chunk := Chunk(data[at..], chunkSize);
        ghost var before, rest := sent, data[at..];
        SendAll(Pack(|chunk|));
        SendAll(chunk);
        at := at + |chunk|;
        assert rest[|chunk|..] == data[at..];
        FramesStep(before, rest, chunkSize);
      }
      assert data[at..] == [];
    }

    /** Read until the other side closes or a NUL arrives. */
    method Receive(pieces: seq<Bytes>) returns (response: Bytes)
      ensures response == Received([], pieces)
    {
      response := [];
      var next := 0;
      while next < |pieces|
        invariant next <= |pieces|
        invariant Received(response, pieces[next..]) == Received([], pieces)
      {
        response := response + pieces[next];
        next := next + 1;
        assert pieces[next - 1..][0] == pieces[next - 1] && pieces[next - 1..][1..] == pieces[next..];
        if 0 in response { break; }
      }
    }
  }
}
