/** Saving an uploaded file to disk while hashing it. */
module FileSaver {
  import opened Types

  const CHUNK: nat := 64 * 1024

  /** An incremental hash: what it will digest is everything it was updated with. */
  class Hasher {
    const digest: Bytes -> string
    var fed: Bytes

    constructor (digest: Bytes -> string)
      ensures this.digest == digest && fed == []
    {
      this.digest, fed := digest, [];
    }

    method Update(bytes: Bytes)
      modifies this
      ensures fed == old(fed) + bytes
    {
      fed := fed + bytes;
    }
  }

  /** An input stream; a read returns at most the requested bytes, and nothing only at the end. */
  class Stream {
    var rest: Bytes

    constructor (bytes: Bytes)
      ensures rest == bytes
    {
      rest := bytes;
    }

    method Read(size: nat) returns (chunk: Bytes)
      requires size > 0
      modifies this
      ensures old(rest) == chunk + rest && |chunk| <= size && (chunk == [] <==> old(rest) == [])
    {
      chunk := if |rest| <= size then rest else rest[..size];
      rest := rest[|chunk|..];
    }
  }

  class HashingFileSaver {
    const hasher: Hasher
    var content: Bytes
    var open_: bool
    var cached: Option<string>

    constructor (digest: Bytes -> string)
      ensures fresh(hasher) && hasher.digest == digest && hasher.fed == [] && content == [] && !open_ && cached.None?
    {
      hasher := new Hasher(digest);
      content, open_, cached := [], false, None;
    }

    /** While the file is open, the hasher has seen what the file holds. */
    predicate Synced()
      reads this, hasher
    {
      hasher.fed == content
    }

    method Enter()
      requires !open_ && hasher.fed == []
      modifies this
      ensures open_ && content == [] && Synced() && cached == old(cached)
    {
      open_, content := true, [];
    }

    method SaveFromStream(stream: Stream) returns (ok: bool)
      requires Synced()
      modifies this, hasher, stream
      ensures ok <==> old(open_)
      ensures !ok ==> content == old(content) && stream.rest == old(stream.rest)
      ensures ok ==> content == old(content) + old(stream.rest) && stream.rest == []
      ensures Synced() && open_ == old(open_) && cached == old(cached)
    {
      if !open_ { return false; }
      var chunk := stream.Read(CHUNK);
      while chunk != []
        invariant content + chunk + stream.rest == old(content) + old(stream.rest)
        invariant chunk == [] ==> stream.rest == []
        invariant Synced() && open_ && cached == old(cached)
        decreases |chunk| + |stream.rest|
      {
        hasher.Update(chunk);
        content := content + chunk;
        chunk := stream.Read(CHUNK);
      }
      ok := true;
    }

    method Exit()
      requires Synced()
      modifies this
      ensures content == old(content) && Synced()
      ensures cached == if old(open_) then Some(hasher.digest(content)) else old(cached)
    {
      if open_ { cached := Some(hasher.digest(hasher.fed)); }
    }

    method GetHash() returns (hash: Option<string>)
      ensures hash == cached
    {
      hash := cached;
    }
  }

  /** A saved file holds the uploaded bytes, and the hash that is kept is the hash of those bytes. */
  method Save(digest: Bytes -> string, stream: Stream) returns (content: Bytes, hash: string)
    modifies stream
    ensures content == old(stream.rest) && hash == digest(content)
  {
    var saver := new HashingFileSaver(digest);
    saver.Enter();
    var _ := saver.SaveFromStream(stream);
    saver.Exit();
    var found := saver.GetHash();
    content, hash := saver.content, found.value;
  }
}
