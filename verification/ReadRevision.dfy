/** Reading a file together with the revision that names it (server/src/revisions/read.rs). */
module ReadRevision {
  import opened Common
  import opened FileSystem
  import opened Revisions
  import opened Utf8
  import opened Os

  const READ_ATTEMPTS := 3

  datatype RevisionRead = RevisionRead(bytes: Bytes, revision: Revision)

  /** `read` is the whole content, with the size, digest and metadata, that inode fd has in fs. */
  predicate Holds(hash: Hasher, fs: Fs, fd: Ino, read: RevisionRead) {
    && fd in fs.nodes
    && FinalType(MetaOf(fd, fs.nodes[fd])).None?
    && read.bytes == fs.nodes[fd].bytes
    && read.revision == RevisionOf(hash, fd, fs.nodes[fd])
    && |read.bytes| <= MAX_READ_BYTES
    && IsUtf8(read.bytes)
  }

  /** What reading an inode finds while it stands still. */
  function ReadNode(hash: Hasher, i: Ino, n: Node): Result<RevisionRead> {
    var kind := FinalType(MetaOf(i, n));
    if kind.Some? then Err(UnsupportedFinalType(kind.value))
    else if |n.bytes| > MAX_READ_BYTES then Err(TooLarge)
    else if !IsUtf8(n.bytes) then Err(UnsupportedEncoding)
    else Ok(RevisionRead(n.bytes, RevisionOf(hash, i, n)))
  }

  function ReadOf(hash: Hasher, fs: Fs, p: Path): Result<RevisionRead> {
    if p in fs.names && fs.names[p] in fs.nodes then ReadNode(hash, fs.names[p], fs.nodes[fs.names[p]])
    else Err(Io("read: file not found"))
  }

  /** The revision of the file at p. */
  function RevisionAt(hash: Hasher, fs: Fs, p: Path): Option<Revision> {
    var r := ReadOf(hash, fs, p);
    if r.Ok? then Some(r.value.revision) else None
  }

  function Take(s: Bytes, n: nat): Bytes { if |s| <= n then s else s[..n] }

  lemma SampleUnchanged(k: Kernel, a: Fs, b: Fs, c: Fs, fd: Ino)
    requires Valid(a) && Valid(b) && k.Outside(a, b) && k.Outside(b, c) && fd in a.nodes
    ensures fd in b.nodes && fd in c.nodes
    ensures c.nodes[fd] == a.nodes[fd] ==> b.nodes[fd] == a.nodes[fd]
  {
    if c.nodes[fd] == a.nodes[fd] {
      OldStampMeansUnchanged(b, c, fd);
    }
  }

  /** `take(limit).read_to_end`: piece by piece, others acting in between.  Unless the inode changed
      meanwhile, the pieces are its content. */
  method ReadToEnd(k: Kernel, fd: Ino, limit: nat) returns (r: Result<Bytes>)
    requires Valid(k.fs) && fd in k.fs.nodes
    modifies k`fs, k`failed
    ensures Valid(k.fs) && k.Outside(old(k.fs), k.fs) && (old(k.failed) ==> k.failed) && fd in k.fs.nodes
    ensures r.Ok? && k.fs.nodes[fd] == old(k.fs.nodes[fd]) ==> r.value == Take(k.fs.nodes[fd].bytes, limit)
    ensures r.Err? ==> k.failed && r.error.Io?
  {
    var bytes: Bytes := [];
    ghost var first := k.fs;
    k.OutsideSelf(first);
    while |bytes| < limit
      invariant |bytes| <= limit
      invariant Valid(k.fs) && k.Outside(first, k.fs) && (old(k.failed) ==> k.failed) && fd in k.fs.nodes
      invariant k.fs.nodes[fd] == first.nodes[fd] ==> bytes <= k.fs.nodes[fd].bytes
      decreases limit - |bytes|
    {
      ghost var last := k.fs;
      var piece := k.ReadSome(fd, |bytes|, limit - |bytes|);
      k.OutsideOn(first, last, k.fs);
      SampleUnchanged(k, first, last, k.fs, fd);
      if piece.Err? {
        return Err(piece.error);
      }
      if piece.value == [] {
        break;
      }
      bytes := bytes + piece.value;
    }
    return Ok(bytes);
  }

  method OpenChecked(k: Kernel, p: Path) returns (r: Result<Ino>)
    requires Valid(k.fs)
    modifies k`fs, k`failed
    ensures Valid(k.fs) && k.Outside(old(k.fs), k.fs) && (old(k.failed) ==> k.failed)
    ensures r.Ok? ==> Binding(k.fs, p) == Some(r.value)
    ensures r.Err? ==> !r.error.Conflict? && !r.error.UnstableRead?
    ensures k.alone && !k.failed ==>
      var found := LstatOf(k.fs, p);
      if found.None? then r == Err(Io("read: file not found"))
      else if FinalType(found.value).Some? then r == Err(UnsupportedFinalType(FinalType(found.value).value))
      else r.Ok?
  {
    ghost var first := k.fs;
    var initial := k.Lstat(p);
    ghost var sampled := k.fs;
    if initial.Err? {
      return Err(initial.error);
    }
    if initial.value.None? {
      return Err(Io("read: file not found"));
    }
    var kind := FinalType(initial.value.value);
    if kind.Some? {
      return Err(UnsupportedFinalType(kind.value));
    }
    r := k.Open(p);
    k.OutsideOn(first, sampled, k.fs);
  }

  /** One attempt on an open descriptor; None when the two samples differ. */
  method ReadStable(k: Kernel, fd: Ino) returns (r: Result<Option<RevisionRead>>)
    requires Valid(k.fs) && fd in k.fs.nodes
    modifies k`fs, k`failed
    ensures Valid(k.fs) && k.Outside(old(k.fs), k.fs) && (old(k.failed) ==> k.failed) && fd in k.fs.nodes
    ensures r.Err? ==> !r.error.Conflict? && !r.error.UnstableRead?
    ensures r == Ok(None) ==> k.fs.clock > old(k.fs).clock
    ensures r.Ok? && r.value.Some? ==> Holds(k.hash, k.fs, fd, r.value.value)
    ensures k.alone && !k.failed ==>
      match ReadNode(k.hash, fd, k.fs.nodes[fd])
      case Ok(read) => r == Ok(Some(read))
      case Err(error) => r == Err(error)
  {
    ghost var start := k.fs;
    var before := k.Fstat(fd);
    ghost var sampled := k.fs;
    if before.Err? {
      return Err(before.error);
    }
    var kind := FinalType(before.value);
    if kind.Some? {
      return Err(UnsupportedFinalType(kind.value));
    }
    if before.value.size > MAX_READ_BYTES {
      return Err(TooLarge);
    }
    var content := ReadToEnd(k, fd, MAX_READ_BYTES + 1);
    k.OutsideOn(start, sampled, k.fs);
    if content.Err? {
      return Err(content.error);
    }
    var bytes := content.value;
    if |bytes| > MAX_READ_BYTES {
      return Err(TooLarge);
    }
    ghost var read := k.fs;
    r := SecondSample(k, fd, before.value, bytes, sampled);
    k.OutsideOn(start, read, k.fs);
  }

  /** The second sample, against the first, taken at `sampled`. */
  method SecondSample(k: Kernel, fd: Ino, before: Meta, bytes: Bytes, ghost sampled: Fs)
    returns (r: Result<Option<RevisionRead>>)
    requires Valid(k.fs) && fd in k.fs.nodes && |bytes| <= MAX_READ_BYTES
    requires Valid(sampled) && k.Outside(sampled, k.fs) && fd in sampled.nodes
      && before == MetaOf(fd, sampled.nodes[fd])
    requires k.fs.nodes[fd] == sampled.nodes[fd] ==> bytes == Take(k.fs.nodes[fd].bytes, MAX_READ_BYTES + 1)
    modifies k`fs, k`failed
    ensures Valid(k.fs) && k.Outside(old(k.fs), k.fs) && (old(k.failed) ==> k.failed) && fd in k.fs.nodes
    ensures r.Err? ==> !r.error.Conflict? && !r.error.UnstableRead?
    ensures r == Ok(None) ==> k.fs.clock > sampled.clock
    ensures r.Ok? && r.value.Some? ==> Holds(k.hash, k.fs, fd, r.value.value)
    ensures k.alone && !k.failed && FinalType(before).None? ==>
      r == if IsUtf8(bytes) then Ok(Some(RevisionRead(bytes, RevisionOf(k.hash, fd, sampled.nodes[fd]))))
        else Err(UnsupportedEncoding)
  {
    ghost var read := k.fs;
    var after := k.Fstat(fd);
    if after.Err? {
      return Err(after.error);
    }
    var kind := FinalType(after.value);
    if kind.Some? {
      return Err(UnsupportedFinalType(kind.value));
    }
    if !MetadataEqual(before, after.value) {
      ChangeTakesTime(sampled, read, k.fs, fd);
      return Ok(None);
    }
    EqualSamples(k, sampled, read, k.fs, fd);
    if !IsUtf8(bytes) {
      return Err(UnsupportedEncoding);
    }
    return Ok(Some(RevisionRead(bytes, FromMetadata(after.value, k.hash(bytes)))));
  }

  /** A stable read.  Whatever others do between any two calls, a successful read hands out one inode's
      content, size, digest and metadata as they all are at one instant, its last sample; the path named that inode
      when it was opened. */
  method ReadWithRevision(k: Kernel, p: Path) returns (r: Result<RevisionRead>, ghost fd: Ino, ghost atOpen: Fs)
    requires Valid(k.fs)
    modifies k`fs, k`failed
    ensures Valid(k.fs) && k.Outside(old(k.fs), k.fs) && (old(k.failed) ==> k.failed)
    ensures r.Err? ==> !r.error.Conflict?
    // Only three changes, one in each attempt, make it give up.
    ensures r == Err(UnstableRead) ==> k.fs.clock >= old(k.fs).clock + READ_ATTEMPTS
    ensures r.Ok? ==> Holds(k.hash, k.fs, fd, r.value)
    ensures r.Ok? ==>
      Valid(atOpen) && k.Outside(old(k.fs), atOpen) && k.Outside(atOpen, k.fs) && Binding(atOpen, p) == Some(fd)
    ensures r.Ok? && k.fs.nodes[fd].stamp < old(k.fs).clock ==> Binding(k.fs, p) == Some(fd)
    ensures k.alone && !k.failed ==> r == ReadOf(k.hash, old(k.fs), p) && (r.Ok? ==> Binding(k.fs, p) == Some(fd))
  {
    fd, atOpen := Ino(0, 0), k.fs;
    ghost var start := k.fs;
    k.OutsideSelf(start);
    for attempt := 0 to READ_ATTEMPTS
      invariant Valid(k.fs) && k.Outside(start, k.fs) && (old(k.failed) ==> k.failed)
      invariant k.fs.clock >= start.clock + attempt
      invariant k.alone && !k.failed ==> attempt == 0
    {
      ghost var last := k.fs;
      var file := OpenChecked(k, p);
      k.OutsideOn(start, last, k.fs);
      if file.Err? {
        return Err(file.error), fd, atOpen;
      }
      fd, atOpen := file.value, k.fs;
      var read := ReadStable(k, file.value);
      k.OutsideOn(start, atOpen, k.fs);
      if read.Err? {
        return Err(read.error), fd, atOpen;
      }
      if read.value.Some? {
        StillBound(k, start, atOpen, k.fs, p, fd);
        return Ok(read.value.value), fd, atOpen;
      }
    }
    return Err(UnstableRead), fd, atOpen;
  }

  /** Two equal samples: the inode did not change between them, nor anywhere in between. */
  lemma EqualSamples(k: Kernel, a: Fs, b: Fs, c: Fs, fd: Ino)
    requires Valid(a) && Valid(b) && k.Outside(a, b) && k.Outside(b, c) && fd in a.nodes && fd in c.nodes
    requires MetadataEqual(MetaOf(fd, a.nodes[fd]), MetaOf(fd, c.nodes[fd]))
    ensures fd in b.nodes && a.nodes[fd] == b.nodes[fd] == c.nodes[fd]
  {
    assert c.nodes[fd].stamp == a.nodes[fd].stamp;
    OldStampMeansUnchanged(b, c, fd);
    OldStampMeansUnchanged(a, b, fd);
  }

  lemma ChangeTakesTime(a: Fs, b: Fs, c: Fs, fd: Ino)
    requires Valid(a) && Valid(b) && Valid(c) && Evolves(a, b) && Evolves(b, c) && fd in a.nodes && fd in c.nodes
    requires a.nodes[fd] != c.nodes[fd]
    ensures c.clock > a.clock
  {
    EvolvesOn(a, b, c);
  }

  /** An inode whose stamp predates the call was not moved since it was opened. */
  lemma StillBound(k: Kernel, start: Fs, atOpen: Fs, now: Fs, p: Path, fd: Ino)
    requires k.Outside(start, atOpen) && Valid(atOpen) && Evolves(atOpen, now) && fd in now.nodes
    requires Binding(atOpen, p) == Some(fd)
    ensures now.nodes[fd].stamp < start.clock ==> Binding(now, p) == Some(fd)
  {
    if now.nodes[fd].stamp < start.clock {
      OldStampMeansUnchanged(atOpen, now, fd);
    }
  }
}
