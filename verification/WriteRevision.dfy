/** Conditional writes (server/src/revisions/write.rs). */
module WriteRevision {
  import opened Common
  import opened FileSystem
  import opened Revisions
  import opened Utf8
  import opened Os
  import opened ReadRevision

  // ---------------------------------------------------------------------------------------------
  // The checks

  /** How a path of the wrong kind refuses a save. */
  function WrongKind(kind: string): RevisionError {
    if kind == "hardlink" then UnsupportedFinalType(kind) else Conflict(TypeChanged, None)
  }

  /** What `missing_appearance_conflict` answers for p while it stands still. */
  function AppearanceOf(hash: Hasher, fs: Fs, p: Path): RevisionError {
    var found := LstatOf(fs, p);
    if found.Some? && FinalType(found.value).Some? then WrongKind(FinalType(found.value).value)
    else
      match ReadOf(hash, fs, p)
      case Ok(read) => Conflict(Appeared, Some(read.revision))
      case Err(error) => error
  }

  /** What `conflict_for_existing` answers for p while it stands still. */
  function CheckOf(hash: Hasher, fs: Fs, p: Path, expected: ExpectedRevision): Option<RevisionError> {
    var found := LstatOf(fs, p);
    match expected
    case Missing => if found.None? then None else Some(AppearanceOf(hash, fs, p))
    case Present(r) =>
      if !IsValidFileRevision(r) then Some(Io("write: invalid expected revision"))
      else if found.None? then Some(Conflict(Deleted, None))
      else if FinalType(found.value).Some? then Some(WrongKind(FinalType(found.value).value))
      else
        match ReadOf(hash, fs, p)
        case Err(error) => Some(error)
        case Ok(read) => if read.revision == r then None else Some(Conflict(Changed, Some(read.revision)))
  }

  /** The compare of the compare-and-swap: p holds exactly what the save expects. */
  predicate Matches(hash: Hasher, fs: Fs, p: Path, expected: ExpectedRevision) {
    match expected
    case Missing => p !in fs.names
    case Present(r) => RevisionAt(hash, fs, p) == Some(r)
  }

  lemma CheckIsMatches(hash: Hasher, fs: Fs, p: Path, expected: ExpectedRevision)
    requires Valid(fs) && HexDigests(hash)
    ensures CheckOf(hash, fs, p, expected).None? <==> Matches(hash, fs, p, expected)
  {
    if p in fs.names {
      RevisionNamesNode(hash, fs.names[p], fs.nodes[fs.names[p]]);
    }
  }

  /** A refusal names something that is true of fs: a revision in it is of an inode as it is, and p names that inode
      unless it was touched since the given time. */
  ghost predicate Truthful(hash: Hasher, fs: Fs, p: Path, error: RevisionError, since: int) {
    match error
    case Conflict(Deleted, _) => p !in fs.names
    case Conflict(TypeChanged, _) => LstatOf(fs, p).Some? && FinalType(LstatOf(fs, p).value).Some?
    case Conflict(_, current) => current.Some? && exists i :: Describes(hash, fs, p, i, current.value, since)
    case _ => true
  }

  predicate Describes(hash: Hasher, fs: Fs, p: Path, i: Ino, r: Revision, since: int) {
    && i in fs.nodes && RevisionOf(hash, i, fs.nodes[i]) == r
    && (fs.nodes[i].stamp < since ==> Binding(fs, p) == Some(i))
  }

  lemma TruthfulSinceEarlier(hash: Hasher, fs: Fs, p: Path, error: RevisionError, since: int, earlier: int)
    requires Truthful(hash, fs, p, error, since) && earlier <= since
    ensures Truthful(hash, fs, p, error, earlier)
  {
    if error.Conflict? && (error.kind.Changed? || error.kind.Appeared?) {
      var i :| Describes(hash, fs, p, i, error.current.value, since);
      assert Describes(hash, fs, p, i, error.current.value, earlier);
    }
  }

  /** The refusal answers the expectation: `changed` only for another revision than the expected one. */
  predicate Answers(expected: ExpectedRevision, error: RevisionError) {
    match error
    case Conflict(Changed, current) => expected.Present? && current != Some(expected.revision)
    case Conflict(Deleted, _) => expected.Present?
    case Conflict(Appeared, _) => expected.Missing?
    case _ => true
  }

  method MissingAppearanceConflict(k: Kernel, p: Path, metadata: Meta) returns (error: RevisionError)
    requires Valid(k.fs) && LstatOf(k.fs, p) == Some(metadata)
    modifies k`fs, k`failed
    ensures Valid(k.fs) && k.Outside(old(k.fs), k.fs) && (old(k.failed) ==> k.failed)
    ensures Truthful(k.hash, k.fs, p, error, old(k.fs).clock) && Answers(Missing, error)
    ensures k.alone && !k.failed ==> error == AppearanceOf(k.hash, old(k.fs), p)
  {
    ghost var start := k.fs;
    k.OutsideSelf(start);
    var kind := FinalType(metadata);
    if kind.Some? {
      return WrongKind(kind.value);
    }
    var read, fd, atOpen := ReadWithRevision(k, p);
    match read {
      case Ok(current) =>
        assert Describes(k.hash, k.fs, p, fd, current.revision, start.clock);
        return Conflict(Appeared, Some(current.revision));
      case Err(e) =>
        return e;
    }
  }

  /** The state of p when a check passes is the one the save expects, at the instant the check ends. */
  method ConflictForExisting(k: Kernel, expected: ExpectedRevision, p: Path) returns (conflict: Option<RevisionError>)
    requires Valid(k.fs)
    modifies k`fs, k`failed
    ensures Valid(k.fs) && k.Outside(old(k.fs), k.fs) && (old(k.failed) ==> k.failed)
    ensures conflict.None? && expected.Missing? ==> p !in k.fs.names
    ensures conflict.None? && expected.Present? && Ctime(expected.revision) < old(k.fs).clock ==>
      RevisionAt(k.hash, k.fs, p) == Some(expected.revision)
    ensures conflict.Some? ==>
      Truthful(k.hash, k.fs, p, conflict.value, old(k.fs).clock) && Answers(expected, conflict.value)
    ensures k.alone && !k.failed ==> conflict == CheckOf(k.hash, old(k.fs), p, expected)
  {
    ghost var start := k.fs;
    if expected.Present? && !IsValidFileRevision(expected.revision) {
      k.OutsideSelf(start);
      return Some(Io("write: invalid expected revision"));
    }
    var found := k.Lstat(p);
    ghost var looked := k.fs;
    if found.Err? {
      return Some(found.error);
    }
    if expected.Missing? {
      if found.value.None? {
        return None;
      }
      var error := MissingAppearanceConflict(k, p, found.value.value);
      k.OutsideOn(start, looked, k.fs);
      TruthfulSinceEarlier(k.hash, k.fs, p, error, looked.clock, start.clock);
      return Some(error);
    }
    if found.value.None? {
      return Some(Conflict(Deleted, None));
    }
    var kind := FinalType(found.value.value);
    if kind.Some? {
      return Some(WrongKind(kind.value));
    }
    conflict := CompareRevision(k, expected.revision, p);
    k.OutsideOn(start, looked, k.fs);
    if conflict.Some? { TruthfulSinceEarlier(k.hash, k.fs, p, conflict.value, looked.clock, start.clock); }
  }

  /** The comparison of a present state. */
  method CompareRevision(k: Kernel, expected: Revision, p: Path) returns (conflict: Option<RevisionError>)
    requires Valid(k.fs)
    modifies k`fs, k`failed
    ensures Valid(k.fs) && k.Outside(old(k.fs), k.fs) && (old(k.failed) ==> k.failed)
    ensures conflict.None? && Ctime(expected) < old(k.fs).clock ==> RevisionAt(k.hash, k.fs, p) == Some(expected)
    ensures conflict.Some? ==>
      Truthful(k.hash, k.fs, p, conflict.value, old(k.fs).clock) && Answers(Present(expected), conflict.value)
    ensures k.alone && !k.failed ==>
      conflict == match ReadOf(k.hash, old(k.fs), p)
        case Err(error) => Some(error)
        case Ok(read) => if read.revision == expected then None else Some(Conflict(Changed, Some(read.revision)))
  {
    var read, fd, atOpen := ReadWithRevision(k, p);
    if read.Err? {
      return Some(read.error);
    }
    RevisionNamesNode(k.hash, fd, k.fs.nodes[fd]);
    if read.value.revision == expected {
      return None;
    }
    assert Describes(k.hash, k.fs, p, fd, read.value.revision, old(k.fs).clock);
    return Some(Conflict(Changed, Some(read.value.revision)));
  }

  // ---------------------------------------------------------------------------------------------
  // The temporary file

  /** t, and no other path, names the regular file fd, which holds `written`. */
  predicate Draft(fs: Fs, t: Path, fd: Ino, written: Bytes) {
    && Binding(fs, t) == Some(fd)
    && fd in fs.nodes
    && fs.nodes[fd].kind == Regular
    && fs.nodes[fd].links == 1
    && fs.nodes[fd].bytes == written
    && forall p <- fs.names | fs.names[p] == fd :: p == t
  }

  /** Names are the same, and so is every inode but fd. */
  predicate OnlyNode(a: Fs, b: Fs, fd: Ino) {
    && a.names == b.names
    && fd in b.nodes
    && forall i <- a.nodes | i != fd :: i in b.nodes && b.nodes[i] == a.nodes[i]
  }

  /** The temporary names are bound as they were. */
  predicate SameTemps(k: Kernel, a: Fs, b: Fs) {
    forall p <- a.names.Keys + b.names.Keys | k.Mine(p) :: Binding(a, p) == Binding(b, p)
  }

  lemma SameTempsOn(k: Kernel, a: Fs, b: Fs, c: Fs)
    requires SameTemps(k, a, b) && SameTemps(k, b, c)
    ensures SameTemps(k, a, c)
  {
    forall p <- a.names.Keys + c.names.Keys | k.Mine(p) ensures Binding(a, p) == Binding(c, p) {
      assert p in a.names.Keys + b.names.Keys || p in b.names.Keys + c.names.Keys;
    }
  }

  lemma DraftKept(k: Kernel, a: Fs, b: Fs, t: Path, fd: Ino, written: Bytes)
    requires k.private && k.Mine(t) && Valid(a) && k.Outside(a, b) && Draft(a, t, fd, written)
    ensures Draft(b, t, fd, written)
  {
    assert t in a.names.Keys + b.names.Keys;
    OldStampMeansUnchanged(a, b, fd);
  }

  /** `preserve_metadata`. */
  method PreserveMetadata(k: Kernel, fd: Ino, original: Option<Meta>, ghost t: Path)
    returns (error: Option<RevisionError>)
    requires Valid(k.fs) && fd in k.fs.nodes
    modifies k`fs, k`failed
    ensures Valid(k.fs) && Evolves(old(k.fs), k.fs) && fd in k.fs.nodes && (old(k.failed) ==> k.failed)
    ensures k.alone ==> OnlyNode(old(k.fs), k.fs, fd)
    ensures k.private ==> SameTemps(k, old(k.fs), k.fs)
    ensures k.private && k.Mine(t) && Draft(old(k.fs), t, fd, []) ==> Draft(k.fs, t, fd, [])
    ensures error.Some? ==> k.failed && error.value.Io?
  {
    ghost var start := k.fs;
    if original.None? {
      EvolvesSelf(start);
      return None;
    }
    ghost var before;
    error, before := k.SetOwner(fd, original.value.uid, original.value.gid, original.value.mode);
    EvolvesOn(start, before, k.fs);
    if k.private && k.Mine(t) && Draft(start, t, fd, []) {
      DraftKept(k, start, before, t, fd, []);
    }
  }

  lemma SplicedAtEnd(bytes: Bytes, done: nat, n: nat)
    requires done + n <= |bytes|
    ensures Spliced(bytes[..done], done, bytes[done..][..n]) == bytes[..done + n]
  {
  }

  /** One `write` of what `write_all` still has to write. */
  method WritePiece(k: Kernel, fd: Ino, bytes: Bytes, done: nat, ghost t: Path) returns (n: Result<nat>)
    requires Valid(k.fs) && fd in k.fs.nodes && done < |bytes|
    modifies k`fs, k`failed
    ensures Valid(k.fs) && Evolves(old(k.fs), k.fs) && fd in k.fs.nodes && (old(k.failed) ==> k.failed)
    ensures k.alone ==> OnlyNode(old(k.fs), k.fs, fd)
    ensures k.private ==> SameTemps(k, old(k.fs), k.fs)
    ensures n.Ok? ==> 1 <= n.value <= |bytes| - done
    ensures n.Err? ==> k.failed && n.error.Io?
    ensures k.private && k.Mine(t) && Draft(old(k.fs), t, fd, bytes[..done]) ==>
      Draft(k.fs, t, fd, bytes[..if n.Ok? then done + n.value else done])
  {
    ghost var start := k.fs;
    ghost var before;
    n, before := k.WriteSome(fd, done, bytes[done..]);
    EvolvesOn(start, before, k.fs);
    if k.private && k.Mine(t) && Draft(start, t, fd, bytes[..done]) {
      DraftKept(k, start, before, t, fd, bytes[..done]);
      if n.Ok? {
        SplicedAtEnd(bytes, done, n.value);
      }
    }
  }

  /** `write_all`: piece by piece at the end of what is written. */
  method WriteAll(k: Kernel, fd: Ino, bytes: Bytes, ghost t: Path) returns (error: Option<RevisionError>)
    requires Valid(k.fs) && fd in k.fs.nodes
    modifies k`fs, k`failed
    ensures Valid(k.fs) && Evolves(old(k.fs), k.fs) && fd in k.fs.nodes && (old(k.failed) ==> k.failed)
    ensures k.alone ==> OnlyNode(old(k.fs), k.fs, fd)
    ensures k.private ==> SameTemps(k, old(k.fs), k.fs)
    ensures k.private && k.Mine(t) && Draft(old(k.fs), t, fd, []) ==>
      (error.None? ==> Draft(k.fs, t, fd, bytes))
    ensures error.Some? ==> k.failed && error.value.Io?
  {
    ghost var start := k.fs;
    ghost var ours := k.private && k.Mine(t) && Draft(start, t, fd, []);
    var done := 0;
    EvolvesSelf(start);
    while done < |bytes|
      invariant 0 <= done <= |bytes|
      invariant Valid(k.fs) && Evolves(start, k.fs) && fd in k.fs.nodes && (old(k.failed) ==> k.failed)
      invariant k.alone ==> OnlyNode(start, k.fs, fd)
      invariant k.private ==> SameTemps(k, start, k.fs)
      invariant ours ==> Draft(k.fs, t, fd, bytes[..done])
    {
      ghost var last := k.fs;
      var n := WritePiece(k, fd, bytes, done, t);
      EvolvesOn(start, last, k.fs);
      if k.private { SameTempsOn(k, start, last, k.fs); }
      if n.Err? {
        return Some(n.error);
      }
      done := done + n.value;
    }
    assert bytes[..done] == bytes;
    return None;
  }

  /** Ownership and mode, the bytes, a flush. */
  method Fill(k: Kernel, fd: Ino, original: Option<Meta>, bytes: Bytes, ghost t: Path)
    returns (error: Option<RevisionError>)
    requires Valid(k.fs) && fd in k.fs.nodes
    modifies k`fs, k`failed
    ensures Valid(k.fs) && Evolves(old(k.fs), k.fs) && fd in k.fs.nodes && (old(k.failed) ==> k.failed)
    ensures k.alone ==> OnlyNode(old(k.fs), k.fs, fd)
    ensures k.private ==> SameTemps(k, old(k.fs), k.fs)
    ensures k.private && k.Mine(t) && Draft(old(k.fs), t, fd, []) && error.None? ==> Draft(k.fs, t, fd, bytes)
    ensures error.Some? ==> k.failed
  {
    ghost var first := k.fs;
    error := PreserveMetadata(k, fd, original, t);
    if error.Some? {
      return;
    }
    ghost var owned := k.fs;
    error := WriteAll(k, fd, bytes, t);
    EvolvesOn(first, owned, k.fs);
    if k.private { SameTempsOn(k, first, owned, k.fs); }
    if error.Some? {
      return;
    }
    ghost var written := k.fs;
    error := k.SyncAll(fd);
    EvolvesOn(first, written, k.fs);
    if k.private { SameTempsOn(k, first, written, k.fs); }
    if k.private && k.Mine(t) && Draft(written, t, fd, bytes) {
      DraftKept(k, written, k.fs, t, fd, bytes);
    }
  }
}
