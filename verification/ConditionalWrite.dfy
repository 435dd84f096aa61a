/** The whole conditional write, under the server's mutation lock (server/src/revisions/write.rs, mod.rs). */
module ConditionalWrite {
  import opened Common
  import opened FileSystem
  import opened Revisions
  import opened Utf8
  import opened Os
  import opened ReadRevision
  import opened WriteRevision

  // ---------------------------------------------------------------------------------------------
  // What a publication may be

  /** A publication the protocol allows.  A foreign process can act between `checked` and `before`. */
  ghost predicate Legit(k: Kernel, e: Publish) {
    && Valid(e.start) && Valid(e.checked) && Valid(e.before) && Valid(e.after)
    && Evolves(e.start, e.checked) && Evolves(e.checked, e.before) && Evolves(e.before, e.after)
    && (k.alone ==> e.checked == e.before)
    && Installs(e)
    && (e.expected.Missing? ==> e.path !in e.before.names)
    && (e.expected.Present? && Ctime(e.expected.revision) < e.start.clock ==>
          RevisionAt(k.hash, e.checked, e.path) == Some(e.expected.revision))
    && (k.private ==> FilledBeforeCheck(e) && exists t, fd :: Makes(k, e, t, fd))
  }

  /** The filesystem right after the publishing call itself. */
  function PublishingCall(a: Fs, t: Path, p: Path, expected: ExpectedRevision): Fs
    requires Valid(a) && t in a.names
  {
    if expected.Present? then Renamed(a, t, p) else Linked(a, t, p)
  }

  /** The publishing call installed the draft t, which held exactly the bytes. */
  predicate Makes(k: Kernel, e: Publish, t: Path, fd: Ino)
    requires Valid(e.before)
  {
    k.Mine(t) && Draft(e.before, t, fd, e.bytes) && e.after == PublishingCall(e.before, t, e.path, e.expected)
  }

  /** The published inode already held the whole content when the second check ended. */
  predicate FilledBeforeCheck(e: Publish)
    requires e.path in e.after.names && e.after.names[e.path] in e.after.nodes
  {
    var fd := e.after.names[e.path];
    fd in e.checked.nodes && e.checked.nodes[fd].bytes == e.bytes && e.after.nodes[fd].bytes == e.bytes
  }

  /** The path names an inode stamped during the call. */
  predicate Installs(e: Publish) {
    e.path in e.after.names && Stamped(e.after, e.after.names[e.path], e.start.clock)
  }

  /** Publications happened one after the other, and now is `fs`. */
  ghost predicate Ordered(log: seq<Publish>, fs: Fs) {
    && (forall e <- log :: Evolves(e.after, fs))
    && (forall i, j | 0 <= i < j < |log| :: Evolves(log[i].after, log[j].start))
  }

  lemma OrderedOn(log: seq<Publish>, a: Fs, b: Fs)
    requires Ordered(log, a) && Valid(a) && Evolves(a, b) && forall e <- log :: Valid(e.after)
    ensures Ordered(log, b)
  {
    forall e <- log ensures Evolves(e.after, b) {
      EvolvesOn(e.after, a, b);
    }
  }

  lemma OrderedMore(log: seq<Publish>, e: Publish, fs: Fs)
    requires Ordered(log, e.start) && Ordered(log, fs) && Evolves(e.after, fs)
    ensures Ordered(log + [e], fs)
  {
  }

  // ---------------------------------------------------------------------------------------------
  // What publishing does to a filesystem nobody else touches

  /** a with a draft added. */
  predicate Drafted(a: Fs, b: Fs, t: Path, fd: Ino) {
    && t !in a.names && fd !in a.names.Values
    && b.names == a.names[t := fd]
    && forall i <- a.nodes | i != fd :: i in b.nodes && b.nodes[i] == a.nodes[i]
  }

  /** a with p naming a new file that holds `bytes`, and nothing else different but the replaced inode. */
  predicate Installed(a: Fs, b: Fs, p: Path, fd: Ino, bytes: Bytes) {
    && fd !in a.names.Values
    && b.names == a.names[p := fd]
    && Draft(b, p, fd, bytes)
    && forall i <- a.nodes | i != fd && Binding(a, p) != Some(i) :: i in b.nodes && b.nodes[i] == a.nodes[i]
  }

  /** What the publishing calls do when nothing interferes. */
  function Published(a: Fs, t: Path, p: Path, expected: ExpectedRevision): Fs
    requires Valid(a) && t in a.names
  {
    if expected.Present? then Renamed(a, t, p)
    else if p !in a.names then
      LinkedEvolves(a, t, p);
      Unlinked(Linked(a, t, p), t)
    else a
  }

  lemma RenameInstalls(start: Fs, a: Fs, t: Path, fd: Ino, p: Path, bytes: Bytes)
    requires Valid(a) && Drafted(start, a, t, fd) && Draft(a, t, fd, bytes) && p != t
    ensures Installed(start, Renamed(a, t, p), p, fd, bytes)
  {
    assert p in a.names ==> a.names[p] == start.names[p] && a.names[p] in start.names.Values;
    assert Binding(a, t) != Binding(a, p);
  }

  lemma LinkInstalls(start: Fs, a: Fs, t: Path, fd: Ino, p: Path, bytes: Bytes)
    requires Valid(a) && Drafted(start, a, t, fd) && Draft(a, t, fd, bytes) && p !in a.names
    ensures Valid(Linked(a, t, p))
    ensures Installed(start, Unlinked(Linked(a, t, p), t), p, fd, bytes)
  {
    LinkedEvolves(a, t, p);
  }

  /** A save nobody interferes with, once its draft is filled: the second check agrees with the first,
      publishing installs the draft, and reading it back finds it. */
  lemma QuietSave(hash: Hasher, start: Fs, first: Fs, filled: Fs, t: Path, fd: Ino, p: Path, bytes: Bytes,
                  expected: ExpectedRevision)
    requires Valid(filled) && Drafted(start, first, t, fd) && OnlyNode(first, filled, fd)
    requires Draft(filled, t, fd, bytes) && p != t && Valid(start)
    requires CheckOf(hash, start, p, expected).None? && |bytes| <= MAX_READ_BYTES && IsUtf8(bytes)
    ensures CheckOf(hash, filled, p, expected).None?
    ensures var b := Published(filled, t, p, expected);
      Installed(start, b, p, fd, bytes)
      && ReadOf(hash, b, p) == Ok(RevisionRead(bytes, RevisionOf(hash, fd, b.nodes[fd])))
  {
    DraftHidden(hash, start, first, filled, t, fd, p, expected);
    if expected.Present? {
      RenameInstalls(start, filled, t, fd, p, bytes);
    } else {
      LinkInstalls(start, filled, t, fd, p, bytes);
    }
    InstalledReads(hash, start, Published(filled, t, p, expected), p, fd, bytes);
  }

  /** The draft t of a was published undisturbed, and the answer is what the path then holds. */
  predicate Answered(hash: Hasher, a: Fs, now: Fs, t: Path, path: Path, bytes: Bytes, expected: ExpectedRevision,
                     r: Result<Revision>)
    requires Valid(a) && t in a.names
  {
    && now == Published(a, t, path, expected)
    && (ReadOf(hash, now, path).Ok? && ReadOf(hash, now, path).value.bytes == bytes ==>
          r == Ok(ReadOf(hash, now, path).value.revision))
  }

  lemma QuietAnswer(hash: Hasher, start: Fs, first: Fs, filled: Fs, now: Fs, t: Path, fd: Ino, p: Path, bytes: Bytes,
                    expected: ExpectedRevision, r: Result<Revision>)
    requires Valid(filled) && Drafted(start, first, t, fd) && OnlyNode(first, filled, fd)
    requires Draft(filled, t, fd, bytes) && p != t && Valid(start)
    requires CheckOf(hash, start, p, expected).None? && |bytes| <= MAX_READ_BYTES && IsUtf8(bytes)
    requires CheckOf(hash, filled, p, expected).None? ==> Answered(hash, filled, now, t, p, bytes, expected, r)
    ensures Installed(start, now, p, fd, bytes) && r == Ok(RevisionOf(hash, fd, now.nodes[fd]))
  {
    QuietSave(hash, start, first, filled, t, fd, p, bytes, expected);
  }

  /** A draft changes nothing any other path's check can see. */
  lemma DraftHidden(hash: Hasher, start: Fs, first: Fs, filled: Fs, t: Path, fd: Ino, p: Path,
                    expected: ExpectedRevision)
    requires Valid(start) && Drafted(start, first, t, fd) && OnlyNode(first, filled, fd) && p != t
    ensures CheckOf(hash, filled, p, expected) == CheckOf(hash, start, p, expected)
    ensures CheckOf(hash, start, p, expected).None? && expected.Missing? ==> p !in filled.names
  {
    assert Binding(filled, p) == Binding(start, p);
    if p in start.names {
      assert start.names[p] in start.names.Values;
      assert filled.nodes[start.names[p]] == start.nodes[start.names[p]];
    }
    assert LstatOf(filled, p) == LstatOf(start, p);
    assert ReadOf(hash, filled, p) == ReadOf(hash, start, p);
  }

  lemma InstalledReads(hash: Hasher, a: Fs, b: Fs, p: Path, fd: Ino, bytes: Bytes)
    requires Installed(a, b, p, fd, bytes) && |bytes| <= MAX_READ_BYTES && IsUtf8(bytes)
    ensures ReadOf(hash, b, p) == Ok(RevisionRead(bytes, RevisionOf(hash, fd, b.nodes[fd])))
  {
  }

  /** One step: if p holds what the save expects, p comes to name a new file with exactly the bytes, which
      the answer's revision names, and nothing else changes; otherwise nothing changes at all, and the
      answer says what is there. */
  predicate CompareAndSwap(hash: Hasher, a: Fs, b: Fs, p: Path, bytes: Bytes, expected: ExpectedRevision,
                           r: Result<Revision>, fd: Ino)
  {
    match CheckOf(hash, a, p, expected)
    case Some(error) => r == Err(error) && b == a
    case None => Installed(a, b, p, fd, bytes) && r == Ok(RevisionOf(hash, fd, b.nodes[fd]))
  }

  // ---------------------------------------------------------------------------------------------
  // The code

  const UNCLEANED := Io("write(publish cleanup)")

  /** How a save ends once its draft is filled: nothing was published; or a creation was, but its temporary name could
      not be removed; or a publication was read back. */
  datatype Ending = Unpublished(error: RevisionError) | Uncleaned | ReadBack(back: Result<RevisionRead>)

  /** The answer. */
  function Conclude(ending: Ending, bytes: Bytes): Result<Revision> {
    match ending
    case Unpublished(error) => Err(error)
    case Uncleaned => Err(UNCLEANED)
    case ReadBack(Err(error)) => Err(error)
    case ReadBack(Ok(read)) =>
      if read.bytes == bytes then Ok(read.revision) else Err(Conflict(Changed, Some(read.revision)))
  }

  /** p names a regular file, with no other link, that holds exactly the bytes. */
  predicate Whole(fs: Fs, p: Path, bytes: Bytes) {
    && p in fs.names && fs.names[p] in fs.nodes
    && var n := fs.nodes[fs.names[p]]; n.kind == Regular && n.links == 1 && n.bytes == bytes
  }

  predicate Storable(bytes: Bytes) { |bytes| <= MAX_READ_BYTES && IsUtf8(bytes) }

  lemma WholeConcludes(hash: Hasher, fs: Fs, p: Path, bytes: Bytes)
    ensures Whole(fs, p, bytes) && Storable(bytes) ==> Conclude(ReadBack(ReadOf(hash, fs, p)), bytes).Ok?
  {
  }

  lemma RenameIsWhole(a: Fs, t: Path, p: Path, fd: Ino, bytes: Bytes)
    requires Valid(a) && Draft(a, t, fd, bytes)
    ensures Whole(Renamed(a, t, p), p, bytes)
  {
  }

  lemma LinkIsWhole(a: Fs, t: Path, p: Path, fd: Ino, bytes: Bytes)
    requires Valid(a) && Draft(a, t, fd, bytes) && p !in a.names
    ensures var b := Linked(a, t, p);
      Valid(b) && t in b.names && b.nodes[b.names[t]].kind != Directory && Whole(Unlinked(b, t), p, bytes)
  {
    LinkedEvolves(a, t, p);
  }

  const EXHAUSTED := Io("write(temp): exhausted unique temporary names")

  class PendingTemp {
    const path: Path
    var active: bool

    constructor (path: Path)
      ensures this.path == path && active
    {
      this.path, active := path, true;
    }

    method KeepAfterRename()
      modifies this
      ensures !active
    {
      active := false;
    }
  }

  predicate IsDirectory(fs: Fs, p: Path) {
    p in fs.names && fs.names[p] in fs.nodes && fs.nodes[fs.names[p]].kind == Directory
  }

  /** Nothing of the wrong kind is in the publishing call's way. */
  predicate Open(fs: Fs, p: Path, expected: ExpectedRevision) {
    if expected.Present? then !IsDirectory(fs, p) else p !in fs.names
  }

  lemma CheckedIsOpen(hash: Hasher, fs: Fs, p: Path, expected: ExpectedRevision)
    ensures CheckOf(hash, fs, p, expected).None? && Valid(fs) ==> Open(fs, p, expected)
  {
  }

  /** t, if it is bound, names an inode stamped since. */
  predicate StampedName(fs: Fs, t: Path, since: int) {
    t in fs.names ==> Stamped(fs, fs.names[t], since)
  }

  lemma StampedNameKept(a: Fs, b: Fs, t: Path, since: int)
    requires Valid(a) && Evolves(a, b) && StampedName(a, t, since) && since <= a.clock
    ensures StampedName(b, t, since)
  {
    KeptAlways(a, b, t);
  }

  /** Every temporary name of this process that b has and a has not is in `extra`. */
  predicate TempsGrow(k: Kernel, a: Fs, b: Fs, extra: set<Path>) {
    forall p <- b.names | k.Mine(p) && p !in extra :: p in a.names
  }

  /** The draft t came with the first step and is gone after the second. */
  lemma TempsDropped(k: Kernel, a: Fs, b: Fs, c: Fs, t: Path, p: Path)
    requires TempsGrow(k, a, b, {t}) && TempsGrow(k, b, c, {p}) && (t != p ==> t !in c.names)
    ensures TempsGrow(k, a, c, {p})
  {
  }

  lemma OthersAddNoTemps(k: Kernel, a: Fs, b: Fs)
    requires k.private && (SameTemps(k, a, b) || k.Outside(a, b))
    ensures TempsGrow(k, a, b, {})
  {
    forall p <- b.names | k.Mine(p) ensures p in a.names {
      assert p in a.names.Keys + b.names.Keys;
    }
  }

  class Server {
    const k: Kernel
    /** NEXT_TEMP */
    var nextTemp: nat
    /** Every publication so far. */
    ghost var log: seq<Publish>

    ghost predicate Valid()
      reads this, k
    {
      && FileSystem.Valid(k.fs)
      && (k.alone ==> k.private)
      && (forall e <- log :: Legit(k, e))
      && Ordered(log, k.fs)
    }

    constructor (k: Kernel)
      requires FileSystem.Valid(k.fs) && (k.alone ==> k.private)
      ensures this.k == k && log == [] && Valid()
    {
      this.k, nextTemp, log := k, 0, [];
    }

    /** Any other operation, under the lock or not: write, delete, rename, copy, or another process. */
    method Elsewhere(next: Fs)
      requires Valid() && FileSystem.Valid(next) && Evolves(k.fs, next)
      modifies k`fs
      ensures Valid() && k.fs == next
    {
      OrderedOn(log, k.fs, next);
      k.fs := next;
    }

    /** `PendingTemp::new`. */
    method NewPendingTemp(directory: string)
      returns (error: Option<RevisionError>, pending: PendingTemp, fd: Ino, ghost before: Fs)
      requires FileSystem.Valid(k.fs)
      modifies `nextTemp, k`fs, k`failed, k`wrote
      ensures FileSystem.Valid(k.fs) && Evolves(old(k.fs), k.fs) && (old(k.failed) ==> k.failed)
      ensures fresh(pending) && pending.active && k.Mine(pending.path) && pending.path.directory == directory
      ensures error.Some? ==> k.failed && error.value.Io? && k.wrote == old(k.wrote) && k.Outside(old(k.fs), k.fs)
      ensures error == Some(EXHAUSTED) ==> nextTemp == old(nextTemp) + 100
      ensures error.None? ==> pending.path.name.serial + 1 == nextTemp <= old(nextTemp) + 100
      ensures error.None? ==>
        && FileSystem.Valid(before) && k.Outside(old(k.fs), before) && Drafted(before, k.fs, pending.path, fd)
        && Draft(k.fs, pending.path, fd, []) && k.fs.nodes[fd].stamp == before.clock
        && k.wrote == old(k.wrote) + {pending.path}
    {
      ghost var start := k.fs;
      k.OutsideSelf(start);
      EvolvesSelf(start);
      fd, before := Ino(0, 0), start;
      pending := new PendingTemp(Path(directory, Temp(k.process, nextTemp)));
      for attempt := 0 to 100
        invariant FileSystem.Valid(k.fs) && k.Outside(start, k.fs) && (old(k.failed) ==> k.failed)
        invariant k.wrote == old(k.wrote) && fresh(pending) && pending.active && nextTemp == old(nextTemp) + attempt
        invariant k.Mine(pending.path) && pending.path.directory == directory
      {
        ghost var last := k.fs;
        var path := Path(directory, Temp(k.process, nextTemp));
        nextTemp := nextTemp + 1;
        var made;
        made, before := k.CreateNew(path);
        k.OutsideOn(start, last, before);
        match made {
          case NameTaken =>
          case Failed(e) =>
            assert |EXHAUSTED.message| != |e.message|;
            return Some(e), pending, fd, before;
          case Opened(f) =>
            fd := f;
            pending := new PendingTemp(path);
            EvolvesOn(start, before, k.fs);
            return None, pending, fd, before;
        }
      }
      k.failed := true;
      return Some(EXHAUSTED), pending, fd, before;
    }

    /** A call that began at `start` holds the draft t. */
    ghost predicate Ready(t: Path, fd: Ino, bytes: Bytes, start: Fs)
      reads this, k
    {
      && Valid() && k.Mine(t)
      && FileSystem.Valid(start) && Evolves(start, k.fs) && Ordered(log, start)
      && StampedName(k.fs, t, start.clock)
      && (k.private ==> Draft(k.fs, t, fd, bytes))
    }

    /** The publication just recorded. */
    ghost predicate Recorded(before: seq<Publish>, path: Path, bytes: Bytes, expected: ExpectedRevision, start: Fs)
      reads this
    {
      && |log| == |before| + 1 && log[..|before|] == before
      && var e := log[|before|];
      && e.path == path && e.bytes == bytes && e.expected == expected && e.start == start
    }

    /** Publish over the file both checks found. */
    method RenameOver(pending: PendingTemp, path: Path, ghost bytes: Bytes, ghost expected: ExpectedRevision,
                      ghost start: Fs, ghost fd: Ino)
      returns (error: Option<RevisionError>)
      requires Ready(pending.path, fd, bytes, start) && pending.active && expected.Present?
      requires Ctime(expected.revision) < start.clock ==> RevisionAt(k.hash, k.fs, path) == Some(expected.revision)
      modifies `log, pending, k`fs, k`failed, k`wrote
      ensures Valid() && Evolves(old(k.fs), k.fs) && (old(k.failed) ==> k.failed)
      ensures error.Some? ==> log == old(log) && pending.active && k.wrote == old(k.wrote)
      ensures error.Some? ==> k.Outside(old(k.fs), k.fs) && error.value.Io?
      ensures error.None? ==> Recorded(old(log), path, bytes, expected, start) && log[|log| - 1].after == k.fs
      ensures error.None? ==> !pending.active && k.wrote == old(k.wrote) + {pending.path, path}
      ensures k.private ==> TempsGrow(k, old(k.fs), k.fs, {path})
      ensures k.private && error.None? && pending.path != path ==> pending.path !in k.fs.names
      ensures k.alone && !k.failed && log != old(log) ==> error.None? && Whole(k.fs, path, bytes)
      ensures k.alone && !k.failed && pending.path in old(k.fs).names && !IsDirectory(old(k.fs), path) ==>
        error.None? && k.fs == Renamed(old(k.fs), pending.path, path)
    {
      ghost var checked := k.fs;
      ghost var before;
      error, before := TryRename(pending.path, path, bytes, fd);
      if error.Some? {
        return;
      }
      pending.KeepAfterRename();
      RenameIsLegit(k, Publish(path, expected, bytes, start, checked, before, k.fs), pending.path, fd);
      EvolvesSelf(k.fs);
      Record(Publish(path, expected, bytes, start, checked, before, k.fs));
    }

    method TryRename(t: Path, path: Path, ghost bytes: Bytes, ghost fd: Ino)
      returns (error: Option<RevisionError>, ghost before: Fs)
      requires Valid() && k.Mine(t) && (k.private ==> Draft(k.fs, t, fd, bytes))
      modifies k`fs, k`failed, k`wrote
      ensures Valid() && Evolves(old(k.fs), k.fs) && (old(k.failed) ==> k.failed)
      ensures FileSystem.Valid(before) && k.Outside(old(k.fs), before)
      ensures error.Some? ==> k.fs == before && error.value.Io? && k.wrote == old(k.wrote)
      ensures error.None? ==>
        t in before.names && k.fs == Renamed(before, t, path) && k.wrote == old(k.wrote) + {t, path}
      ensures k.private ==> TempsGrow(k, old(k.fs), k.fs, {path})
      ensures k.private && error.None? && t != path ==> t !in k.fs.names
      ensures k.private && error.None? ==> Whole(k.fs, path, bytes)
      ensures k.alone && !k.failed && t in old(k.fs).names && !IsDirectory(old(k.fs), path) ==>
        error.None? && k.fs == Renamed(old(k.fs), t, path)
    {
      ghost var checked := k.fs;
      error, before := k.Rename(t, path);
      EvolvesOn(checked, before, k.fs);
      OrderedOn(log, checked, k.fs);
      if k.private {
        RenameTemps(k, checked, before, k.fs, t, path, fd, bytes);
        DraftKept(k, checked, before, t, fd, bytes);
        if error.None? { RenameIsWhole(before, t, path, fd, bytes); }
      }
    }

    /** Publish where both checks found nothing.  The link is atomic and never replaces. */
    method CreateByLink(pending: PendingTemp, path: Path, ghost bytes: Bytes, ghost start: Fs, ghost fd: Ino)
      returns (error: Option<RevisionError>)
      requires Ready(pending.path, fd, bytes, start) && pending.active
      modifies `log, pending, k`fs, k`failed, k`stuck, k`wrote
      ensures Valid() && Evolves(old(k.fs), k.fs) && (old(k.failed) ==> k.failed) && (old(k.stuck) ==> k.stuck)
      ensures log == old(log) || Recorded(old(log), path, bytes, Missing, start)
      ensures log == old(log) ==> k.wrote == old(k.wrote)
      ensures k.wrote <= old(k.wrote) + {pending.path, path}
      ensures error.Some? ==> pending.active
      ensures error.None? ==> log != old(log) && !pending.active && Evolves(log[|log| - 1].after, k.fs)
      ensures k.private ==> TempsGrow(k, old(k.fs), k.fs, {path}) && (error.None? ==> pending.path !in k.fs.names)
      ensures error.Some? && log != old(log) ==> error == Some(UNCLEANED)
      ensures k.alone && !k.failed && log != old(log) ==> error.None? && Whole(k.fs, path, bytes)
      ensures k.alone && !k.failed && path !in old(k.fs).names && pending.path in old(k.fs).names ==>
        error.None? && FileSystem.Valid(Linked(old(k.fs), pending.path, path))
        && k.fs == Unlinked(Linked(old(k.fs), pending.path, path), pending.path)
    {
      ghost var checked := k.fs;
      var linked := LinkDraft(pending.path, path, bytes, start, fd);
      ghost var after := k.fs;
      match linked {
        case LinkFailed(e) =>
          return Some(e);
        case Exists =>
          error := Collision(path);
          EvolvesOn(checked, after, k.fs);
        case Linkage =>
          if k.alone { LinkIsWhole(checked, pending.path, path, fd, bytes); }
          error := RemoveDraft(pending);
          EvolvesOn(checked, after, k.fs);
      }
    }

    /** The publishing call of a creation. */
    method LinkDraft(t: Path, path: Path, ghost bytes: Bytes, ghost start: Fs, ghost fd: Ino) returns (r: Linking)
      requires Ready(t, fd, bytes, start)
      modifies `log, k`fs, k`failed, k`wrote
      ensures Valid() && Evolves(old(k.fs), k.fs) && (old(k.failed) ==> k.failed)
      ensures !r.Linkage? ==> log == old(log) && k.wrote == old(k.wrote)
      ensures r.Linkage? ==> Recorded(old(log), path, bytes, Missing, start) && log[|log| - 1].after == k.fs
      ensures r.Linkage? ==> k.wrote == old(k.wrote) + {path}
      ensures k.private ==> TempsGrow(k, old(k.fs), k.fs, {path})
      ensures k.alone && r.Linkage? ==>
        path !in old(k.fs).names && t in old(k.fs).names && k.fs == Linked(old(k.fs), t, path)
      ensures k.alone && !k.failed && path !in old(k.fs).names && t in old(k.fs).names ==>
        r.Linkage? && k.fs == Linked(old(k.fs), t, path)
    {
      ghost var checked := k.fs;
      ghost var before;
      r, before := k.HardLink(t, path);
      EvolvesOn(checked, before, k.fs);
      OrderedOn(log, checked, k.fs);
      if k.private { OthersAddNoTemps(k, checked, before); }
      if r.Linkage? {
        LinkIsLegit(k, Publish(path, Missing, bytes, start, checked, before, k.fs), t, fd);
        EvolvesSelf(k.fs);
        Record(Publish(path, Missing, bytes, start, checked, before, k.fs));
      }
    }

    /** Something took the name between the check and the link. */
    method Collision(path: Path) returns (error: Option<RevisionError>)
      requires Valid()
      modifies k`fs, k`failed
      ensures Valid() && k.Outside(old(k.fs), k.fs) && (old(k.failed) ==> k.failed)
      ensures k.private ==> TempsGrow(k, old(k.fs), k.fs, {})
      ensures error.Some? && Truthful(k.hash, k.fs, path, error.value, old(k.fs).clock) && Answers(Missing, error.value)
    {
      ghost var start := k.fs;
      error := CollisionError(path);
      OrderedOn(log, start, k.fs);
      if k.private { OthersAddNoTemps(k, start, k.fs); }
    }

    method CollisionError(path: Path) returns (error: Option<RevisionError>)
      requires FileSystem.Valid(k.fs)
      modifies k`fs, k`failed
      ensures FileSystem.Valid(k.fs) && k.Outside(old(k.fs), k.fs) && (old(k.failed) ==> k.failed)
      ensures error.Some? && Truthful(k.hash, k.fs, path, error.value, old(k.fs).clock) && Answers(Missing, error.value)
    {
      ghost var start := k.fs;
      var found := k.Lstat(path);
      if found.Err? {
        return Some(found.error);
      }
      if found.value.None? {
        return Some(Io("write(publish): destination disappeared after collision"));
      }
      ghost var looked := k.fs;
      var e := MissingAppearanceConflict(k, path, found.value.value);
      k.OutsideOn(start, looked, k.fs);
      TruthfulSinceEarlier(k.hash, k.fs, path, e, looked.clock, start.clock);
      return Some(e);
    }

    /** Removing the temporary name leaves the destination as the sole link. */
    method RemoveDraft(pending: PendingTemp) returns (error: Option<RevisionError>)
      requires Valid() && pending.active && k.Mine(pending.path)
      modifies pending, k`fs, k`failed, k`stuck, k`wrote
      ensures Valid() && Evolves(old(k.fs), k.fs) && (old(k.failed) ==> k.failed) && (old(k.stuck) ==> k.stuck)
      ensures error.Some? ==> error == Some(UNCLEANED) && pending.active && k.wrote == old(k.wrote)
      ensures k.private && error.Some? && pending.path in old(k.fs).names ==> k.stuck
      ensures error.None? ==> !pending.active && k.wrote == old(k.wrote) + {pending.path}
      ensures k.private ==>
        TempsGrow(k, old(k.fs), k.fs, {}) && (error.None? || !k.stuck ==> pending.path !in k.fs.names)
      ensures k.alone && !k.failed && pending.path in old(k.fs).names
              && old(k.fs).nodes[old(k.fs).names[pending.path]].kind != Directory ==>
        error.None? && k.fs == Unlinked(old(k.fs), pending.path)
    {
      ghost var start := k.fs;
      var ok, before := k.RemoveFile(pending.path);
      EvolvesOn(start, before, k.fs);
      OrderedOn(log, start, k.fs);
      if k.private {
        OthersAddNoTemps(k, start, before);
        assert pending.path in start.names ==> pending.path in start.names.Keys + before.names.Keys;
      }
      if !ok {
        return Some(UNCLEANED);
      }
      pending.KeepAfterRename();
      return None;
    }

    /** The second check and the publishing call. */
    method PublishDraft(pending: PendingTemp, path: Path, ghost bytes: Bytes, expected: ExpectedRevision,
                        ghost start: Fs, ghost fd: Ino)
      returns (error: Option<RevisionError>)
      requires Ready(pending.path, fd, bytes, start) && pending.active
      modifies `log, pending, k`fs, k`failed, k`stuck, k`wrote
      ensures Valid() && Evolves(old(k.fs), k.fs) && (old(k.failed) ==> k.failed) && (old(k.stuck) ==> k.stuck)
      ensures log == old(log) || Recorded(old(log), path, bytes, expected, start)
      ensures log == old(log) ==> k.wrote == old(k.wrote)
      ensures k.wrote <= old(k.wrote) + {pending.path, path}
      ensures error.Some? ==> pending.active
      ensures error.None? ==> log != old(log) && !pending.active && Evolves(log[|log| - 1].after, k.fs)
      ensures error.Some? && log != old(log) ==> expected.Missing? && error == Some(UNCLEANED)
      ensures k.alone && !k.failed && log != old(log) ==> error.None? && Whole(k.fs, path, bytes)
      ensures k.private ==> TempsGrow(k, old(k.fs), k.fs, {path})
      ensures k.private && error.None? && pending.path != path ==> pending.path !in k.fs.names
      ensures k.alone && !k.failed && pending.path in old(k.fs).names
              && CheckOf(k.hash, old(k.fs), path, expected).None? ==>
        error.None? && k.fs == Published(old(k.fs), pending.path, path, expected)
    {
      ghost var first := k.fs;
      error := SecondCheck(pending.path, path, bytes, expected, start, fd);
      ghost var checked := k.fs;
      if error.None? {
        error := PublishChecked(pending, path, bytes, expected, start, fd);
        EvolvesOn(first, checked, k.fs);
      }
    }

    method SecondCheck(ghost t: Path, path: Path, ghost bytes: Bytes, expected: ExpectedRevision, ghost start: Fs,
                       ghost fd: Ino)
      returns (error: Option<RevisionError>)
      requires Ready(t, fd, bytes, start)
      modifies k`fs, k`failed
      ensures Ready(t, fd, bytes, start) && k.Outside(old(k.fs), k.fs) && (old(k.failed) ==> k.failed)
      ensures error.None? && expected.Present? && Ctime(expected.revision) < start.clock ==>
        RevisionAt(k.hash, k.fs, path) == Some(expected.revision)
      ensures k.private ==> TempsGrow(k, old(k.fs), k.fs, {})
      ensures k.alone && !k.failed ==> error == CheckOf(k.hash, old(k.fs), path, expected)
      ensures k.alone && !k.failed && error.None? ==> Open(k.fs, path, expected)
    {
      ghost var first := k.fs;
      error := ConflictForExisting(k, expected, path);
      CheckedIsOpen(k.hash, first, path, expected);
      OrderedOn(log, first, k.fs);
      EvolvesOn(start, first, k.fs);
      StampedNameKept(first, k.fs, t, start.clock);
      if k.private {
        OthersAddNoTemps(k, first, k.fs);
        DraftKept(k, first, k.fs, t, fd, bytes);
      }
    }

    method PublishChecked(pending: PendingTemp, path: Path, ghost bytes: Bytes, expected: ExpectedRevision,
                          ghost start: Fs, ghost fd: Ino)
      returns (error: Option<RevisionError>)
      requires Ready(pending.path, fd, bytes, start) && pending.active
      requires expected.Present? && Ctime(expected.revision) < start.clock ==>
        RevisionAt(k.hash, k.fs, path) == Some(expected.revision)
      modifies `log, pending, k`fs, k`failed, k`stuck, k`wrote
      ensures Valid() && Evolves(old(k.fs), k.fs) && (old(k.failed) ==> k.failed) && (old(k.stuck) ==> k.stuck)
      ensures log == old(log) || Recorded(old(log), path, bytes, expected, start)
      ensures log == old(log) ==> k.wrote == old(k.wrote)
      ensures k.wrote <= old(k.wrote) + {pending.path, path}
      ensures error.Some? ==> pending.active
      ensures error.None? ==> log != old(log) && !pending.active && Evolves(log[|log| - 1].after, k.fs)
      ensures error.Some? && log != old(log) ==> expected.Missing? && error == Some(UNCLEANED)
      ensures k.alone && !k.failed && log != old(log) ==> error.None? && Whole(k.fs, path, bytes)
      ensures k.private ==> TempsGrow(k, old(k.fs), k.fs, {path})
      ensures k.private && error.None? && pending.path != path ==> pending.path !in k.fs.names
      ensures k.alone && !k.failed && pending.path in old(k.fs).names && Open(old(k.fs), path, expected) ==>
        error.None? && k.fs == Published(old(k.fs), pending.path, path, expected)
    {
      if expected.Present? {
        error := RenameOver(pending, path, bytes, expected, start, fd);
        EvolvesSelf(k.fs);
      } else {
        error := CreateByLink(pending, path, bytes, start, fd);
      }
    }

    /** Ownership and mode, the bytes, a flush. */
    method FillDraft(ghost t: Path, fd: Ino, original: Option<Meta>, bytes: Bytes, ghost start: Fs)
      returns (error: Option<RevisionError>)
      requires Ready(t, fd, [], start) && fd in k.fs.nodes
      modifies k`fs, k`failed
      ensures Valid() && Evolves(old(k.fs), k.fs) && (old(k.failed) ==> k.failed)
      ensures error.None? ==> Ready(t, fd, bytes, start)
      ensures k.alone ==> OnlyNode(old(k.fs), k.fs, fd)
      ensures k.private ==> SameTemps(k, old(k.fs), k.fs)
      ensures error.Some? ==> k.failed
    {
      ghost var first := k.fs;
      error := Fill(k, fd, original, bytes, t);
      OrderedOn(log, first, k.fs);
      EvolvesOn(start, first, k.fs);
      StampedNameKept(first, k.fs, t, start.clock);
    }

    /** The read that names what was published. */
    method VerifyPublished(path: Path, bytes: Bytes)
      returns (r: Result<Revision>, ghost seen: Ino, ghost back: Result<RevisionRead>)
      requires Valid()
      modifies k`fs, k`failed
      ensures Valid() && k.Outside(old(k.fs), k.fs) && (old(k.failed) ==> k.failed)
      ensures k.private ==> TempsGrow(k, old(k.fs), k.fs, {})
      ensures r == Conclude(ReadBack(back), bytes)
      ensures back.Ok? ==> Holds(k.hash, k.fs, seen, back.value)
      ensures back.Ok? && k.fs.nodes[seen].stamp < old(k.fs).clock ==> Binding(k.fs, path) == Some(seen)
      ensures k.alone && !k.failed ==> back == ReadOf(k.hash, old(k.fs), path)
      ensures k.alone && !k.failed && Whole(old(k.fs), path, bytes) && Storable(bytes) ==> r.Ok?
    {
      ghost var first := k.fs;
      var published;
      ghost var atOpen;
      published, seen, atOpen := ReadWithRevision(k, path);
      back := published;
      OrderedOn(log, first, k.fs);
      WholeConcludes(k.hash, first, path, bytes);
      if k.private { OthersAddNoTemps(k, first, k.fs); }
      if published.Err? {
        r := Err(published.error);
      } else if published.value.bytes != bytes {
        r := Err(Conflict(Changed, Some(published.value.revision)));
      } else {
        r := Ok(published.value.revision);
      }
    }

    /** From the new, empty draft to the answer. */
    method FinishDraft(pending: PendingTemp, temp: Ino, original: Option<Meta>, path: Path, bytes: Bytes,
                       expected: ExpectedRevision, ghost start: Fs)
      returns (r: Result<Revision>, ghost seen: Ino, ghost filled: Fs)
      requires Storable(bytes)
      requires Ready(pending.path, temp, [], start) && pending.active && temp in k.fs.nodes
      modifies `log, pending, k`fs, k`failed, k`stuck, k`wrote
      ensures Valid() && Evolves(old(k.fs), k.fs) && (old(k.failed) ==> k.failed) && (old(k.stuck) ==> k.stuck)
      ensures log == old(log) || Recorded(old(log), path, bytes, expected, start)
      ensures log == old(log) ==> k.wrote == old(k.wrote)
      ensures k.wrote <= old(k.wrote) + {pending.path, path}
      ensures r.Ok? ==> log != old(log) && Verified(path, bytes, r.value, seen) && !pending.active
      ensures k.alone && !k.failed && r.Err? ==> log == old(log)
      ensures k.private ==> TempsGrow(k, old(k.fs), k.fs, {path})
      ensures k.private && !pending.active && pending.path != path ==> pending.path !in k.fs.names
      ensures k.alone && !k.failed ==>
        && OnlyNode(old(k.fs), filled, temp) && FileSystem.Valid(filled) && Draft(filled, pending.path, temp, bytes)
        && (CheckOf(k.hash, filled, path, expected).None? ==>
          Answered(k.hash, filled, k.fs, pending.path, path, bytes, expected, r))
    {
      ghost var first := k.fs;
      seen := temp;
      var error := FillDraft(pending.path, temp, original, bytes, start);
      filled := k.fs;
      if k.private { OthersAddNoTemps(k, first, filled); }
      if error.Some? {
        return Err(error.value), seen, filled;
      }
      ghost var ending;
      r, seen, ending := PublishAndVerify(pending, path, bytes, expected, start, temp);
      EvolvesOn(first, filled, k.fs);
    }

    /** Given a publication, the answer is an error if and only if the temporary name of a creation could not be
        removed, or the read-back failed or found other bytes. */
    method PublishAndVerify(pending: PendingTemp, path: Path, bytes: Bytes, expected: ExpectedRevision,
                            ghost start: Fs, ghost fd: Ino)
      returns (r: Result<Revision>, ghost seen: Ino, ghost ending: Ending)
      requires Ready(pending.path, fd, bytes, start) && pending.active
      modifies `log, pending, k`fs, k`failed, k`stuck, k`wrote
      ensures Valid() && Evolves(old(k.fs), k.fs) && (old(k.failed) ==> k.failed) && (old(k.stuck) ==> k.stuck)
      ensures log == old(log) || Recorded(old(log), path, bytes, expected, start)
      ensures log == old(log) ==> k.wrote == old(k.wrote)
      ensures k.wrote <= old(k.wrote) + {pending.path, path}
      ensures r.Ok? ==> log != old(log) && Verified(path, bytes, r.value, seen) && !pending.active
      ensures r == Conclude(ending, bytes) && (ending.Unpublished? <==> log == old(log))
      ensures ending.Uncleaned? ==> expected.Missing? && pending.active
      ensures ending.ReadBack? ==> !pending.active && (ending.back.Ok? ==> Holds(k.hash, k.fs, seen, ending.back.value))
      ensures log != old(log) ==>
        (r.Err? <==> ending.Uncleaned? || ending.back.Err? || ending.back.value.bytes != bytes)
      ensures k.alone && !k.failed && log != old(log) && Storable(bytes) ==> r.Ok?
      ensures k.private ==> TempsGrow(k, old(k.fs), k.fs, {path})
      ensures k.private && !pending.active && pending.path != path ==> pending.path !in k.fs.names
      ensures k.alone && !k.failed && pending.path in old(k.fs).names
              && CheckOf(k.hash, old(k.fs), path, expected).None? ==>
        Answered(k.hash, old(k.fs), k.fs, pending.path, path, bytes, expected, r)
    {
      ghost var first := k.fs;
      seen := fd;
      var error := PublishDraft(pending, path, bytes, expected, start, fd);
      if error.Some? {
        ending := if log == old(log) then Unpublished(error.value) else Uncleaned;
        return Err(error.value), seen, ending;
      }
      ghost var published := k.fs;
      ghost var back;
      r, seen, back := VerifyPublished(path, bytes);
      ending := ReadBack(back);
      EvolvesOn(first, published, k.fs);
    }

    /** The first check, then the metadata to preserve. */
    method FirstCheck(path: Path, expected: ExpectedRevision)
      returns (error: Option<RevisionError>, original: Option<Meta>)
      requires Valid()
      modifies k`fs, k`failed
      ensures Valid() && k.Outside(old(k.fs), k.fs) && (old(k.failed) ==> k.failed)
      ensures k.private ==> TempsGrow(k, old(k.fs), k.fs, {})
      ensures k.alone && !k.failed ==> error == CheckOf(k.hash, old(k.fs), path, expected)
    {
      ghost var start := k.fs;
      original := None;
      error := ConflictForExisting(k, expected, path);
      if error.None? {
        ghost var checked := k.fs;
        var found := k.Lstat(path);
        k.OutsideOn(start, checked, k.fs);
        if found.Err? {
          error := Some(found.error);
        } else {
          original := found.value;
        }
      }
      OrderedOn(log, start, k.fs);
      if k.private { OthersAddNoTemps(k, start, k.fs); }
    }

    /** The empty draft. */
    method BeginDraft(directory: string, ghost start: Fs)
      returns (error: Option<RevisionError>, pending: PendingTemp, temp: Ino)
      requires Valid() && FileSystem.Valid(start) && Evolves(start, k.fs) && Ordered(log, start)
      modifies `nextTemp, k`fs, k`failed, k`wrote
      ensures Valid() && Evolves(old(k.fs), k.fs) && (old(k.failed) ==> k.failed)
      ensures fresh(pending) && pending.active && k.Mine(pending.path)
      ensures error.Some? ==> k.failed && k.wrote == old(k.wrote)
      ensures k.private ==> TempsGrow(k, old(k.fs), k.fs, if error.Some? then {} else {pending.path})
      ensures error.None? ==>
        && Ready(pending.path, temp, [], start) && temp in k.fs.nodes && k.wrote == old(k.wrote) + {pending.path}
        && (k.alone ==> Drafted(old(k.fs), k.fs, pending.path, temp))
    {
      ghost var first := k.fs;
      ghost var before;
      error, pending, temp, before := NewPendingTemp(directory);
      OrderedOn(log, first, k.fs);
      EvolvesOn(start, first, k.fs);
      if k.private { OthersAddNoTemps(k, first, if error.Some? then k.fs else before); }
    }

    /** `conditional_write`. */
    method ConditionalWrite(path: Path, bytes: Bytes, expected: ExpectedRevision)
      returns (r: Result<Revision>, ghost seen: Ino)
      requires Valid()
      modifies this, k`fs, k`failed, k`stuck, k`wrote
      ensures Valid() && Evolves(old(k.fs), k.fs) && (old(k.failed) ==> k.failed) && (old(k.stuck) ==> k.stuck)
      // At most one publication, of this save; every one in the log is Legit.
      ensures log == old(log) || Recorded(old(log), path, bytes, expected, old(k.fs))
      // Success names the published content.
      ensures r.Ok? ==> log != old(log) && Verified(path, bytes, r.value, seen)
      // Undisturbed, an error means that nothing was published.
      ensures k.alone && !k.failed && r.Err? ==> log == old(log)
      // Until it publishes, the call writes nothing but temporary names.
      ensures forall p <- k.wrote :: p in old(k.wrote) || k.Mine(p) || (p == path && log != old(log))
      // It leaves no temporary name behind.
      ensures k.private && !k.stuck ==> TempsGrow(k, old(k.fs), k.fs, {path})
      ensures |bytes| > MAX_READ_BYTES ==> r == Err(TooLarge) && k.fs == old(k.fs)
      ensures |bytes| <= MAX_READ_BYTES && !IsUtf8(bytes) ==> r == Err(UnsupportedEncoding) && k.fs == old(k.fs)
      // Undisturbed, it is an atomic compare-and-swap.
      ensures k.alone && !k.failed && !k.Mine(path) && |bytes| <= MAX_READ_BYTES && IsUtf8(bytes) ==>
        CompareAndSwap(k.hash, old(k.fs), k.fs, path, bytes, expected, r, seen)
    {
      ghost var start := k.fs;
      EvolvesSelf(start);
      seen := Ino(0, 0);
      if |bytes| > MAX_READ_BYTES {
        return Err(TooLarge), seen;
      }
      if !IsUtf8(bytes) {
        return Err(UnsupportedEncoding), seen;
      }
      var error, original := FirstCheck(path, expected);
      if error.Some? {
        return Err(error.value), seen;
      }
      ghost var looked := k.fs;
      ghost var draft;
      r, seen, draft := Save(path, bytes, expected, original, start);
      EvolvesOn(start, looked, k.fs);
    }

    /** After the first check: the draft's whole life. */
    method Save(path: Path, bytes: Bytes, expected: ExpectedRevision, original: Option<Meta>, ghost start: Fs)
      returns (r: Result<Revision>, ghost seen: Ino, ghost draft: Path)
      requires Storable(bytes)
      requires Valid() && FileSystem.Valid(start) && Evolves(start, k.fs) && Ordered(log, start)
      modifies this, k`fs, k`failed, k`stuck, k`wrote
      ensures Valid() && Evolves(old(k.fs), k.fs) && (old(k.failed) ==> k.failed) && (old(k.stuck) ==> k.stuck)
      ensures log == old(log) || Recorded(old(log), path, bytes, expected, start)
      ensures r.Ok? ==> log != old(log) && Verified(path, bytes, r.value, seen)
      ensures k.alone && !k.failed && r.Err? ==> log == old(log)
      ensures k.Mine(draft) && k.wrote <= old(k.wrote) + (if log == old(log) then {draft} else {draft, path})
      ensures k.private && !k.stuck ==> TempsGrow(k, old(k.fs), k.fs, {path})
      ensures k.alone && !k.failed && !k.Mine(path)
              && start == old(k.fs) && CheckOf(k.hash, start, path, expected).None? ==>
        Installed(start, k.fs, path, seen, bytes) && r == Ok(RevisionOf(k.hash, seen, k.fs.nodes[seen]))
    {
      ghost var first := k.fs;
      seen := Ino(0, 0);
      var error, pending, temp := BeginDraft(path.directory, start);
      draft := pending.path;
      if error.Some? {
        return Err(error.value), seen, draft;
      }
      ghost var drafted := k.fs;
      r, seen := FinishAndDrop(pending, temp, original, path, bytes, expected, start);
      EvolvesOn(first, drafted, k.fs);
      if k.private && !k.stuck { TempsDropped(k, first, drafted, k.fs, pending.path, path); }
    }

    method FinishAndDrop(pending: PendingTemp, temp: Ino, original: Option<Meta>, path: Path, bytes: Bytes,
                         expected: ExpectedRevision, ghost start: Fs)
      returns (r: Result<Revision>, ghost seen: Ino)
      requires Storable(bytes)
      requires Ready(pending.path, temp, [], start) && pending.active && temp in k.fs.nodes
      modifies `log, pending, k`fs, k`failed, k`stuck, k`wrote
      ensures Valid() && Evolves(old(k.fs), k.fs) && (old(k.failed) ==> k.failed) && (old(k.stuck) ==> k.stuck)
      ensures log == old(log) || Recorded(old(log), path, bytes, expected, start)
      ensures k.wrote <= old(k.wrote) + (if log == old(log) then {pending.path} else {pending.path, path})
      ensures r.Ok? ==> log != old(log) && Verified(path, bytes, r.value, seen)
      ensures k.alone && !k.failed && r.Err? ==> log == old(log)
      ensures k.private ==> TempsGrow(k, old(k.fs), k.fs, {path})
      ensures k.private && !k.stuck && pending.path != path ==> pending.path !in k.fs.names
      ensures k.alone && !k.failed && Drafted(start, old(k.fs), pending.path, temp) && pending.path != path
              && CheckOf(k.hash, start, path, expected).None? ==>
        Installed(start, k.fs, path, temp, bytes) && r == Ok(RevisionOf(k.hash, temp, k.fs.nodes[temp])) && seen == temp
    {
      ghost var first := k.fs;
      r, seen := AnswerDraft(pending, temp, original, path, bytes, expected, start);
      // PendingTemp's drop.
      if pending.active {
        ghost var last := k.fs;
        var _ := RemoveDraft(pending);
        EvolvesOn(first, last, k.fs);
      }
    }

    method AnswerDraft(pending: PendingTemp, temp: Ino, original: Option<Meta>, path: Path, bytes: Bytes,
                       expected: ExpectedRevision, ghost start: Fs)
      returns (r: Result<Revision>, ghost seen: Ino)
      requires Storable(bytes)
      requires Ready(pending.path, temp, [], start) && pending.active && temp in k.fs.nodes
      modifies `log, pending, k`fs, k`failed, k`stuck, k`wrote
      ensures Valid() && Evolves(old(k.fs), k.fs) && (old(k.failed) ==> k.failed) && (old(k.stuck) ==> k.stuck)
      ensures log == old(log) || Recorded(old(log), path, bytes, expected, start)
      ensures k.wrote <= old(k.wrote) + (if log == old(log) then {pending.path} else {pending.path, path})
      ensures r.Ok? ==> log != old(log) && Verified(path, bytes, r.value, seen) && !pending.active
      ensures k.alone && !k.failed && r.Err? ==> log == old(log)
      ensures k.private ==> TempsGrow(k, old(k.fs), k.fs, {path})
      ensures k.private && !pending.active && pending.path != path ==> pending.path !in k.fs.names
      ensures k.alone && !k.failed && Drafted(start, old(k.fs), pending.path, temp) && pending.path != path
              && CheckOf(k.hash, start, path, expected).None? ==>
        Installed(start, k.fs, path, temp, bytes) && r == Ok(RevisionOf(k.hash, temp, k.fs.nodes[temp])) && seen == temp
    {
      ghost var first := k.fs;
      ghost var filled;
      r, seen, filled := FinishDraft(pending, temp, original, path, bytes, expected, start);
      if k.alone && !k.failed && Drafted(start, first, pending.path, temp) && pending.path != path
        && CheckOf(k.hash, start, path, expected).None? {
        QuietAnswer(k.hash, start, first, filled, k.fs, pending.path, temp, path, bytes, expected, r);
      }
    }

    /** The answer's revision is the whole requested content at the answering instant; and p still names
        it unless it was touched after publication. */
    ghost predicate Verified(path: Path, bytes: Bytes, revision: Revision, seen: Ino)
      reads this, k
    {
      && log != []
      && Holds(k.hash, k.fs, seen, RevisionRead(bytes, revision))
      && (k.fs.nodes[seen].stamp < log[|log| - 1].after.clock ==> Binding(k.fs, path) == Some(seen))
    }

    ghost method Record(e: Publish)
      requires Valid() && Legit(k, e) && Ordered(log, e.start) && Evolves(e.after, k.fs)
      modifies `log
      ensures Valid() && Recorded(old(log), e.path, e.bytes, e.expected, e.start) && log[|log| - 1] == e
    {
      OrderedMore(log, e, k.fs);
      log := log + [e];
    }
  }

  /** A rename, or its failure, leaves no temporary name that was not there, the draft's own aside. */
  lemma RenameTemps(k: Kernel, a: Fs, b: Fs, c: Fs, t: Path, p: Path, fd: Ino, bytes: Bytes)
    requires k.private && k.Mine(t) && Valid(a) && Valid(b) && k.Outside(a, b) && Draft(a, t, fd, bytes)
    requires c == b || (t in b.names && c == Renamed(b, t, p))
    ensures TempsGrow(k, a, c, {p})
    ensures c != b && t != p ==> t !in c.names
    ensures t in b.names && c == Renamed(b, t, p) && t != p ==> t !in c.names
  {
    OthersAddNoTemps(k, a, b);
    DraftKept(k, a, b, t, fd, bytes);
  }

  lemma LinkIsLegit(k: Kernel, e: Publish, t: Path, fd: Ino)
    requires Valid(e.start) && Valid(e.checked) && Valid(e.before)
    requires Evolves(e.start, e.checked) && k.Outside(e.checked, e.before)
    requires t in e.before.names && e.path !in e.before.names && e.after == Linked(e.before, t, e.path)
    requires e.expected.Missing? && StampedName(e.checked, t, e.start.clock)
    requires k.private ==> k.Mine(t) && Draft(e.checked, t, fd, e.bytes)
    ensures Legit(k, e)
  {
    LinkedEvolves(e.before, t, e.path);
    StampedNameKept(e.checked, e.before, t, e.start.clock);
    EvolvesOn(e.start, e.checked, e.before);
    if k.private {
      DraftKept(k, e.checked, e.before, t, fd, e.bytes);
      assert Makes(k, e, t, fd);
    }
  }

  lemma RenameIsLegit(k: Kernel, e: Publish, t: Path, fd: Ino)
    requires Valid(e.start) && Valid(e.checked) && Valid(e.before)
    requires Evolves(e.start, e.checked) && k.Outside(e.checked, e.before)
    requires t in e.before.names && e.after == Renamed(e.before, t, e.path)
    requires e.expected.Present? && StampedName(e.checked, t, e.start.clock)
    requires Ctime(e.expected.revision) < e.start.clock ==>
      RevisionAt(k.hash, e.checked, e.path) == Some(e.expected.revision)
    requires k.private ==> k.Mine(t) && Draft(e.checked, t, fd, e.bytes)
    ensures Legit(k, e)
  {
    RenamedEvolves(e.before, t, e.path);
    StampedNameKept(e.checked, e.before, t, e.start.clock);
    EvolvesOn(e.start, e.checked, e.before);
    if k.private {
      DraftKept(k, e.checked, e.before, t, fd, e.bytes);
      assert Makes(k, e, t, fd);
    }
    RenameBinds(e.before, t, e.path, e.start.clock);
  }

  /** After a rename the path names what the draft's name did, with its content, and freshly stamped
      unless both already named one inode. */
  lemma RenameBinds(a: Fs, t: Path, p: Path, since: int)
    requires Valid(a) && t in a.names && Stamped(a, a.names[t], since)
    ensures var b := Renamed(a, t, p);
      p in b.names && b.names[p] == a.names[t] && Stamped(b, b.names[p], since)
      && b.nodes[b.names[p]].bytes == a.nodes[a.names[t]].bytes
  {
  }
}
