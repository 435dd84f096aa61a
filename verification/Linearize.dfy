/** What the publications of one server amount to: every save that expects a revision replaces exactly that
    revision, and no revision is ever replaced twice. */
module Linearize {
  import opened Common
  import opened FileSystem
  import opened Revisions
  import opened Os
  import opened ReadRevision
  import opened WriteRevision
  import opened ConditionalWrite

  lemma RevisionAtNode(hash: Hasher, fs: Fs, p: Path, r: Revision)
    requires Valid(fs) && RevisionAt(hash, fs, p) == Some(r)
    ensures p in fs.names && fs.names[p] == Ino(r.dev, r.ino) && fs.nodes[fs.names[p]].stamp == Ctime(r) < fs.clock
  {
    RevisionNamesNode(hash, fs.names[p], fs.nodes[fs.names[p]]);
  }

  /** A path that left a revision never has it again. */
  lemma RevisionsNeverRecur(hash: Hasher, a: Fs, b: Fs, c: Fs, p: Path, r: Revision)
    requires Valid(a) && Valid(b) && Valid(c) && Evolves(a, b) && Evolves(b, c)
    requires RevisionAt(hash, a, p) == Some(r) && RevisionAt(hash, c, p) == Some(r)
    ensures RevisionAt(hash, b, p) == Some(r)
  {
    RevisionAtNode(hash, a, p, r);
    RevisionAtNode(hash, c, p, r);
    OldStampMeansUnchanged(b, c, Ino(r.dev, r.ino));
  }

  predicate Undisturbed(a: Fs, b: Fs, p: Path) {
    && Binding(a, p) == Binding(b, p)
    && (p in a.names && a.names[p] in a.nodes ==> a.names[p] in b.nodes && b.nodes[a.names[p]] == a.nodes[a.names[p]])
  }

  /** The token was issued before the call began. */
  predicate Expects(e: Publish, r: Revision) {
    e.expected == Present(r) && Ctime(r) < e.start.clock
  }

  /** A save replaces exactly the revision it expects if and only if nothing touched the path between the
      second check and the publishing call; nothing does when the server's lock serializes all mutators. */
  lemma ReplacesExactlyWhatItExpects(k: Kernel, e: Publish, r: Revision)
    requires Legit(k, e) && Expects(e, r)
    ensures RevisionAt(k.hash, e.before, e.path) == Some(r) <==> Undisturbed(e.checked, e.before, e.path)
    ensures k.alone ==> RevisionAt(k.hash, e.before, e.path) == Some(r)
  {
    RevisionAtNode(k.hash, e.checked, e.path, r);
    if RevisionAt(k.hash, e.before, e.path) == Some(r) {
      RevisionAtNode(k.hash, e.before, e.path, r);
      OldStampMeansUnchanged(e.checked, e.before, Ino(r.dev, r.ino));
    }
  }

  /** After a publication the path has a revision no earlier token names. */
  lemma PublicationRetires(k: Kernel, e: Publish, r: Revision)
    requires Legit(k, e) && Ctime(r) < e.start.clock
    ensures RevisionAt(k.hash, e.after, e.path) != Some(r)
  {
    if RevisionAt(k.hash, e.after, e.path) == Some(r) {
      RevisionAtNode(k.hash, e.after, e.path, r);
    }
  }

  /** Among any number of saves that expect the same revision of a path, at most one replaces it. */
  lemma AtMostOneReplaces(k: Kernel, log: seq<Publish>, fs: Fs, i: nat, j: nat, r: Revision)
    requires (forall e <- log :: Legit(k, e)) && Ordered(log, fs)
    requires i < j < |log| && log[i].path == log[j].path
    requires Expects(log[i], r) && RevisionAt(k.hash, log[i].before, log[i].path) == Some(r)
    ensures RevisionAt(k.hash, log[j].before, log[j].path) != Some(r)
  {
    var a, b := log[i], log[j];
    assert Legit(k, a) && Legit(k, b);
    PublicationRetires(k, a, r);
    EvolvesOn(b.start, b.checked, b.before);
    EvolvesOn(a.after, b.start, b.before);
    if RevisionAt(k.hash, b.before, b.path) == Some(r) {
      RevisionsNeverRecur(k.hash, a.before, a.after, b.before, a.path, r);
    }
  }

  /** Under one lock: among N saves of a path holding the same token, at most one publishes. */
  lemma AtMostOnePublishes(s: Server, i: nat, j: nat, r: Revision)
    requires s.Valid() && s.k.alone && i < j < |s.log| && s.log[i].path == s.log[j].path
    requires Expects(s.log[i], r)
    ensures s.log[j].expected != Present(r)
  {
    var a, b := s.log[i], s.log[j];
    assert Legit(s.k, a) && Legit(s.k, b);
    ReplacesExactlyWhatItExpects(s.k, a, r);
    if b.expected == Present(r) {
      EvolvesOn(a.start, a.checked, a.before);
      EvolvesOn(a.start, a.before, a.after);
      EvolvesOn(a.start, a.after, b.start);
      ReplacesExactlyWhatItExpects(s.k, b, r);
      AtMostOneReplaces(s.k, s.log, s.k.fs, i, j, r);
    }
  }

  /** Every save of a path finds there what the save before it left, or what someone else put there since;
      between two saves nobody interfered with, the second expects the revision of the first. */
  lemma SavesChain(s: Server, i: nat, r: Revision)
    requires s.Valid() && s.k.alone && i + 1 < |s.log| && s.log[i].path == s.log[i + 1].path
    requires Undisturbed(s.log[i].after, s.log[i + 1].before, s.log[i].path)
    requires Expects(s.log[i + 1], r)
    ensures RevisionAt(s.k.hash, s.log[i].after, s.log[i].path) == Some(r)
  {
    assert Legit(s.k, s.log[i]) && Legit(s.k, s.log[i + 1]);
    ReplacesExactlyWhatItExpects(s.k, s.log[i + 1], r);
  }

  /** Outside that lock the guarantee fails: whenever a save is about to rename its draft into place, another
      process can first write whatever it likes, and what it wrote is replaced although nobody expected it. */
  lemma ForeignWriteCanBeLost(k: Kernel, start: Fs, checked: Fs, t: Path, fd: Ino, p: Path, r: Revision, ours: Bytes,
                              theirs: Bytes)
    requires !k.alone && k.Mine(t) && p != t
    requires Valid(start) && Valid(checked) && Evolves(start, checked) && StampedName(checked, t, start.clock)
    requires Draft(checked, t, fd, ours) && RevisionAt(k.hash, checked, p) == Some(r)
    requires forall q <- checked.names | k.Mine(q) :: checked.names[q] != checked.names[p]
    ensures var i := checked.names[p];
      var before := Stamp(checked, i, checked.nodes[i].(bytes := theirs));
      && Valid(before) && t in before.names
      && Legit(k, Publish(p, Present(r), ours, start, checked, before, Renamed(before, t, p)))
      && RevisionAt(k.hash, before, p) != Some(r)
  {
    var i := checked.names[p];
    var node := checked.nodes[i].(bytes := theirs);
    var before := Stamp(checked, i, node);
    StampEvolves(checked, i, node);
    RevisionAtNode(k.hash, checked, p, r);
    if RevisionAt(k.hash, before, p) == Some(r) {
      RevisionAtNode(k.hash, before, p, r);
    }
    RenameIsLegit(k, Publish(p, Present(r), ours, start, checked, before, Renamed(before, t, p)), t, fd);
  }

  /** The second check has passed, on a filled draft, and the log so far is sound. */
  ghost predicate AboutToPublish(k: Kernel, log: seq<Publish>, start: Fs, checked: Fs, t: Path, fd: Ino, p: Path,
                                 expected: ExpectedRevision, ours: Bytes)
  {
    && k.Mine(t) && !k.Mine(p)
    && Valid(start) && Valid(checked) && Evolves(start, checked) && StampedName(checked, t, start.clock)
    && Draft(checked, t, fd, ours)
    && (expected.Missing? ==> p !in checked.names)
    && (expected.Present? && Ctime(expected.revision) < start.clock ==>
          RevisionAt(k.hash, checked, p) == Some(expected.revision))
    && (forall e <- log :: Legit(k, e)) && Ordered(log, start) && Ordered(log, checked)
  }

  /** Once published, the path names the draft's inode. */
  lemma PublishedNames(a: Fs, t: Path, p: Path, fd: Ino, expected: ExpectedRevision, ours: Bytes)
    requires Valid(a) && Draft(a, t, fd, ours) && p != t && (expected.Missing? ==> p !in a.names)
    ensures var after := Published(a, t, p, expected);
      && Valid(after) && Evolves(PublishingCall(a, t, p, expected), after)
      && Binding(after, p) == Some(fd) && Whole(after, p, ours) && t !in after.names
    ensures var called := PublishingCall(a, t, p, expected);
      expected.Missing? ==> t in called.names && Binding(called, p) == Some(fd)
  {
    if expected.Present? {
      RenamedEvolves(a, t, p);
      RenameIsWhole(a, t, p, fd, ours);
      EvolvesSelf(Renamed(a, t, p));
    } else {
      LinkedEvolves(a, t, p);
      LinkIsWhole(a, t, p, fd, ours);
      UnlinkedEvolves(Linked(a, t, p), t);
    }
  }

  /** Someone else writes into the inode that p names. */
  lemma ForeignWrite(k: Kernel, a: Fs, p: Path, fd: Ino, theirs: Bytes)
    requires Valid(a) && Binding(a, p) == Some(fd) && !k.alone && Storable(theirs)
    requires fd in a.nodes && a.nodes[fd].kind == Regular && a.nodes[fd].links == 1
    requires forall q <- a.names | k.Mine(q) :: a.names[q] != fd
    ensures var b := Stamp(a, fd, a.nodes[fd].(bytes := theirs));
      Valid(b) && k.Outside(a, b)
        && ReadOf(k.hash, b, p) == Ok(RevisionRead(theirs, RevisionOf(k.hash, fd, b.nodes[fd])))
  {
    StampEvolves(a, fd, a.nodes[fd].(bytes := theirs));
  }

  /** A save can publish and still answer with an error.  Whenever one is about to publish, the publishing call is
      legitimate and the log grows by it; if someone else then writes other bytes into the file before the read-back,
      the answer is a conflict, and if the temporary name of a creation cannot be removed, the answer is that error. */
  lemma PublishesAndStillErrs(k: Kernel, log: seq<Publish>, start: Fs, checked: Fs, t: Path, fd: Ino, p: Path,
                              expected: ExpectedRevision, ours: Bytes, theirs: Bytes)
    requires AboutToPublish(k, log, start, checked, t, fd, p, expected, ours)
    requires !k.alone && theirs != ours && Storable(theirs)
    ensures var called := PublishingCall(checked, t, p, expected);
      var e := Publish(p, expected, ours, start, checked, checked, called);
      && Legit(k, e) && Ordered(log + [e], called)
      && ErrsAfterForeignWrite(k, log + [e], Published(checked, t, p, expected), p, fd, ours, theirs)
      && (expected.Missing? ==>
            t in called.names && Binding(called, p) == Some(fd) && Conclude(Uncleaned, ours) == Err(UNCLEANED))
  {
    var called := PublishingCall(checked, t, p, expected);
    var e := Publish(p, expected, ours, start, checked, checked, called);
    PublishedNames(checked, t, p, fd, expected, ours);
    CallIsLegit(k, log, start, checked, t, fd, p, expected, ours);
    NoOtherDraft(k, checked, t, p, fd, expected, ours);
    ForeignAfter(k, log + [e], called, Published(checked, t, p, expected), p, fd, ours, theirs);
  }

  /** Someone else can write into the published inode, the log is as sound as before, and reading back finds it. */
  ghost predicate ErrsAfterForeignWrite(k: Kernel, log: seq<Publish>, after: Fs, p: Path, fd: Ino, ours: Bytes,
                                        theirs: Bytes)
  {
    && fd in after.nodes
    && var now := Stamp(after, fd, after.nodes[fd].(bytes := theirs));
    && k.Outside(after, now) && Ordered(log, now)
    && Conclude(ReadBack(ReadOf(k.hash, now, p)), ours)
       == Err(Conflict(Changed, Some(RevisionOf(k.hash, fd, now.nodes[fd]))))
  }

  /** A foreign write after a publication, and what reading back then concludes. */
  lemma ForeignAfter(k: Kernel, log: seq<Publish>, called: Fs, after: Fs, p: Path, fd: Ino, ours: Bytes, theirs: Bytes)
    requires !k.alone && theirs != ours && Storable(theirs)
    requires Valid(called) && Ordered(log, called) && forall e <- log :: Valid(e.after)
    requires Valid(after) && Evolves(called, after) && Binding(after, p) == Some(fd) && Whole(after, p, ours)
    requires forall q <- after.names | k.Mine(q) :: after.names[q] != fd
    ensures ErrsAfterForeignWrite(k, log, after, p, fd, ours, theirs)
  {
    ForeignWrite(k, after, p, fd, theirs);
    OrderedAfter(log, called, after, Stamp(after, fd, after.nodes[fd].(bytes := theirs)));
  }

  lemma OrderedAfter(log: seq<Publish>, a: Fs, b: Fs, c: Fs)
    requires Ordered(log, a) && Valid(a) && Valid(b) && Evolves(a, b) && Evolves(b, c)
    requires forall e <- log :: Valid(e.after)
    ensures Ordered(log, c)
  {
    EvolvesOn(a, b, c);
    OrderedOn(log, a, c);
  }

  lemma CallIsLegit(k: Kernel, log: seq<Publish>, start: Fs, checked: Fs, t: Path, fd: Ino, p: Path,
                    expected: ExpectedRevision, ours: Bytes)
    requires AboutToPublish(k, log, start, checked, t, fd, p, expected, ours)
    ensures var called := PublishingCall(checked, t, p, expected);
      var e := Publish(p, expected, ours, start, checked, checked, called);
      Legit(k, e) && Valid(called) && Ordered(log + [e], called) && forall x <- log + [e] :: Valid(x.after)
  {
    var called := PublishingCall(checked, t, p, expected);
    var e := Publish(p, expected, ours, start, checked, checked, called);
    k.OutsideSelf(checked);
    if expected.Present? { RenameIsLegit(k, e, t, fd); } else { LinkIsLegit(k, e, t, fd); }
    OrderedOn(log, checked, called);
    EvolvesSelf(called);
    OrderedMore(log, e, called);
  }

  lemma NoOtherDraft(k: Kernel, a: Fs, t: Path, p: Path, fd: Ino, expected: ExpectedRevision, ours: Bytes)
    requires Valid(a) && Draft(a, t, fd, ours) && p != t && !k.Mine(p) && (expected.Missing? ==> p !in a.names)
    ensures var after := Published(a, t, p, expected);
      forall q <- after.names | k.Mine(q) :: after.names[q] != fd
  {
  }
}
