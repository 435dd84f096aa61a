/** The store that SaveStore assumes is the one the server's protocol implements.  A filesystem and a store correspond
    under names for files and revisions (Simulates).  Some reachable store corresponds to any filesystem at the start,
    and every step is matched: what others do to files, and what a save does to its draft, by Outside steps; an
    undisturbed conditional write, and the publishing call of any whose path was left alone since its second check, by
    one ServeWrite; a stable read by one ServeRead.  No step of a client or of the network touches the files. */
module StoreRefinement {
  import opened Common
  import opened FileSystem
  import opened Utf8
  import R = Revisions
  import Os
  import opened ReadRevision
  import W = WriteRevision
  import C = ConditionalWrite
  import L = Linearize
  import S = SaveState
  import T = SaveStore

  // ---------------------------------------------------------------------------------------------
  // Correspondence

  /** The files both sides speak of, and the store's name for each revision issued so far. */
  datatype Names = Names(file: map<Path, S.FileId>, ids: map<R.Revision, nat>)

  predicate Injective(n: Names) {
    && (forall p, q | p in n.file && q in n.file && p != q :: n.file[p] != n.file[q])
    && (forall r, s | r in n.ids && s in n.ids && r != s :: n.ids[r] != n.ids[s])
  }

  /** p holds in fs what the store holds under its name: nothing, one version with its revision, or, if p cannot be
      read, some version that no token names. */
  predicate Agrees(hash: R.Hasher, fs: Fs, w: T.World, n: Names, p: Path)
    requires p in n.file
  {
    if p !in fs.names then n.file[p] !in w.files
    else
      match ReadOf(hash, fs, p)
      case Err(_) => n.file[p] in w.files && w.files[n.file[p]] !in n.ids.Values
      case Ok(read) => Serves(w, n, p, read)
  }

  /** What was read of p is what the store answers for it. */
  predicate Serves(w: T.World, n: Names, p: Path, read: RevisionRead)
    requires p in n.file
  {
    && read.revision in n.ids
    && T.CurrentSnap(w, n.file[p]) == Some(S.Snap(read.bytes, S.Present(n.ids[read.revision])))
  }

  /** A link count of one means one name. */
  predicate LinksTell(fs: Fs) {
    forall p, q | p in fs.names && q in fs.names && p != q && fs.names[p] == fs.names[q] && fs.names[p] in fs.nodes ::
      fs.nodes[fs.names[p]].links != 1
  }

  predicate Issued(fs: Fs, w: T.World, n: Names) {
    forall r <- n.ids :: n.ids[r] < w.nextId && R.Ctime(r) < fs.clock
  }

  /** All but the agreement on single files. */
  ghost predicate Sound(hash: R.Hasher, fs: Fs, w: T.World, n: Names) {
    && Valid(fs) && LinksTell(fs) && R.HexDigests(hash)
    && Injective(n) && T.StoreOk(w) && Issued(fs, w, n)
  }

  ghost predicate Simulates(hash: R.Hasher, fs: Fs, w: T.World, n: Names) {
    Sound(hash, fs, w, n) && forall p <- n.file :: Agrees(hash, fs, w, n, p)
  }

  /** The store's form of an expectation. */
  predicate Expectation(n: Names, e: R.ExpectedRevision, rev: S.Rev) {
    match e
    case Missing => rev == S.Missing
    case Present(r) => r in n.ids && rev == S.Present(n.ids[r])
  }

  /** The two compare alike. */
  lemma MatchesAlike(hash: R.Hasher, fs: Fs, w: T.World, n: Names, p: Path, e: R.ExpectedRevision, rev: S.Rev)
    requires Simulates(hash, fs, w, n) && p in n.file && Expectation(n, e, rev)
    ensures W.Matches(hash, fs, p, e) <==> T.Matches(w, n.file[p], rev)
  {
    assert Agrees(hash, fs, w, n, p);
  }

  /** Only the versions matter. */
  lemma SameStore(hash: R.Hasher, fs: Fs, w: T.World, v: T.World, n: Names)
    requires Simulates(hash, fs, w, n) && v.files == w.files && v.issued == w.issued && v.nextId == w.nextId
    ensures Simulates(hash, fs, v, n)
  {
    forall p <- n.file ensures Agrees(hash, fs, v, n, p) {
      assert Agrees(hash, fs, w, n, p);
    }
  }

  /** A readable path is the only name of its inode. */
  lemma ReadableAlone(hash: R.Hasher, fs: Fs, p: Path, q: Path)
    requires LinksTell(fs) && ReadOf(hash, fs, p).Ok? && p != q && q in fs.names
    ensures fs.names[q] != fs.names[p]
  {
  }

  // ---------------------------------------------------------------------------------------------
  // Foreign steps

  predicate Outsides(steps: seq<T.Event>) { forall i | 0 <= i < |steps| :: steps[i].Outside? }

  function After(w: T.World, steps: seq<T.Event>): T.World
    requires Outsides(steps)
    decreases |steps|
  {
    if steps == [] then w else After(T.Apply(w, steps[0]), steps[1..])
  }

  /** Such steps leave clients, network and log alone, and are steps of the system. */
  lemma {:induction false} AfterIsReachable(w: T.World, steps: seq<T.Event>)
    requires Outsides(steps)
    ensures var v := After(w, steps);
      && v.clients == w.clients && v.held == w.held && v.replies == w.replies && v.log == w.log
      && v.served == w.served
    ensures T.SanelyReachable(w) ==> T.SanelyReachable(After(w, steps))
    decreases |steps|
  {
    if steps != [] {
      if T.SanelyReachable(w) { T.SaneStep(w, steps[0]); }
      AfterIsReachable(T.Apply(w, steps[0]), steps[1..]);
    }
  }

  predicate Extends(n: Names, m: Names) {
    m.file == n.file && forall r <- n.ids :: r in m.ids && m.ids[r] == n.ids[r]
  }

  /** If p can be read, no token names what is there. */
  predicate Unknown(hash: R.Hasher, fs: Fs, n: Names, p: Path) {
    match ReadOf(hash, fs, p) case Ok(read) => read.revision !in n.ids case Err(_) => true
  }

  /** What others do to a file leaves it as the store has it, or gives it a revision never issued. */
  lemma ForeignAgreesOrNew(hash: R.Hasher, a: Fs, b: Fs, w: T.World, n: Names, p: Path)
    requires Simulates(hash, a, w, n) && Valid(b) && Evolves(a, b) && p in n.file
    ensures Agrees(hash, b, w, n, p) || Unknown(hash, b, n, p)
  {
    if ReadOf(hash, b, p).Ok? {
      var i := b.names[p];
      R.RevisionNamesNode(hash, i, b.nodes[i]);
      if b.nodes[i].stamp < a.clock {
        OldStampMeansUnchanged(a, b, i);
        assert Agrees(hash, a, w, n, p) && ReadOf(hash, a, p) == ReadOf(hash, b, p);
      }
    }
  }

  /** What the store is told about p, and the names after that. */
  function Content(hash: R.Hasher, fs: Fs, p: Path): Option<Bytes> {
    if p !in fs.names then None
    else match ReadOf(hash, fs, p) case Ok(read) => Some(read.bytes) case Err(_) => Some([])
  }

  function Told(hash: R.Hasher, fs: Fs, w: T.World, n: Names, p: Path): Names {
    match ReadOf(hash, fs, p) case Ok(read) => Renamed(n, read.revision, w.nextId) case Err(_) => n
  }

  function Renamed(n: Names, r: R.Revision, id: nat): Names { n.(ids := n.ids[r := id]) }

  /** The store after an Outside step. */
  function Set(w: T.World, file: S.FileId, content: Option<Bytes>): T.World {
    if content.Some? then T.Put(w, file, content.value) else w.(files := w.files - {file})
  }

  lemma OutsideSets(w: T.World, file: S.FileId, content: Option<Bytes>)
    ensures T.Apply(w, T.Outside(file, content)) == Set(w, file, content)
  {
  }

  lemma SetIsSound(hash: R.Hasher, fs: Fs, w: T.World, n: Names, file: S.FileId, content: Option<Bytes>)
    requires Sound(hash, fs, w, n)
    ensures Sound(hash, fs, Set(w, file, content), n)
  {
  }

  /** A new revision is named by a new identity. */
  lemma RenamedIsSound(hash: R.Hasher, fs: Fs, w: T.World, n: Names, file: S.FileId, bytes: Bytes, r: R.Revision)
    requires Sound(hash, fs, w, n) && r !in n.ids && R.Ctime(r) < fs.clock
    ensures Sound(hash, fs, T.Put(w, file, bytes), Renamed(n, r, w.nextId)) && Extends(n, Renamed(n, r, w.nextId))
  {
    SetIsSound(hash, fs, w, n, file, Some(bytes));
  }

  lemma ToldIsSound(hash: R.Hasher, fs: Fs, w: T.World, n: Names, p: Path)
    requires Sound(hash, fs, w, n) && p in n.file && Unknown(hash, fs, n, p)
    ensures var v, m := Set(w, n.file[p], Content(hash, fs, p)), Told(hash, fs, w, n, p);
      Sound(hash, fs, v, m) && Extends(n, m)
  {
    SetIsSound(hash, fs, w, n, n.file[p], Content(hash, fs, p));
    var r := ReadOf(hash, fs, p);
    if r.Ok? {
      R.RevisionNamesNode(hash, fs.names[p], fs.nodes[fs.names[p]]);
      RenamedIsSound(hash, fs, w, n, n.file[p], r.value.bytes, r.value.revision);
    }
  }

  lemma ToldAgrees(hash: R.Hasher, fs: Fs, w: T.World, n: Names, p: Path)
    requires Issued(fs, w, n) && p in n.file
    ensures Agrees(hash, fs, Set(w, n.file[p], Content(hash, fs, p)), Told(hash, fs, w, n, p), p)
  {
  }

  /** Another file's agreement does not depend on it. */
  lemma SetKeepsAgreement(hash: R.Hasher, fs: Fs, w: T.World, n: Names, p: Path, content: Option<Bytes>, q: Path)
    requires Injective(n) && T.StoreOk(w) && p in n.file && q in n.file && p != q && Agrees(hash, fs, w, n, q)
    ensures Agrees(hash, fs, Set(w, n.file[p], content), n, q)
  {
  }

  lemma NewNameKeepsAgreement(hash: R.Hasher, fs: Fs, w: T.World, n: Names, r: R.Revision, id: nat, q: Path)
    requires q in n.file && Agrees(hash, fs, w, n, q) && r !in n.ids
      && (n.file[q] in w.files ==> w.files[n.file[q]] != id)
    ensures Agrees(hash, fs, w, Renamed(n, r, id), q)
  {
  }

  lemma ToldKeepsAgreement(hash: R.Hasher, fs: Fs, w: T.World, n: Names, p: Path, q: Path)
    requires Sound(hash, fs, w, n) && p in n.file && q in n.file && p != q && Unknown(hash, fs, n, p)
    requires Agrees(hash, fs, w, n, q)
    ensures var m := Told(hash, fs, w, n, p);
      q in m.file && Agrees(hash, fs, Set(w, n.file[p], Content(hash, fs, p)), m, q)
  {
    var v := Set(w, n.file[p], Content(hash, fs, p));
    SetKeepsAgreement(hash, fs, w, n, p, Content(hash, fs, p), q);
    var r := ReadOf(hash, fs, p);
    if r.Ok? {
      NewNameKeepsAgreement(hash, fs, v, n, r.value.revision, w.nextId, q);
    }
  }

  lemma ToldKeepsUnknown(hash: R.Hasher, fs: Fs, w: T.World, n: Names, p: Path, q: Path)
    requires LinksTell(fs) && p != q && Unknown(hash, fs, n, q)
    ensures Unknown(hash, fs, Told(hash, fs, w, n, p), q)
  {
    if ReadOf(hash, fs, p).Ok? && ReadOf(hash, fs, q).Ok? {
      ReadableAlone(hash, fs, p, q);
      R.RevisionNamesNode(hash, fs.names[p], fs.nodes[fs.names[p]]);
      R.RevisionNamesNode(hash, fs.names[q], fs.nodes[fs.names[q]]);
    }
  }

  /** Every file is either still to be told about, or agrees. */
  ghost predicate Behind(hash: R.Hasher, fs: Fs, w: T.World, n: Names, todo: set<Path>) {
    forall p <- n.file :: if p in todo then Unknown(hash, fs, n, p) else Agrees(hash, fs, w, n, p)
  }

  lemma OneLessBehind(hash: R.Hasher, fs: Fs, w: T.World, n: Names, todo: set<Path>, p: Path)
    requires Sound(hash, fs, w, n) && Behind(hash, fs, w, n, todo) && p in todo && p in n.file
    ensures var v, m := Set(w, n.file[p], Content(hash, fs, p)), Told(hash, fs, w, n, p);
      Sound(hash, fs, v, m) && Extends(n, m) && Behind(hash, fs, v, m, todo - {p})
  {
    var v, m := Set(w, n.file[p], Content(hash, fs, p)), Told(hash, fs, w, n, p);
    ToldIsSound(hash, fs, w, n, p);
    forall q <- m.file ensures if q in todo - {p} then Unknown(hash, fs, m, q) else Agrees(hash, fs, v, m, q) {
      if q == p {
        ToldAgrees(hash, fs, w, n, p);
      } else if q in todo {
        ToldKeepsUnknown(hash, fs, w, n, p, q);
      } else {
        ToldKeepsAgreement(hash, fs, w, n, p, q);
      }
    }
  }

  ghost function Pick(todo: set<Path>): (p: Path)
    requires todo != {}
    ensures p in todo
  {
    var p :| p in todo; p
  }

  /** The store is told about one file after the other. */
  ghost function Catch(hash: R.Hasher, fs: Fs, w: T.World, n: Names, todo: set<Path>): (r: (seq<T.Event>, Names))
    requires todo <= n.file.Keys
    ensures Outsides(r.0)
    decreases |todo|
  {
    if todo == {} then ([], n)
    else
      var p := Pick(todo);
      var content := Content(hash, fs, p);
      var (steps, m) :=
        Catch(hash, fs, Set(w, n.file[p], content), Told(hash, fs, w, n, p), todo - {p});
      ([T.Outside(n.file[p], content)] + steps, m)
  }

  /** About every file it does not agree on. */
  ghost function Caught(hash: R.Hasher, fs: Fs, w: T.World, n: Names): (r: (seq<T.Event>, Names))
    ensures Outsides(r.0)
  {
    Catch(hash, fs, w, n, set p <- n.file | !Agrees(hash, fs, w, n, p))
  }

  lemma {:induction false} CatchUp(hash: R.Hasher, fs: Fs, w: T.World, n: Names, todo: set<Path>)
    requires Sound(hash, fs, w, n) && todo <= n.file.Keys && Behind(hash, fs, w, n, todo)
    ensures var (steps, m) := Catch(hash, fs, w, n, todo); Simulates(hash, fs, After(w, steps), m) && Extends(n, m)
    decreases |todo|
  {
    if todo != {} {
      var p := Pick(todo);
      var content := Content(hash, fs, p);
      OneLessBehind(hash, fs, w, n, todo, p);
      OutsideSets(w, n.file[p], content);
      CatchUp(hash, fs, Set(w, n.file[p], content), Told(hash, fs, w, n, p), todo - {p});
      var steps := Catch(hash, fs, Set(w, n.file[p], content), Told(hash, fs, w, n, p), todo - {p}).0;
      assert ([T.Outside(n.file[p], content)] + steps)[1..] == steps;
    }
  }

  /** Whatever others do to the files, Outside steps of the store match it. */
  lemma ForeignStepRefinesOutside(hash: R.Hasher, a: Fs, b: Fs, w: T.World, n: Names)
    requires Simulates(hash, a, w, n) && Valid(b) && Evolves(a, b) && LinksTell(b)
    ensures var (steps, m) := Caught(hash, b, w, n); Simulates(hash, b, After(w, steps), m) && Extends(n, m)
  {
    forall p <- n.file ensures Agrees(hash, b, w, n, p) || Unknown(hash, b, n, p) {
      ForeignAgreesOrNew(hash, a, b, w, n, p);
    }
    CatchUp(hash, b, w, n, set p <- n.file | !Agrees(hash, b, w, n, p));
  }

  /** Whatever files there are at the start, a reachable store corresponds to them. */
  lemma StartRefinesInit(hash: R.Hasher, fs: Fs, file: map<Path, S.FileId>)
    requires Valid(fs) && LinksTell(fs) && R.HexDigests(hash) && Injective(Names(file, map[]))
    ensures var (steps, m) := Caught(hash, fs, T.Init(), Names(file, map[]));
      Simulates(hash, fs, After(T.Init(), steps), m) && m.file == file && T.SanelyReachable(After(T.Init(), steps))
  {
    var n := Names(file, map[]);
    CatchUp(hash, fs, T.Init(), n, set p <- n.file | !Agrees(hash, fs, T.Init(), n, p));
    T.InitSane();
    AfterIsReachable(T.Init(), Caught(hash, fs, T.Init(), n).0);
  }

  // ---------------------------------------------------------------------------------------------
  // Conditional writes

  /** Any other file is as before. */
  lemma OthersKept(hash: R.Hasher, a: Fs, b: Fs, p: Path, fd: Ino, bytes: Bytes, q: Path)
    requires Valid(a) && LinksTell(a) && q != p && C.Installed(a, b, p, fd, bytes)
    requires p !in a.names || ReadOf(hash, a, p).Ok?
    ensures Binding(b, q) == Binding(a, q) && (q in b.names ==> b.names[q] != fd)
    ensures q in a.names ==> a.names[q] in b.nodes && b.nodes[a.names[q]] == a.nodes[a.names[q]]
  {
    if q in a.names {
      assert a.names[q] in a.names.Values;
      if p in a.names { ReadableAlone(hash, a, p, q); }
    }
  }

  lemma LinksStillTell(hash: R.Hasher, a: Fs, b: Fs, p: Path, fd: Ino, bytes: Bytes)
    requires Valid(a) && LinksTell(a) && C.Installed(a, b, p, fd, bytes)
    requires p !in a.names || ReadOf(hash, a, p).Ok?
    ensures LinksTell(b)
  {
    forall x, y | x in b.names && y in b.names && x != y && b.names[x] == b.names[y] && b.names[x] in b.nodes
      ensures b.nodes[b.names[x]].links != 1
    {
      if x != p { OthersKept(hash, a, b, p, fd, bytes, x); }
      if y != p { OthersKept(hash, a, b, p, fd, bytes, y); }
    }
  }

  /** The new revision's stamp is later than every stamp issued. */
  lemma Freshly(hash: R.Hasher, a: Fs, b: Fs, n: Names, p: Path, fd: Ino, bytes: Bytes)
    requires Valid(a) && Valid(b) && Evolves(a, b) && C.Installed(a, b, p, fd, bytes)
    requires forall r <- n.ids :: R.Ctime(r) < a.clock
    ensures var r := R.RevisionOf(hash, fd, b.nodes[fd]);
      r !in n.ids && a.clock <= R.Ctime(r) < b.clock
  {
    R.RevisionNamesNode(hash, fd, b.nodes[fd]);
    KeptAlways(a, b, p);
    assert Binding(a, p) != Some(fd) by { assert p in a.names ==> a.names[p] in a.names.Values; }
  }

  lemma AgreesElsewhere(hash: R.Hasher, a: Fs, b: Fs, w: T.World, n: Names, file: S.FileId, bytes: Bytes,
                        r: R.Revision, q: Path)
    requires q in n.file && n.file[q] != file && T.StoreOk(w) && r !in n.ids
    requires Binding(b, q) == Binding(a, q) && ReadOf(hash, b, q) == ReadOf(hash, a, q)
    requires Agrees(hash, a, w, n, q)
    ensures Agrees(hash, b, T.Put(w, file, bytes), Renamed(n, r, w.nextId), q)
  {
  }

  /** The saved file, and every other, agrees with the store after its step. */
  lemma AllAgreeAfter(hash: R.Hasher, a: Fs, b: Fs, w: T.World, n: Names, p: Path, fd: Ino, bytes: Bytes, r: R.Revision)
    requires Simulates(hash, a, w, n) && p in n.file && r !in n.ids && (p !in a.names || ReadOf(hash, a, p).Ok?)
    requires C.Installed(a, b, p, fd, bytes) && ReadOf(hash, b, p) == Os.Ok(RevisionRead(bytes, r))
    ensures forall q <- n.file :: Agrees(hash, b, T.Put(w, n.file[p], bytes), Renamed(n, r, w.nextId), q)
  {
    forall q <- n.file ensures Agrees(hash, b, T.Put(w, n.file[p], bytes), Renamed(n, r, w.nextId), q) {
      if q != p {
        OthersKept(hash, a, b, p, fd, bytes, q);
        AgreesElsewhere(hash, a, b, w, n, n.file[p], bytes, r, q);
      }
    }
  }

  lemma SavedSimulates(hash: R.Hasher, a: Fs, b: Fs, w: T.World, n: Names, p: Path, fd: Ino, bytes: Bytes,
      r: R.Revision)
    requires Simulates(hash, a, w, n) && p in n.file && Valid(b) && Evolves(a, b)
    requires p !in a.names || ReadOf(hash, a, p).Ok?
    requires C.Installed(a, b, p, fd, bytes) && C.Storable(bytes) && r == R.RevisionOf(hash, fd, b.nodes[fd])
    ensures r !in n.ids && Simulates(hash, b, T.Put(w, n.file[p], bytes), Renamed(n, r, w.nextId))
  {
    Freshly(hash, a, b, n, p, fd, bytes);
    C.InstalledReads(hash, a, b, p, fd, bytes);
    AllAgreeAfter(hash, a, b, w, n, p, fd, bytes, r);
    LinksStillTell(hash, a, b, p, fd, bytes);
    SoundLater(hash, a, b, w, n);
    RenamedIsSound(hash, b, w, n, n.file[p], bytes, r);
  }

  lemma SoundLater(hash: R.Hasher, a: Fs, b: Fs, w: T.World, n: Names)
    requires Sound(hash, a, w, n) && Valid(b) && LinksTell(b) && a.clock <= b.clock
    ensures Sound(hash, b, w, n)
  {
  }

  /** An undisturbed conditional write refines the store's compare-and-swap: it takes effect exactly when the
      store's does, the path then holds the new version under an identity never issued before, every other
      file is as it was, and a refused one changes nothing. */
  lemma ConditionalWriteRefinesServeWrite(hash: R.Hasher, a: Fs, b: Fs, w: T.World, n: Names, p: Path, bytes: Bytes,
      e: R.ExpectedRevision, rev: S.Rev, r: Os.Result<R.Revision>, fd: Ino)
    requires Simulates(hash, a, w, n) && p in n.file && Expectation(n, e, rev)
    requires Valid(b) && Evolves(a, b) && C.Storable(bytes)
    requires C.CompareAndSwap(hash, a, b, p, bytes, e, r, fd)
    ensures r.Ok? <==> T.Matches(w, n.file[p], rev)
    ensures r.Err? ==> b == a
    ensures r.Ok? ==> r.value !in n.ids
    ensures r.Ok? ==> Simulates(hash, b, T.Put(w, n.file[p], bytes), Renamed(n, r.value, w.nextId))
  {
    W.CheckIsMatches(hash, a, p, e);
    MatchesAlike(hash, a, w, n, p, e, rev);
    if r.Ok? {
      SavedSimulates(hash, a, b, w, n, p, fd, bytes, r.value);
    }
  }

  /** The call that buffer `cid` made as its request `index`, still to be served, asks to save `file`. */
  predicate Asks(w: T.World, file: S.FileId, bytes: Bytes, rev: S.Rev, cid: nat, index: nat) {
    && T.Enabled(w, T.ServeWrite(cid, index, S.Changed))
    && T.CallOf(w, cid, index).request == S.Write(Some(file), Some(bytes), Some(rev))
  }

  /** Serving it puts the new version there, if the file is as expected. */
  lemma ServingPuts(w: T.World, file: S.FileId, bytes: Bytes, rev: S.Rev, cid: nat, index: nat, reason: S.Reason)
    requires Asks(w, file, bytes, rev, cid, index)
    ensures var v := T.Apply(w, T.ServeWrite(cid, index, reason));
      var u := if T.Matches(w, file, rev) then T.Put(w, file, bytes) else w;
      v.files == u.files && v.issued == u.issued && v.nextId == u.nextId
  {
  }

  /** Serving a client's request with an undisturbed conditional write is the system's step. */
  lemma SaveStepSimulates(hash: R.Hasher, a: Fs, b: Fs, w: T.World, n: Names, p: Path, bytes: Bytes,
      e: R.ExpectedRevision, rev: S.Rev, r: Os.Result<R.Revision>, fd: Ino, cid: nat, index: nat, reason: S.Reason)
    requires Simulates(hash, a, w, n) && p in n.file && Expectation(n, e, rev)
    requires Asks(w, n.file[p], bytes, rev, cid, index)
    requires Valid(b) && Evolves(a, b) && C.Storable(bytes)
    requires C.CompareAndSwap(hash, a, b, p, bytes, e, r, fd)
    ensures var v := T.Apply(w, T.ServeWrite(cid, index, reason));
      Simulates(hash, b, v, if r.Ok? then Renamed(n, r.value, w.nextId) else n)
  {
    ConditionalWriteRefinesServeWrite(hash, a, b, w, n, p, bytes, e, rev, r, fd);
    var v := T.Apply(w, T.ServeWrite(cid, index, reason));
    if r.Ok? {
      SameStore(hash, b, T.Put(w, n.file[p], bytes), v, Renamed(n, r.value, w.nextId));
    } else {
      SameStore(hash, a, w, v, n);
    }
  }

  /** Steps of clients and network, and requests refused or answered without writing, concern no file. */
  lemma OtherStepSimulates(hash: R.Hasher, fs: Fs, w: T.World, n: Names, e: T.Event)
    requires Simulates(hash, fs, w, n) && T.Enabled(w, e) && !e.ServeWrite? && !e.Outside?
    ensures Simulates(hash, fs, T.Apply(w, e), n)
  {
    SameStore(hash, fs, w, T.Apply(w, e), n);
  }

  // ---------------------------------------------------------------------------------------------
  // Conditional writes under interference

  /** The draft's name is not one the store knows. */
  function Without(fs: Fs, t: Path): Fs { fs.(names := fs.names - {t}) }

  lemma DraftIsHidden(hash: R.Hasher, fs: Fs, w: T.World, n: Names, t: Path)
    requires Simulates(hash, fs, w, n) && t !in n.file
    ensures Simulates(hash, Without(fs, t), w, n)
  {
    forall q <- n.file ensures Agrees(hash, Without(fs, t), w, n, q) {
      assert Agrees(hash, fs, w, n, q) && ReadOf(hash, Without(fs, t), q) == ReadOf(hash, fs, q);
    }
  }

  lemma HiddenEvolves(a: Fs, b: Fs, t: Path)
    requires Evolves(a, b) && t !in b.names
    ensures Evolves(Without(a, t), b)
  {
    forall q <- Without(a, t).names.Keys + b.names.Keys ensures Kept(Without(a, t), b, q) {
      KeptAlways(a, b, q);
    }
  }

  lemma RenameFacts(a: Fs, t: Path, fd: Ino, p: Path, bytes: Bytes)
    requires Valid(a) && W.Draft(a, t, fd, bytes) && p != t
    ensures var b := FileSystem.Renamed(a, t, p);
      Valid(b) && Evolves(Without(a, t), b) && C.Installed(Without(a, t), b, p, fd, bytes)
  {
    RenamedEvolves(a, t, p);
    C.RenameInstalls(Without(a, t), a, t, fd, p, bytes);
    HiddenEvolves(a, FileSystem.Renamed(a, t, p), t);
  }

  /** A rename over a readable path, or to a free one. */
  lemma RenameSimulates(hash: R.Hasher, a: Fs, w: T.World, n: Names, t: Path, fd: Ino, p: Path, bytes: Bytes)
    requires Simulates(hash, a, w, n) && p in n.file && t !in n.file && W.Draft(a, t, fd, bytes) && C.Storable(bytes)
    requires p !in a.names || ReadOf(hash, a, p).Ok?
    ensures var b := FileSystem.Renamed(a, t, p);
      && p in b.names && b.names[p] == fd && fd in b.nodes && R.RevisionOf(hash, fd, b.nodes[fd]) !in n.ids
      && Simulates(hash, b, T.Put(w, n.file[p], bytes), Renamed(n, R.RevisionOf(hash, fd, b.nodes[fd]), w.nextId))
  {
    var b := FileSystem.Renamed(a, t, p);
    DraftIsHidden(hash, a, w, n, t);
    RenameFacts(a, t, fd, p, bytes);
    SavedSimulates(hash, Without(a, t), b, w, n, p, fd, bytes, R.RevisionOf(hash, fd, b.nodes[fd]));
  }

  /** A link to a free path: until the draft's name is removed the file has two links, and nobody can read it. */
  lemma LinkSimulates(hash: R.Hasher, a: Fs, w: T.World, n: Names, t: Path, fd: Ino, p: Path, bytes: Bytes)
    requires Simulates(hash, a, w, n) && p in n.file && t !in n.file && W.Draft(a, t, fd, bytes) && p !in a.names
    ensures Simulates(hash, Linked(a, t, p), T.Put(w, n.file[p], bytes), n)
  {
    var b := Linked(a, t, p);
    LinkedEvolves(a, t, p);
    SetIsSound(hash, a, w, n, n.file[p], Some(bytes));
    LinkedTells(a, t, fd, p, bytes);
    SoundLater(hash, a, b, T.Put(w, n.file[p], bytes), n);
    forall q <- n.file ensures Agrees(hash, b, T.Put(w, n.file[p], bytes), n, q) {
      if q != p {
        SetKeepsAgreement(hash, a, w, n, p, Some(bytes), q);
        assert ReadOf(hash, b, q) == ReadOf(hash, a, q);
      }
    }
  }

  lemma LinkedTells(a: Fs, t: Path, fd: Ino, p: Path, bytes: Bytes)
    requires Valid(a) && LinksTell(a) && W.Draft(a, t, fd, bytes) && p !in a.names
    ensures LinksTell(Linked(a, t, p))
  {
  }

  /** A rename gives the path a revision that the store then names; after a link nobody can read the file yet. */
  function PublishedNames(hash: R.Hasher, e: Os.Publish, w: T.World, n: Names): Names
    requires e.path in e.after.names && e.after.names[e.path] in e.after.nodes
  {
    var fd := e.after.names[e.path];
    if e.expected.Missing? then n else Renamed(n, R.RevisionOf(hash, fd, e.after.nodes[fd]), w.nextId)
  }

  lemma PublishingCallSimulates(k: Os.Kernel, e: Os.Publish, w: T.World, n: Names, t: Path, fd: Ino)
    requires Simulates(k.hash, e.before, w, n) && e.path in n.file && (forall q <- n.file :: !k.Mine(q))
    requires C.Makes(k, e, t, fd) && C.Storable(e.bytes)
    requires e.path !in e.before.names || (e.expected.Present? && ReadOf(k.hash, e.before, e.path).Ok?)
    ensures e.path in e.after.names && e.after.names[e.path] in e.after.nodes
    ensures var m := PublishedNames(k.hash, e, w, n);
      Extends(n, m) && Simulates(k.hash, e.after, T.Put(w, n.file[e.path], e.bytes), m)
  {
    if e.expected.Present? {
      RenameSimulates(k.hash, e.before, w, n, t, fd, e.path, e.bytes);
    } else {
      LinkSimulates(k.hash, e.before, w, n, t, fd, e.path, e.bytes);
    }
  }

  lemma MatchedIsReadable(hash: R.Hasher, fs: Fs, w: T.World, n: Names, p: Path, rev: S.Rev)
    requires Simulates(hash, fs, w, n) && p in n.file && T.Matches(w, n.file[p], rev)
    requires rev.Present? ==> rev.id in n.ids.Values
    ensures if rev.Missing? then p !in fs.names else ReadOf(hash, fs, p).Ok?
  {
    assert Agrees(hash, fs, w, n, p);
  }

  /** Whatever others do meanwhile, the publishing call of a save is the store's compare-and-swap, at the instant of
      that call, if and only if nothing touched the path between the second check and the call; of a creation it always
      is. */
  lemma PublicationRefinesServeWrite(k: Os.Kernel, e: Os.Publish, w: T.World, n: Names, rev: S.Rev)
    requires C.Legit(k, e) && k.private && Simulates(k.hash, e.before, w, n)
    requires e.path in n.file && (forall q <- n.file :: !k.Mine(q)) && Expectation(n, e.expected, rev)
    requires C.Storable(e.bytes) && (e.expected.Present? ==> R.Ctime(e.expected.revision) < e.start.clock)
    ensures T.Matches(w, n.file[e.path], rev)
       <==> e.expected.Missing? || L.Undisturbed(e.checked, e.before, e.path)
    ensures T.Matches(w, n.file[e.path], rev) ==>
      var m := PublishedNames(k.hash, e, w, n);
      Extends(n, m) && Simulates(k.hash, e.after, T.Put(w, n.file[e.path], e.bytes), m)
  {
    MatchesAlike(k.hash, e.before, w, n, e.path, e.expected, rev);
    if e.expected.Present? { L.ReplacesExactlyWhatItExpects(k, e, e.expected.revision); }
    if T.Matches(w, n.file[e.path], rev) {
      var t, fd :| C.Makes(k, e, t, fd);
      MatchedIsReadable(k.hash, e.before, w, n, e.path, rev);
      PublishingCallSimulates(k, e, w, n, t, fd);
    }
  }

  /** So the publishing call, its path left alone since the second check, is the system's step. */
  lemma PublicationSimulates(k: Os.Kernel, e: Os.Publish, w: T.World, n: Names, rev: S.Rev, cid: nat, index: nat)
    requires C.Legit(k, e) && k.private && Simulates(k.hash, e.before, w, n)
    requires e.path in n.file && (forall q <- n.file :: !k.Mine(q)) && Expectation(n, e.expected, rev)
    requires C.Storable(e.bytes) && (e.expected.Present? ==> R.Ctime(e.expected.revision) < e.start.clock)
    requires e.expected.Missing? || L.Undisturbed(e.checked, e.before, e.path)
    requires Asks(w, n.file[e.path], e.bytes, rev, cid, index)
    ensures T.Matches(w, n.file[e.path], rev)
    ensures Simulates(k.hash, e.after, T.Apply(w, T.ServeWrite(cid, index, S.Changed)), PublishedNames(k.hash, e, w, n))
  {
    PublicationRefinesServeWrite(k, e, w, n, rev);
    var u, v := T.Put(w, n.file[e.path], e.bytes), T.Apply(w, T.ServeWrite(cid, index, S.Changed));
    assert v.files == u.files && v.issued == u.issued && v.nextId == u.nextId by {
      ServingPuts(w, n.file[e.path], e.bytes, rev, cid, index, S.Changed);
    }
    SameStore(k.hash, e.after, u, v, PublishedNames(k.hash, e, w, n));
  }

  // ---------------------------------------------------------------------------------------------
  // Stable reads

  /** A read that ended well is what the store answers for the path, if and only if the path then names the inode
      read. */
  lemma ReadIsServedExactly(hash: R.Hasher, fs: Fs, w: T.World, n: Names, p: Path, fd: Ino, read: RevisionRead)
    requires Simulates(hash, fs, w, n) && p in n.file && Holds(hash, fs, fd, read)
    ensures Serves(w, n, p, read) <==> Binding(fs, p) == Some(fd)
  {
    assert Agrees(hash, fs, w, n, p);
    R.RevisionNamesNode(hash, fd, fs.nodes[fd]);
    if p in fs.names {
      R.RevisionNamesNode(hash, fs.names[p], fs.nodes[fs.names[p]]);
    }
  }

  /** A stable read refines the store's: whatever others do during it is matched by Outside steps, and its answer is
      what the store then answers if and only if the path still names the inode it opened; it does whenever the revision
      is older than the call. */
  method StableReadRefinesServeRead(k: Os.Kernel, p: Path, ghost w: T.World, ghost n: Names)
    returns (r: Os.Result<RevisionRead>, ghost fd: Ino, ghost steps: seq<T.Event>, ghost m: Names)
    requires Simulates(k.hash, k.fs, w, n) && p in n.file
    modifies k`fs, k`failed
    ensures Valid(k.fs) && k.Outside(old(k.fs), k.fs)
    ensures LinksTell(k.fs) ==>
      && Outsides(steps) && Simulates(k.hash, k.fs, After(w, steps), m) && Extends(n, m)
      && (r.Ok? ==> (Serves(After(w, steps), m, p, r.value) <==> Binding(k.fs, p) == Some(fd)))
      && (r.Ok? && R.Ctime(r.value.revision) < old(k.fs).clock ==> Serves(After(w, steps), m, p, r.value))
  {
    ghost var first := k.fs;
    ghost var atOpen;
    r, fd, atOpen := ReadWithRevision(k, p);
    steps, m := [], n;
    if LinksTell(k.fs) {
      ForeignStepRefinesOutside(k.hash, first, k.fs, w, n);
      steps, m := Caught(k.hash, k.fs, w, n).0, Caught(k.hash, k.fs, w, n).1;
      if r.Ok? {
        ReadIsServedExactly(k.hash, k.fs, After(w, steps), m, p, fd, r.value);
        R.RevisionNamesNode(k.hash, fd, k.fs.nodes[fd]);
      }
    }
  }
}
