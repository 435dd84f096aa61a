/** The server's files and the save system, run together.  A joint step is a foreign change of the files, a conditional
    write serving some client's request, or a step of clients and network; a joint run keeps files and store in
    correspondence and is a run of the system, so that what NoLostUpdate says of the store holds of the files. */
module JointRuns {
  import opened Common
  import opened FileSystem
  import opened Utf8
  import R = Revisions
  import Os
  import opened ReadRevision
  import W = WriteRevision
  import C = ConditionalWrite
  import L = Linearize
  import S = SaveState
  import T = SaveStore
  import opened StoreRefinement

  /** What is on disk, the clients and what they and the network hold, and the names that tie the two. */
  datatype Joint = Joint(fs: Fs, w: T.World, n: Names)

  /** `Foreign` is also what a save does to its draft.  `Save` is a whole conditional write that others leave alone;
      `Publication` the publishing call of one that they need not. */
  datatype Step =
    | Foreign(next: Fs)
    | Save(cid: nat, index: nat, path: Path, bytes: Bytes, expected: R.ExpectedRevision, rev: S.Rev,
           result: Os.Result<R.Revision>, fd: Ino, next: Fs, reason: S.Reason)
    | Publication(cid: nat, index: nat, publish: Os.Publish, rev: S.Rev)
    | Other(event: T.Event)

  /** Client `cid` asks, as its request `index`, to save p over what the token names. */
  predicate Requested(j: Joint, cid: nat, index: nat, p: Path, bytes: Bytes, expected: R.ExpectedRevision, rev: S.Rev)
  {
    p in j.n.file && Expectation(j.n, expected, rev) && Asks(j.w, j.n.file[p], bytes, rev, cid, index)
    && C.Storable(bytes)
  }

  /** The file a read, or the read-back of a save, is answered from is missing or can be read; any other read fails. */
  predicate Readable(k: Os.Kernel, j: Joint, e: T.Event)
    requires T.Enabled(j.w, e)
  {
    e.ServeRead? || e.ReadBack? ==>
      forall p <- j.n.file | Some(j.n.file[p]) == T.CallOf(j.w, e.cid, e.index).request.file ::
        p in j.fs.names ==> ReadOf(k.hash, j.fs, p).Ok?
  }

  /** The conditions of the step lemmas. */
  ghost predicate Ready(k: Os.Kernel, j: Joint, s: Step) {
    match s
    case Foreign(next) => Valid(next) && Evolves(j.fs, next) && LinksTell(next)
    case Save(cid, index, p, bytes, expected, rev, result, fd, next, _) =>
      && Requested(j, cid, index, p, bytes, expected, rev)
      && Valid(next) && Evolves(j.fs, next) && C.CompareAndSwap(k.hash, j.fs, next, p, bytes, expected, result, fd)
    case Publication(cid, index, e, rev) =>
      && Requested(j, cid, index, e.path, e.bytes, e.expected, rev)
      && e.before == j.fs && C.Legit(k, e) && k.private && (forall q <- j.n.file :: !k.Mine(q))
      && (e.expected.Present? ==>
            R.Ctime(e.expected.revision) < e.start.clock && L.Undisturbed(e.checked, e.before, e.path))
    case Other(e) => T.Enabled(j.w, e) && !e.ServeWrite? && !e.Outside? && T.Sane(j.w, e) && Readable(k, j, e)
  }

  ghost function Next(k: Os.Kernel, j: Joint, s: Step): Joint
    requires Ready(k, j, s)
  {
    match s
    case Foreign(next) => var (steps, m) := Caught(k.hash, next, j.w, j.n); Joint(next, After(j.w, steps), m)
    case Save(cid, index, _, _, _, _, result, _, next, reason) =>
      Joint(next, T.Apply(j.w, T.ServeWrite(cid, index, reason)),
            if result.Ok? then StoreRefinement.Renamed(j.n, result.value, j.w.nextId) else j.n)
    case Publication(cid, index, e, _) =>
      Joint(e.after, T.Apply(j.w, T.ServeWrite(cid, index, S.Changed)), PublishedNames(k.hash, e, j.w, j.n))
    case Other(e) => j.(w := T.Apply(j.w, e))
  }

  /** Any files there may be at the start, and no client. */
  ghost predicate Starts(k: Os.Kernel, fs: Fs, file: map<Path, S.FileId>) {
    Valid(fs) && LinksTell(fs) && R.HexDigests(k.hash) && Injective(Names(file, map[]))
  }

  ghost function Start(k: Os.Kernel, fs: Fs, file: map<Path, S.FileId>): Joint {
    var (steps, m) := Caught(k.hash, fs, T.Init(), Names(file, map[])); Joint(fs, After(T.Init(), steps), m)
  }

  /** The joint step relation. */
  ghost function Moves(k: Os.Kernel): (Joint, Step, Joint) -> bool {
    (a: Joint, s: Step, b: Joint) => Ready(k, a, s) && b == Next(k, a, s)
  }

  /** Each state and the next are related by the step between them. */
  ghost predicate Chain(related: (Joint, Step, Joint) -> bool, ss: seq<Step>, js: seq<Joint>) {
    |js| == |ss| + 1 && forall i | 0 <= i < |ss| :: related(js[i], ss[i], js[i + 1])
  }

  lemma ChainOn(related: (Joint, Step, Joint) -> bool, ss: seq<Step>, js: seq<Joint>, s: Step, j: Joint)
    requires Chain(related, ss, js) && related(js[|ss|], s, j)
    ensures Chain(related, ss + [s], js + [j])
  {
  }

  ghost predicate Begins(k: Os.Kernel, j: Joint) {
    exists file :: Starts(k, j.fs, file) && j == Start(k, j.fs, file)
  }

  /** js are the states of a joint run taking the steps ss. */
  ghost predicate Runs(k: Os.Kernel, ss: seq<Step>, js: seq<Joint>) { Chain(Moves(k), ss, js) && Begins(k, js[0]) }

  /** Files and store correspond, and the store is one the system reaches. */
  ghost predicate Tied(k: Os.Kernel, j: Joint) {
    Simulates(k.hash, j.fs, j.w, j.n) && T.SanelyReachable(j.w)
  }

  lemma ServedIsTied(k: Os.Kernel, j: Joint, cid: nat, index: nat, reason: S.Reason, fs: Fs, v: T.World, n: Names)
    requires T.SanelyReachable(j.w) && T.Enabled(j.w, T.ServeWrite(cid, index, reason))
    requires v == T.Apply(j.w, T.ServeWrite(cid, index, reason)) && Simulates(k.hash, fs, v, n)
    ensures Tied(k, Joint(fs, v, n))
  {
    T.SaneStep(j.w, T.ServeWrite(cid, index, reason));
  }

  /** Every joint step keeps files and store tied. */
  lemma StepIsTied(k: Os.Kernel, j: Joint, s: Step)
    requires Tied(k, j) && Ready(k, j, s)
    ensures Tied(k, Next(k, j, s))
  {
    match s {
      case Foreign(next) =>
        ForeignStepRefinesOutside(k.hash, j.fs, next, j.w, j.n);
        AfterIsReachable(j.w, Caught(k.hash, next, j.w, j.n).0);
      case Save(cid, index, p, bytes, e, rev, r, fd, next, reason) =>
        SaveStepSimulates(k.hash, j.fs, next, j.w, j.n, p, bytes, e, rev, r, fd, cid, index, reason);
        ServedIsTied(k, j, cid, index, reason, next, Next(k, j, s).w, Next(k, j, s).n);
      case Publication(cid, index, e, rev) =>
        PublicationSimulates(k, e, j.w, j.n, rev, cid, index);
        ServedIsTied(k, j, cid, index, S.Changed, e.after, Next(k, j, s).w, Next(k, j, s).n);
      case Other(e) =>
        OtherStepSimulates(k.hash, j.fs, j.w, j.n, e);
        T.SaneStep(j.w, e);
    }
  }

  /** At every point of a joint run the store holds what the files hold, and is one that the system reaches without a
      misadopted Restore Base. */
  lemma {:induction false} JointRunsAreRuns(k: Os.Kernel, ss: seq<Step>, js: seq<Joint>, i: nat)
    requires Runs(k, ss, js) && i <= |ss|
    ensures Simulates(k.hash, js[i].fs, js[i].w, js[i].n) && T.SanelyReachable(js[i].w)
  {
    if i == 0 {
      var file :| Starts(k, js[0].fs, file) && js[0] == Start(k, js[0].fs, file);
      StartRefinesInit(k.hash, js[0].fs, file);
    } else {
      JointRunsAreRuns(k, ss, js, i - 1);
      assert Moves(k)(js[i - 1], ss[i - 1], js[i]);
      StepIsTied(k, js[i - 1], ss[i - 1]);
    }
  }

  // ---------------------------------------------------------------------------------------------
  // The code takes joint steps

  /** Foreign changes take no request away and no token's meaning. */
  lemma StillRequested(k: Os.Kernel, j: Joint, next: Fs, cid: nat, index: nat, p: Path, bytes: Bytes,
                       expected: R.ExpectedRevision, rev: S.Rev)
    requires Simulates(k.hash, j.fs, j.w, j.n) && Ready(k, j, Foreign(next))
    requires Requested(j, cid, index, p, bytes, expected, rev)
    ensures Requested(Next(k, j, Foreign(next)), cid, index, p, bytes, expected, rev)
    ensures Next(k, j, Foreign(next)).n.file == j.n.file
  {
    var steps := Caught(k.hash, next, j.w, j.n).0;
    ForeignStepRefinesOutside(k.hash, j.fs, next, j.w, j.n);
    AfterIsReachable(j.w, steps);
    StillAsked(j.w, After(j.w, steps), j.n.file[p], bytes, rev, cid, index);
  }

  lemma StillAsked(w: T.World, v: T.World, file: S.FileId, bytes: Bytes, rev: S.Rev, cid: nat, index: nat)
    requires Asks(w, file, bytes, rev, cid, index) && v.clients == w.clients && v.served == w.served
    ensures Asks(v, file, bytes, rev, cid, index)
  {
  }

  /** A publication is the store's: nobody touched its path since the second check, if it expects a revision. */
  predicate Clean(e: Os.Publish) { e.expected.Missing? || L.Undisturbed(e.checked, e.before, e.path) }

  /** What a save is in a joint run: others act up to its publishing call, and from there on; or, if it published
      nothing or its path was touched, only others act, the save among them. */
  function StepsOf(published: Option<Os.Publish>, now: Fs, cid: nat, index: nat, rev: S.Rev): seq<Step> {
    if published.Some? && Clean(published.value)
    then [Foreign(published.value.before), Publication(cid, index, published.value, rev), Foreign(now)]
    else [Foreign(now)]
  }

  /** Up to and with its publishing call. */
  lemma PublicationMoves(k: Os.Kernel, j: Joint, e: Os.Publish, cid: nat, index: nat, rev: S.Rev)
    returns (a: Joint, b: Joint)
    requires Tied(k, j) && C.Legit(k, e) && k.private && Clean(e) && e.start == j.fs && LinksTell(e.before)
    requires Requested(j, cid, index, e.path, e.bytes, e.expected, rev) && forall q <- j.n.file :: !k.Mine(q)
    ensures Moves(k)(j, Foreign(e.before), a) && Moves(k)(a, Publication(cid, index, e, rev), b)
    ensures b.fs == e.after
  {
    EvolvesOn(e.start, e.checked, e.before);
    StillRequested(k, j, e.before, cid, index, e.path, e.bytes, e.expected, rev);
    a := Next(k, j, Foreign(e.before));
    assert Issued(j.fs, j.w, j.n);
    b := Next(k, a, Publication(cid, index, e, rev));
  }

  lemma SaveMoves(k: Os.Kernel, j: Joint, e: Os.Publish, now: Fs, cid: nat, index: nat, rev: S.Rev)
    returns (a: Joint, b: Joint, c: Joint)
    requires Tied(k, j) && C.Legit(k, e) && k.private && Clean(e) && e.start == j.fs && LinksTell(e.before)
    requires Requested(j, cid, index, e.path, e.bytes, e.expected, rev) && forall q <- j.n.file :: !k.Mine(q)
    requires Valid(now) && Evolves(e.after, now) && LinksTell(now)
    ensures Moves(k)(j, Foreign(e.before), a) && Moves(k)(a, Publication(cid, index, e, rev), b)
    ensures Moves(k)(b, Foreign(now), c) && c.fs == now
  {
    a, b := PublicationMoves(k, j, e, cid, index, rev);
    c := Next(k, b, Foreign(now));
  }

  lemma ThreeOn(related: (Joint, Step, Joint) -> bool, ss: seq<Step>, js: seq<Joint>, x: Step, a: Joint, y: Step,
                b: Joint, z: Step, c: Joint)
    requires Chain(related, ss, js) && related(js[|ss|], x, a) && related(a, y, b) && related(b, z, c)
    ensures Chain(related, ss + [x, y, z], js + [a, b, c])
  {
    ChainOn(related, ss, js, x, a);
    ChainOn(related, ss + [x], js + [a], y, b);
    ChainOn(related, ss + [x] + [y], js + [a] + [b], z, c);
    assert ss + [x] + [y] + [z] == ss + [x, y, z] && js + [a] + [b] + [c] == js + [a, b, c];
  }

  lemma SaveRuns(k: Os.Kernel, ss: seq<Step>, js: seq<Joint>, published: Option<Os.Publish>, now: Fs, cid: nat,
                 index: nat, path: Path, bytes: Bytes, expected: R.ExpectedRevision, rev: S.Rev)
    returns (states: seq<Joint>)
    requires Runs(k, ss, js) && Valid(now) && Evolves(js[|ss|].fs, now) && LinksTell(now)
    requires Requested(js[|ss|], cid, index, path, bytes, expected, rev)
    requires k.private && forall q <- js[|ss|].n.file :: !k.Mine(q)
    requires published.Some? ==>
      LinksTell(published.value.before) && Publishes(k, published.value, js[|ss|].fs, now, path, bytes, expected)
    ensures Runs(k, ss + StepsOf(published, now, cid, index, rev), js + states)
    ensures |states| == |StepsOf(published, now, cid, index, rev)| && states[|states| - 1].fs == now
  {
    var j := js[|ss|];
    JointRunsAreRuns(k, ss, js, |ss|);
    if published.Some? && Clean(published.value) {
      var e := published.value;
      var a, b, c := SaveMoves(k, j, e, now, cid, index, rev);
      ThreeOn(Moves(k), ss, js, Foreign(e.before), a, Publication(cid, index, e, rev), b, Foreign(now), c);
      states := [a, b, c];
    } else {
      states := [Next(k, j, Foreign(now))];
      ChainOn(Moves(k), ss, js, Foreign(now), states[0]);
    }
  }

  /** The publication e of a save that began at `start`; by now the files are `now`. */
  ghost predicate Publishes(k: Os.Kernel, e: Os.Publish, start: Fs, now: Fs, path: Path, bytes: Bytes,
                            expected: R.ExpectedRevision)
  {
    && C.Legit(k, e) && e.start == start && Evolves(e.after, now)
    && e.path == path && e.bytes == bytes && e.expected == expected
  }

  method WriteOnce(server: C.Server, path: Path, bytes: Bytes, expected: R.ExpectedRevision)
    returns (r: Os.Result<R.Revision>, ghost published: Option<Os.Publish>)
    requires server.Valid()
    modifies server, server.k`fs, server.k`failed, server.k`stuck, server.k`wrote
    ensures server.Valid() && Evolves(old(server.k.fs), server.k.fs) && (r.Ok? ==> published.Some?)
    ensures server.log == if published.Some? then old(server.log) + [published.value] else old(server.log)
    ensures published.Some? ==>
      Publishes(server.k, published.value, old(server.k.fs), server.k.fs, path, bytes, expected)
  {
    ghost var before := server.log;
    ghost var seen;
    r, seen := server.ConditionalWrite(path, bytes, expected);
    published := None;
    if server.log != before {
      published := Some(server.log[|before|]);
      assert server.log == before + [published.value] && published.value in server.log;
    }
  }

  /** A call of `conditional_write` that serves a client's request takes joint steps: whatever others do during it, it
      extends every joint run that has come to where it starts, by its publication, if it published with the path left
      alone since the second check, and foreign steps. */
  method ConditionalWriteRunsJointly(server: C.Server, cid: nat, index: nat, path: Path, bytes: Bytes,
      expected: R.ExpectedRevision, ghost rev: S.Rev, ghost ss: seq<Step>, ghost js: seq<Joint>)
    returns (r: Os.Result<R.Revision>, ghost published: Option<Os.Publish>, ghost states: seq<Joint>)
    requires server.Valid() && server.k.private
    requires Runs(server.k, ss, js) && js[|ss|].fs == server.k.fs
    requires Requested(js[|ss|], cid, index, path, bytes, expected, rev)
    requires forall q <- js[|ss|].n.file :: !server.k.Mine(q)
    modifies server, server.k`fs, server.k`failed, server.k`stuck, server.k`wrote
    ensures server.Valid()
    ensures server.log == if published.Some? then old(server.log) + [published.value] else old(server.log)
    ensures r.Ok? ==> published.Some?
    ensures LinksTell(server.k.fs) && (published.Some? ==> LinksTell(published.value.before)) ==>
      && var more := StepsOf(published, server.k.fs, cid, index, rev);
      && Runs(server.k, ss + more, js + states) && |states| == |more| && states[|states| - 1].fs == server.k.fs
  {
    r, published := WriteOnce(server, path, bytes, expected);
    states := [];
    if LinksTell(server.k.fs) && (published.Some? ==> LinksTell(published.value.before)) {
      states := SaveRuns(server.k, ss, js, published, server.k.fs, cid, index, path, bytes, expected, rev);
    }
  }

  // ---------------------------------------------------------------------------------------------
  // No update is lost on the server's files

  /** A step that puts a client's bytes under a path. */
  predicate Writes(s: Step) { s.Publication? || (s.Save? && s.result.Ok?) }

  function PathOf(s: Step): Path
    requires Writes(s)
  {
    if s.Save? then s.path else s.publish.path
  }

  function ExpectedBy(s: Step): R.ExpectedRevision
    requires Writes(s)
  {
    if s.Save? then s.expected else s.publish.expected
  }

  /** The version that serving the request replaces was held. */
  lemma ServedReplacesHeld(w: T.World, cid: nat, index: nat)
    requires T.SanelyReachable(w) && T.Enabled(w, T.ServeWrite(cid, index, S.Changed))
    ensures var q := T.CallOf(w, cid, index).request;
      var s := T.CurrentSnap(w, q.file.value);
      T.Matches(w, q.file.value, q.expected.value) && s.Some? ==> s.value in T.HeldBy(w, cid)
  {
    var e := T.ServeWrite(cid, index, S.Changed);
    var q, v := T.CallOf(w, cid, index).request, T.Apply(w, e);
    T.SaneStep(w, e);
    if T.Matches(w, q.file.value, q.expected.value) {
      var es, ws :| T.Runs(es, ws) && ws[|es|] == v && forall i | 0 <= i < |es| :: T.Sane(ws[i], es[i]);
      T.NoLostUpdate(es, ws, v.log[|w.log|]);
    }
  }

  lemma WriteMatches(k: Os.Kernel, j: Joint, s: Step)
    requires Tied(k, j) && Ready(k, j, s) && Writes(s)
    ensures T.Matches(j.w, j.n.file[PathOf(s)], s.rev)
  {
    match s {
      case Save(_, _, p, bytes, e, rev, r, fd, next, _) =>
        ConditionalWriteRefinesServeWrite(k.hash, j.fs, next, j.w, j.n, p, bytes, e, rev, r, fd);
      case Publication(cid, index, e, rev) => PublicationSimulates(k, e, j.w, j.n, rev, cid, index);
      case _ =>
    }
  }

  /** Whatever others did to the files before: a write of a joint run creates its file, or what the path holds when it
      is replaced, bytes and revision, is a pair that the client whose request it serves had held. */
  lemma ReplacedFileWasHeld(k: Os.Kernel, ss: seq<Step>, js: seq<Joint>, i: nat)
    requires Runs(k, ss, js) && i < |ss| && Writes(ss[i])
    ensures var fs, s, p := js[i].fs, ss[i], PathOf(ss[i]);
      match ExpectedBy(s)
      case Missing => p !in fs.names
      case Present(token) =>
        && ReadOf(k.hash, fs, p).Ok? && ReadOf(k.hash, fs, p).value.revision == token
        && S.Snap(ReadOf(k.hash, fs, p).value.bytes, s.rev) in T.HeldBy(js[i].w, s.cid)
  {
    var j, s := js[i], ss[i];
    JointRunsAreRuns(k, ss, js, i);
    assert Moves(k)(j, s, js[i + 1]);
    WriteMatches(k, j, s);
    MatchesAlike(k.hash, j.fs, j.w, j.n, PathOf(s), ExpectedBy(s), s.rev);
    assert Agrees(k.hash, j.fs, j.w, j.n, PathOf(s));
    ServedReplacesHeld(j.w, s.cid, s.index);
  }

  /** What the server answers after reading the file: a read carries its bytes and revision, and a save is confirmed
      with its revision if and only if the file still holds the bytes saved. */
  predicate Answer(found: RevisionRead, id: nat, e: T.Event, q: S.Request, reply: S.Reply) {
    reply ==
      if e.ServeRead? then S.Got(S.Snap(found.bytes, S.Present(id)))
      else if q.Write? && q.bytes == Some(found.bytes) then S.Wrote(S.Present(id)) else S.Refused(S.Changed)
  }

  lemma StoreAnswers(w: T.World, n: Names, p: Path, read: RevisionRead, e: T.Event)
    requires p in n.file && Serves(w, n, p, read) && (e.ServeRead? || e.ReadBack?) && T.Enabled(w, e)
    requires T.CallOf(w, e.cid, e.index).request.file == Some(n.file[p])
    ensures exists reply ::
      && Answer(read, n.ids[read.revision], e, T.CallOf(w, e.cid, e.index).request, reply)
      && (T.Ticket(e.cid, e.index), reply) in T.Apply(w, e).replies
  {
    var found := S.Snap(read.bytes, S.Present(n.ids[read.revision]));
    var q := T.CallOf(w, e.cid, e.index).request;
    var reply := if e.ServeRead? then S.Got(found) else T.ReadBackReply(Some(found), q.bytes.value);
    assert Answer(read, n.ids[read.revision], e, q, reply);
  }

  predicate Concerns(w: T.World, e: T.Event, file: S.FileId)
    requires e.ServeRead? || e.ReadBack?
  {
    T.Asked(w, e.cid, e.index) && T.CallOf(w, e.cid, e.index).request.file == Some(file)
  }

  /** The reply that e adds to the network. */
  ghost predicate Answers(k: Os.Kernel, j: Joint, e: T.Event, p: Path, replies: set<(T.Ticket, S.Reply)>)
    requires p in j.n.file && (e.ServeRead? || e.ReadBack?) && T.Enabled(j.w, e)
  {
    if p !in j.fs.names then (T.Ticket(e.cid, e.index), S.Broken) in replies
    else
      && ReadOf(k.hash, j.fs, p).Ok? && ReadOf(k.hash, j.fs, p).value.revision in j.n.ids
      && var read := ReadOf(k.hash, j.fs, p).value;
      exists reply ::
        && Answer(read, j.n.ids[read.revision], e, T.CallOf(j.w, e.cid, e.index).request, reply)
        && (T.Ticket(e.cid, e.index), reply) in replies
  }

  lemma AnswerComesFromTheFile(k: Os.Kernel, j: Joint, e: T.Event, p: Path)
    requires Simulates(k.hash, j.fs, j.w, j.n) && p in j.n.file && (e.ServeRead? || e.ReadBack?)
    requires T.Enabled(j.w, e) && Readable(k, j, e) && Concerns(j.w, e, j.n.file[p])
    ensures Answers(k, j, e, p, T.Apply(j.w, e).replies)
  {
    assert Agrees(k.hash, j.fs, j.w, j.n, p);
    if p in j.fs.names {
      StoreAnswers(j.w, j.n, p, ReadOf(k.hash, j.fs, p).value, e);
    }
  }

  /** Every answer that a joint run gives about a file comes from that file. */
  lemma AnswersComeFromTheFile(k: Os.Kernel, ss: seq<Step>, js: seq<Joint>, i: nat, p: Path)
    requires Runs(k, ss, js) && i < |ss| && ss[i].Other? && (ss[i].event.ServeRead? || ss[i].event.ReadBack?)
    requires p in js[i].n.file && Concerns(js[i].w, ss[i].event, js[i].n.file[p])
    ensures Answers(k, js[i], ss[i].event, p, js[i + 1].w.replies)
  {
    JointRunsAreRuns(k, ss, js, i);
    assert Moves(k)(js[i], ss[i], js[i + 1]);
    AnswerComesFromTheFile(k, js[i], ss[i].event, p);
  }
}
