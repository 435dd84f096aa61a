/** The client's directory cache against the remote directories, over one ordered channel.

    Assumed of the kernel, as inotify has it: a directory under watch reports the path of every entry that changes,
    and its own path when it is removed or moved itself, possibly much later, or an overflow in their stead.  It reports
    nothing when it moves along with a directory above it; the watch goes with the directory, not with the path.  What
    becomes of a reported path is the server's doing (Emitted). */
module DirCache {
  import opened Common

  /** A directory by its components. */
  type Dir = seq<string>

  /** An entry's attributes: those whose change its directory reports, and those that change without it, such as a
      sub-directory's times when something changes inside, or a file's when it is written through another link. */
  datatype Attrs = Attrs(seen: nat, silent: nat)

  type Listing = map<string, Attrs>

  /** What of a listing the cache can be right about. */
  function Seen(l: Listing): map<string, nat> { map n | n in l :: l[n].seen }

  function Parent(p: Dir): Dir
    requires p != []
  {
    p[..|p| - 1]
  }

  function Last(p: Dir): string
    requires p != []
  {
    p[|p| - 1]
  }

  datatype Ev = Changed(dir: Dir, name: string) | SelfChanged(dir: Dir) | Overflow

  predicate Under(d: Dir, prefix: Dir) { prefix <= d }

  /** Which listings `relay--handle-event` drops. */
  predicate Evicts(e: Ev, d: Dir) {
    match e
    case Overflow => true
    case SelfChanged(dir) => Under(d, dir)
    case Changed(dir, name) => d == dir || Under(d, dir + [name])
  }

  // ---------------------------------------------------------------------------------------------
  // The client

  datatype Client = Client(cache: map<Dir, Listing>, epoch: nat)

  function AfterEvent(c: Client, e: Ev): Client {
    Client(map d | d in c.cache && !Evicts(e, d) :: c.cache[d], c.epoch + 1)
  }

  /** A fetch that began under `epoch` answers. */
  function AfterReply(c: Client, d: Dir, epoch: nat, listing: Listing): Client {
    if c.epoch == epoch then c.(cache := c.cache[d := listing]) else c
  }

  class Cache {
    var cache: map<Dir, Listing>
    var epoch: nat

    constructor ()
      ensures State() == Client(map[], 0)
    {
      cache, epoch := map[], 0;
    }

    function State(): Client
      reads this
    {
      Client(cache, epoch)
    }

    /** `relay--dircache-evict-prefix`. */
    method EvictPrefix(prefix: Dir)
      modifies `cache
      ensures cache == map d | d in old(cache) && !Under(d, prefix) :: old(cache)[d]
    {
      var rest := cache.Keys;
      var keys: set<Dir> := {};
      while rest != {}
        invariant rest <= cache.Keys && cache == old(cache)
        invariant forall d <- cache.Keys :: d in keys <==> d !in rest && Under(d, prefix)
        decreases |rest|
      {
        var d :| d in rest;
        rest := rest - {d};
        if d == prefix || prefix <= d {
          keys := keys + {d};
        }
      }
      cache := cache - keys;
    }

    /** `relay--handle-event`. */
    method HandleEvent(e: Ev)
      modifies this
      ensures State() == AfterEvent(old(State()), e)
    {
      epoch := epoch + 1;
      match e {
        case Overflow =>
          cache := map[];
        case SelfChanged(dir) =>
          EvictPrefix(dir);
        case Changed(dir, name) =>
          cache := cache - {dir};
          EvictPrefix(dir + [name]);
      }
    }

    /** The callback of a fetch, `relay--listing`'s and `relay--listing-rewarm-async`'s alike. */
    method Install(d: Dir, began: nat, listing: Listing)
      modifies `cache
      ensures State() == AfterReply(old(State()), d, began, listing)
    {
      if began == epoch {
        cache := cache[d := listing];
      }
    }
  }

  // ---------------------------------------------------------------------------------------------
  // The watcher

  /** What the kernel reports: a path, or that reports were lost. */
  datatype Notice = Touch(path: Dir) | Lost

  /** The closure that `main` gives the watcher: a path that is itself watched is reported as that directory's own
      change, and nothing is said of the directory it is an entry of. */
  function Emitted(watched: set<Dir>, n: Notice): Ev {
    match n
    case Lost => Overflow
    case Touch(p) => if p == [] || p in watched then SelfChanged(p) else Changed(Parent(p), Last(p))
  }

  /** The directory is told of a change of its entry if and only if that entry is not watched itself. */
  lemma EntryIsToldExactly(watched: set<Dir>, d: Dir, name: string)
    ensures Evicts(Emitted(watched, Touch(d + [name])), d) <==> d + [name] !in watched
  {
    assert Parent(d + [name]) == d;
  }

  /** Whatever is watched, everything at or below a reported path is evicted. */
  lemma BelowIsTold(watched: set<Dir>, p: Dir, d: Dir)
    requires Under(d, p)
    ensures Evicts(Emitted(watched, Touch(p)), d)
  {
    if p != [] { assert Parent(p) + [Last(p)] == p; }
  }

  // ---------------------------------------------------------------------------------------------
  // The system

  datatype Phase = Queued | Enumerating(clean: bool) | Sent

  /** A readdir under way, and the epoch its fetch began under.  `covered` is the ideal: its directory has been under a
      live watch since before it was issued, and no change of it came through an entry itself watched at the report, nor
      by a move that nobody reported. */
  datatype Job = Job(dir: Dir, epoch: nat, covered: bool, phase: Phase)

  datatype Msg = Event(e: Ev) | Reply(job: nat, listing: Listing) | Refused(job: nat)

  /** `watched` is the server's table; `live` the paths whose present directory the kernel watches.  `notices` are
      reports the watcher has not yet seen; `from` the readdir each cached listing came from, and `covered` those of
      which the same holds as of a covered job. */
  datatype World = World(dirs: map<Dir, Listing>, watched: set<Dir>, live: set<Dir>, notices: seq<Notice>,
                         wire: seq<Msg>, jobs: map<nat, Job>, nextJob: nat, client: Client, from: map<Dir, nat>,
                         covered: set<Dir>)

  type Updates = map<Dir, Option<Listing>>

  /** In a change of the files some directories vanish or get other entries, `paths` are reported, and `back` are those
      watched ones that were away and are moved back. */
  datatype Step =
    | Change(updates: Updates, paths: seq<Dir>, back: set<Dir>)
    | Overflowing(kept: nat)
    | Report
    | Issue(dir: Dir)
    | StartRead(job: nat)
    | EndRead(job: nat, listing: Listing)
    | Receive
    | Watch(dir: Dir)
    | Unwatch(dir: Dir)
    | Evict(dir: Dir)

  /** Every directory but the root is an entry of another. */
  predicate Tree(dirs: map<Dir, Listing>) {
    forall d <- dirs | d != [] :: Parent(d) in dirs && Last(d) in dirs[Parent(d)]
  }

  predicate Exists(w: World, p: Dir) {
    p in w.dirs || (p != [] && Parent(p) in w.dirs && Last(p) in w.dirs[Parent(p)])
  }

  predicate SameEntry(a: Listing, b: Listing, name: string) {
    name in a && name in b && a[name].seen == b[name].seen
  }

  predicate Vanishes(updates: Updates, d: Dir) { d in updates && updates[d].None? }

  /** A directory that vanishes takes its entry with it. */
  predicate EntriesGo(dirs: map<Dir, Listing>, updates: Updates) {
    forall d <- updates | Vanishes(updates, d) && d in dirs && d != [] && !Vanishes(updates, Parent(d)) ::
      Parent(d) in updates && Last(d) !in updates[Parent(d)].value
  }

  /** What a live watch of d reports. */
  predicate Reported(w: World, updates: Updates, paths: seq<Dir>, d: Dir) {
    if Vanishes(updates, d) then d in paths || (d != [] && Vanishes(updates, Parent(d)))
    else d in updates && d in w.dirs ==>
      forall n <- w.dirs[d].Keys + updates[d].value.Keys ::
        SameEntry(w.dirs[d], updates[d].value, n) || d + [n] in paths
  }

  predicate Enabled(w: World, s: Step) {
    match s
    case Change(updates, paths, back) =>
      && Tree(Updated(w.dirs, updates)) && EntriesGo(w.dirs, updates) && !Vanishes(updates, []) && [] !in paths
      && (forall d <- w.live :: Reported(w, updates, paths, d))
      && forall d <- back :: d in w.watched && d !in w.dirs && d in updates && !Vanishes(updates, d)
    case Overflowing(kept) => kept <= |w.notices|
    case Report => w.notices != []
    case StartRead(j) => j in w.jobs && w.jobs[j].phase.Queued?
    case EndRead(j, listing) =>
      && j in w.jobs && w.jobs[j].phase.Enumerating?
      && (w.jobs[j].phase.clean ==> w.jobs[j].dir in w.dirs && Seen(listing) == Seen(w.dirs[w.jobs[j].dir]))
    case Receive => w.wire != []
    case _ => true
  }

  function Updated(dirs: map<Dir, Listing>, updates: Updates): map<Dir, Listing> {
    map d | d in dirs.Keys + updates.Keys && !Vanishes(updates, d) :: if d in updates then updates[d].value else dirs[d]
  }

  /** The change is one that a listing can show. */
  predicate Alters(dirs: map<Dir, Listing>, updates: Updates, d: Dir) {
    d in updates && !(d in dirs && updates[d].Some? && Seen(updates[d].value) == Seen(dirs[d]))
  }

  function Torn(j: Job, dirs: map<Dir, Listing>, updates: Updates): Job {
    if Alters(dirs, updates, j.dir) && j.phase.Enumerating? then j.(phase := Enumerating(false)) else j
  }

  /** From now on these directories' listings are not covered. */
  function Uncovered(w: World, ds: set<Dir>): World {
    w.(covered := w.covered - ds,
       jobs := map j | j in w.jobs :: if w.jobs[j].dir in ds then w.jobs[j].(covered := false) else w.jobs[j])
  }

  /** Those that vanish although neither they nor a directory above them is reported. */
  function Unheard(updates: Updates, paths: seq<Dir>): set<Dir> {
    set d | d in updates && Vanishes(updates, d) && !(exists p <- paths :: Under(d, p))
  }

  function Touches(paths: seq<Dir>): seq<Notice> { seq(|paths|, i requires 0 <= i < |paths| => Touch(paths[i])) }

  function Changing(w: World, updates: Updates, paths: seq<Dir>, back: set<Dir>): World {
    Uncovered(
      w.(dirs := Updated(w.dirs, updates), live := (set d | d in w.live && !Vanishes(updates, d)) + back,
         notices := w.notices + Touches(paths), jobs := map j | j in w.jobs :: Torn(w.jobs[j], w.dirs, updates)),
      Unheard(updates, paths))
  }

  /** The closure looks its report up in the table as it is by now. */
  function Reporting(w: World, n: Notice): World {
    var v := w.(wire := w.wire + [Event(Emitted(w.watched, n))]);
    if n.Touch? && n.path != [] && n.path in w.watched then Uncovered(v, {Parent(n.path)}) else v
  }

  function Next(w: World, s: Step): World
    requires Enabled(w, s)
  {
    match s
    case Change(updates, paths, back) => Changing(w, updates, paths, back)
    case Overflowing(kept) => w.(notices := w.notices[..kept] + [Lost])
    case Report => Reporting(w.(notices := w.notices[1..]), w.notices[0])
    case Issue(d) =>
      w.(jobs := w.jobs[w.nextJob := Job(d, w.client.epoch, d in w.live, Queued)], nextJob := w.nextJob + 1)
    case StartRead(j) =>
      if w.jobs[j].dir in w.dirs then w.(jobs := w.jobs[j := w.jobs[j].(phase := Enumerating(true))])
      else w.(jobs := w.jobs[j := w.jobs[j].(phase := Sent)], wire := w.wire + [Refused(j)])
    case EndRead(j, listing) =>
      w.(jobs := w.jobs[j := w.jobs[j].(phase := Sent)], wire := w.wire + [Reply(j, listing)])
    case Receive => Received(w.(wire := w.wire[1..]), w.wire[0])
    // A directory in the table is not watched again; a path that names nothing cannot be.
    case Watch(d) =>
      if d in w.watched || !Exists(w, d) then w
      else w.(watched := w.watched + {d}, live := if d in w.dirs then w.live + {d} else w.live)
    case Unwatch(d) => Uncovered(w.(watched := w.watched - {d}, live := w.live - {d}), {d})
    case Evict(d) => w.(client := w.client.(cache := w.client.cache - {d}))
  }

  function Received(w: World, m: Msg): World {
    match m
    case Event(e) => w.(client := AfterEvent(w.client, e))
    case Refused(j) => w.(jobs := w.jobs - {j})
    case Reply(j, listing) =>
      if j !in w.jobs then w
      else if w.client.epoch != w.jobs[j].epoch then w.(jobs := w.jobs - {j})
      else
        var d := w.jobs[j].dir;
        w.(client := AfterReply(w.client, d, w.jobs[j].epoch, listing), jobs := w.jobs - {j}, from := w.from[d := j],
           covered := if w.jobs[j].covered then w.covered + {d} else w.covered - {d})
  }

  // ---------------------------------------------------------------------------------------------
  // Coherence

  /** Unless the path it is reported for is watched itself, the notice will evict d. */
  predicate Heralds(n: Notice, d: Dir) {
    n.Lost? || Under(d, n.path) || (n.path != [] && d == Parent(n.path))
  }

  /** Some event on its way will evict d. */
  predicate InFlight(w: World, d: Dir) {
    (exists n <- w.notices :: Heralds(n, d)) || (exists m <- w.wire :: m.Event? && Evicts(m.e, d))
  }

  /** d is under a live watch and as listed, or some event on its way will evict it. */
  predicate True(w: World, d: Dir, listing: Listing) {
    InFlight(w, d) || (d in w.live && d in w.dirs && Seen(listing) == Seen(w.dirs[d]))
  }

  /** Whether a job can still install its listing, as one that is covered. */
  predicate Lives(w: World, j: nat) {
    j in w.jobs && w.jobs[j].covered && w.jobs[j].epoch == w.client.epoch
  }

  ghost predicate CacheTrue(w: World) {
    forall d <- w.client.cache | d in w.covered :: True(w, d, w.client.cache[d])
  }

  ghost predicate RepliesTrue(w: World) {
    forall m <- w.wire | m.Reply? && Lives(w, m.job) :: True(w, w.jobs[m.job].dir, m.listing)
  }

  /** A readdir not answered yet will read what is there, if it is not torn. */
  predicate Promising(w: World, job: Job) {
    job.phase.Sent? || InFlight(w, job.dir) || (job.phase != Enumerating(false) && job.dir in w.live)
  }

  ghost predicate JobsTrue(w: World) {
    forall j <- w.jobs | Lives(w, j) :: Promising(w, w.jobs[j])
  }

  ghost predicate Numbered(w: World) {
    && (forall j <- w.jobs :: j < w.nextJob && w.jobs[j].epoch <= w.client.epoch)
    && (forall m <- w.wire | m.Reply? :: m.job < w.nextJob)
    && (forall d <- w.from :: w.from[d] < w.nextJob)
  }

  ghost predicate Coherent(w: World) {
    && Tree(w.dirs) && w.live <= w.dirs.Keys && w.live <= w.watched
    && Numbered(w) && CacheTrue(w) && RepliesTrue(w) && JobsTrue(w)
  }

  const START := World(map[], {}, {}, [], [], map[], 0, Client(map[], 0), map[], {})

  lemma ReceiveFlight(w: World, d: Dir)
    requires w.wire != [] && InFlight(w, d)
    ensures InFlight(w.(wire := w.wire[1..]), d) || (w.wire[0].Event? && Evicts(w.wire[0].e, d))
  {
    if !(exists n <- w.notices :: Heralds(n, d)) {
      var m :| m in w.wire && m.Event? && Evicts(m.e, d);
      assert m == w.wire[0] || m in w.wire[1..];
    }
  }

  lemma SameSeen(a: Listing, b: Listing)
    requires forall n <- a.Keys + b.Keys :: SameEntry(a, b, n)
    ensures Seen(a) == Seen(b)
  {
    forall n <- a.Keys + b.Keys ensures n in Seen(a) && n in Seen(b) && Seen(a)[n] == Seen(b)[n] {
      assert SameEntry(a, b, n);
    }
  }

  lemma TouchesHerald(paths: seq<Dir>, p: Dir, d: Dir)
    requires p in paths && Heralds(Touch(p), d)
    ensures exists n <- Touches(paths) :: Heralds(n, d)
  {
    var i :| 0 <= i < |paths| && paths[i] == p;
    assert Touches(paths)[i] in Touches(paths);
  }

  lemma StillInFlight(w: World, v: World, d: Dir)
    requires InFlight(w, d) && (forall n <- w.notices :: n in v.notices) && (forall m <- w.wire :: m in v.wire)
    ensures InFlight(v, d)
  {
  }

  /** A live directory that changes visibly is heralded, or vanishes along with another. */
  lemma AlteredIsHeralded(w: World, updates: Updates, paths: seq<Dir>, back: set<Dir>, d: Dir)
    requires Enabled(w, Change(updates, paths, back)) && d in w.live && d in w.dirs && Alters(w.dirs, updates, d)
    ensures d in Unheard(updates, paths) || InFlight(Changing(w, updates, paths, back), d)
  {
    var v := Changing(w, updates, paths, back);
    if d !in Unheard(updates, paths) {
      var p: Dir;
      if Vanishes(updates, d) {
        p :| p in paths && Under(d, p);
      } else {
        if forall n <- w.dirs[d].Keys + updates[d].value.Keys :: SameEntry(w.dirs[d], updates[d].value, n) {
          SameSeen(w.dirs[d], updates[d].value);
          assert false;
        }
        var n :| n in w.dirs[d].Keys + updates[d].value.Keys && !SameEntry(w.dirs[d], updates[d].value, n);
        p := d + [n];
        assert Reported(w, updates, paths, d) && Parent(p) == d;
      }
      TouchesHerald(paths, p, d);
      var h :| h in Touches(paths) && Heralds(h, d);
      assert h in v.notices;
    }
  }

  lemma ChangeKeepsTrue(w: World, updates: Updates, paths: seq<Dir>, back: set<Dir>, d: Dir, listing: Listing)
    requires Enabled(w, Change(updates, paths, back)) && d !in Unheard(updates, paths) && w.live <= w.dirs.Keys
    ensures var v := Changing(w, updates, paths, back);
      && (True(w, d, listing) ==> True(v, d, listing))
      && (d in w.live ==> InFlight(v, d) || (d in v.live && !Alters(w.dirs, updates, d)))
      && (InFlight(w, d) ==> InFlight(v, d))
  {
    var v := Changing(w, updates, paths, back);
    if InFlight(w, d) { StillInFlight(w, v, d); }
    if d in w.live && Alters(w.dirs, updates, d) { AlteredIsHeralded(w, updates, paths, back, d); }
  }

  lemma ChangeKeepsPromises(w: World, updates: Updates, paths: seq<Dir>, back: set<Dir>)
    requires Coherent(w) && Enabled(w, Change(updates, paths, back))
    ensures RepliesTrue(Changing(w, updates, paths, back)) && JobsTrue(Changing(w, updates, paths, back))
  {
    var v := Changing(w, updates, paths, back);
    forall m <- v.wire | m.Reply? && Lives(v, m.job) ensures True(v, v.jobs[m.job].dir, m.listing) {
      assert Lives(w, m.job);
      ChangeKeepsTrue(w, updates, paths, back, w.jobs[m.job].dir, m.listing);
    }
    forall j <- v.jobs | Lives(v, j) ensures Promising(v, v.jobs[j]) {
      assert Lives(w, j) && Promising(w, w.jobs[j]);
      ChangeKeepsTrue(w, updates, paths, back, w.jobs[j].dir, map[]);
    }
  }

  lemma ChangeKeeps(w: World, updates: Updates, paths: seq<Dir>, back: set<Dir>)
    requires Coherent(w) && Enabled(w, Change(updates, paths, back))
    ensures Coherent(Next(w, Change(updates, paths, back)))
  {
    var v := Next(w, Change(updates, paths, back));
    ChangeKeepsPromises(w, updates, paths, back);
    forall d <- v.client.cache | d in v.covered ensures True(v, d, v.client.cache[d]) {
      ChangeKeepsTrue(w, updates, paths, back, d, w.client.cache[d]);
    }
  }

  lemma OverflowKeeps(w: World, kept: nat)
    requires Coherent(w) && kept <= |w.notices|
    ensures Coherent(Next(w, Overflowing(kept)))
  {
    var v := Next(w, Overflowing(kept));
    assert Lost in v.notices && forall d :: Heralds(Lost, d);
  }

  /** A report evicts whatever it heralds, but for the directory that a watched path is an entry of. */
  lemma ReportFlight(w: World, d: Dir)
    requires w.notices != [] && InFlight(w, d)
    ensures InFlight(Next(w, Report), d)
      || (w.notices[0].Touch? && w.notices[0].path in w.watched && w.notices[0].path != []
          && d == Parent(w.notices[0].path))
  {
    var v := Next(w, Report);
    var e := Emitted(w.watched, w.notices[0]);
    assert Event(e) in v.wire;
    if n :| n in w.notices && Heralds(n, d) {
      if n != w.notices[0] {
        assert n in v.notices;
      } else if n.Touch? && Under(d, n.path) {
        BelowIsTold(w.watched, n.path, d);
      }
    } else {
      var m :| m in w.wire && m.Event? && Evicts(m.e, d);
      assert m in v.wire;
    }
  }

  lemma ReportKeeps(w: World)
    requires Coherent(w) && w.notices != []
    ensures Coherent(Next(w, Report))
  {
    var v := Next(w, Report);
    forall d <- v.client.cache | d in v.covered ensures True(v, d, v.client.cache[d]) {
      if InFlight(w, d) { ReportFlight(w, d); }
    }
    forall m <- v.wire | m.Reply? && Lives(v, m.job) ensures True(v, v.jobs[m.job].dir, m.listing) {
      assert m in w.wire && Lives(w, m.job);
      if InFlight(w, w.jobs[m.job].dir) { ReportFlight(w, w.jobs[m.job].dir); }
    }
    forall j <- v.jobs | Lives(v, j) ensures Promising(v, v.jobs[j]) {
      assert Lives(w, j) && Promising(w, w.jobs[j]);
      if InFlight(w, w.jobs[j].dir) { ReportFlight(w, w.jobs[j].dir); }
    }
  }

  lemma ReadKeeps(w: World, s: Step)
    requires Coherent(w) && Enabled(w, s) && (s.StartRead? || s.EndRead?)
    ensures Coherent(Next(w, s))
  {
    var v := Next(w, s);
    forall d | InFlight(w, d) ensures InFlight(v, d) {
      StillInFlight(w, v, d);
    }
    forall m <- v.wire | m.Reply? && Lives(v, m.job) ensures True(v, v.jobs[m.job].dir, m.listing) {
      assert Lives(w, m.job) && Promising(w, w.jobs[m.job]);
      if m in w.wire { assert True(w, w.jobs[m.job].dir, m.listing); }
    }
    forall j <- v.jobs | Lives(v, j) ensures Promising(v, v.jobs[j]) {
      assert Lives(w, j) && Promising(w, w.jobs[j]);
    }
  }

  lemma EventKeeps(w: World)
    requires Coherent(w) && w.wire != [] && w.wire[0].Event?
    ensures Coherent(Next(w, Receive))
  {
    var v := Next(w, Receive);
    forall j | j in v.jobs ensures !Lives(v, j) {
      assert w.jobs[j].epoch <= w.client.epoch;
    }
    forall d <- v.client.cache | d in v.covered ensures True(v, d, v.client.cache[d]) {
      assert True(w, d, w.client.cache[d]);
      if InFlight(w, d) { ReceiveFlight(w, d); }
    }
  }

  lemma ReplyKeeps(w: World)
    requires Coherent(w) && w.wire != [] && !w.wire[0].Event?
    ensures Coherent(Next(w, Receive))
  {
    var v := Next(w, Receive);
    forall d | InFlight(w, d) ensures InFlight(v, d) {
      ReceiveFlight(w, d);
    }
    forall m <- v.wire | m.Reply? && Lives(v, m.job) ensures True(v, v.jobs[m.job].dir, m.listing) {
      assert m in w.wire && Lives(w, m.job);
    }
    forall j <- v.jobs | Lives(v, j) ensures Promising(v, v.jobs[j]) {
      assert Lives(w, j) && Promising(w, w.jobs[j]);
    }
    forall d <- v.client.cache | d in v.covered ensures True(v, d, v.client.cache[d]) {
      if d in w.client.cache && d in w.covered && v.client.cache[d] == w.client.cache[d] {
        assert True(w, d, w.client.cache[d]);
      } else {
        assert Lives(w, w.wire[0].job) && w.wire[0] in w.wire;
      }
    }
  }

  lemma UnwatchKeeps(w: World, dir: Dir)
    requires Coherent(w)
    ensures Coherent(Next(w, Unwatch(dir)))
  {
    var v := Next(w, Unwatch(dir));
    forall d <- v.client.cache | d in v.covered ensures True(v, d, v.client.cache[d]) {
      assert True(w, d, w.client.cache[d]);
    }
    forall m <- v.wire | m.Reply? && Lives(v, m.job) ensures True(v, v.jobs[m.job].dir, m.listing) {
      assert Lives(w, m.job);
    }
    forall j <- v.jobs | Lives(v, j) ensures Promising(v, v.jobs[j]) {
      assert Lives(w, j) && Promising(w, w.jobs[j]);
    }
  }

  lemma OtherKeeps(w: World, s: Step)
    requires Coherent(w) && (s.Issue? || s.Watch? || s.Evict?)
    ensures Coherent(Next(w, s))
  {
    var v := Next(w, s);
    forall d <- v.client.cache | d in v.covered ensures True(v, d, v.client.cache[d]) {
      assert True(w, d, w.client.cache[d]);
    }
    forall m <- v.wire | m.Reply? && Lives(v, m.job) ensures True(v, v.jobs[m.job].dir, m.listing) {
      assert m.job in w.jobs && Lives(w, m.job);
    }
    forall j <- v.jobs | Lives(v, j) ensures Promising(v, v.jobs[j]) {
      if j in w.jobs { assert Lives(w, j) && Promising(w, w.jobs[j]); }
    }
  }

  lemma StepKeepsCoherent(w: World, s: Step)
    requires Coherent(w) && Enabled(w, s)
    ensures Coherent(Next(w, s))
  {
    match s
    case Change(updates, paths, back) => ChangeKeeps(w, updates, paths, back);
    case Overflowing(kept) => OverflowKeeps(w, kept);
    case Report => ReportKeeps(w);
    case StartRead(_) => ReadKeeps(w, s);
    case EndRead(_, _) => ReadKeeps(w, s);
    case Receive => if w.wire[0].Event? { EventKeeps(w); } else { ReplyKeeps(w); }
    case Unwatch(d) => UnwatchKeeps(w, d);
    case _ => OtherKeeps(w, s);
  }

  ghost predicate Runs(steps: seq<Step>, w: World, v: World)
    decreases |steps|
  {
    if steps == [] then v == w else Enabled(w, steps[0]) && Runs(steps[1..], Next(w, steps[0]), v)
  }

  lemma {:induction false} RunKeepsCoherent(steps: seq<Step>, w: World, v: World)
    requires Coherent(w) && Runs(steps, w, v)
    ensures Coherent(v)
    decreases |steps|
  {
    if steps != [] {
      StepKeepsCoherent(w, steps[0]);
      RunKeepsCoherent(steps[1..], Next(w, steps[0]), v);
    }
  }

  predicate Quiet(w: World) { w.notices == [] && forall m <- w.wire :: !m.Event? }

  /** The cached listing of d is what the remote directory holds, as far as that is ever reported. */
  predicate Right(w: World, d: Dir)
    requires d in w.client.cache
  {
    d in w.dirs && Seen(w.client.cache[d]) == Seen(w.dirs[d])
  }

  /** Whenever no event is on its way, every covered listing is right, even if the enumeration it came from was torn. */
  lemma CacheIsCoherent(steps: seq<Step>, w: World, d: Dir)
    requires Runs(steps, START, w) && Quiet(w) && d in w.client.cache && d in w.covered
    ensures Right(w, d)
  {
    assert Coherent(START);
    RunKeepsCoherent(steps, START, w);
    assert True(w, d, w.client.cache[d]);
  }

  // ---------------------------------------------------------------------------------------------
  // Runs in which the cache is wrong

  lemma RunsFrom(s: Step, steps: seq<Step>, w: World, v: World)
    requires Enabled(w, s) && Runs(steps, Next(w, s), v)
    ensures Runs([s] + steps, w, v)
  {
    assert ([s] + steps)[1..] == steps;
  }

  lemma {:induction false} RunsAppend(a: seq<Step>, b: seq<Step>, u: World, v: World, w: World)
    requires Runs(a, u, v) && Runs(b, v, w)
    ensures Runs(a + b, u, w)
    decreases |a|
  {
    if a == [] {
      assert a + b == b;
    } else {
      RunsAppend(a[1..], b, Next(u, a[0]), v, w);
      RunsFrom(a[0], a[1..] + b, u, w);
      assert [a[0]] + (a[1..] + b) == a + b;
    }
  }

  lemma RunsOn(steps: seq<Step>, u: World, v: World, s: Step)
    requires Runs(steps, u, v) && Enabled(v, s)
    ensures Runs(steps + [s], u, Next(v, s))
  {
    assert [s][1..] == [] && Runs([], Next(v, s), Next(v, s)) && Runs([s], v, Next(v, s));
    RunsAppend(steps, [s], u, v, Next(v, s));
  }

  /** The listing of d that is cached came from readdir j. */
  predicate Shows(w: World, d: Dir, j: nat) { d in w.client.cache && d in w.from && w.from[d] == j }

  /** No directory gets watched but those in `may`, and none is given up. */
  predicate Within(steps: seq<Step>, may: set<Dir>) {
    forall s <- steps :: !s.Unwatch? && (s.Watch? ==> s.dir in may)
  }

  /** v is w but for what the client holds. */
  predicate SameRemote(w: World, v: World) {
    v.dirs == w.dirs && v.watched == w.watched && v.live == w.live && v.notices == w.notices && v.wire == w.wire
  }

  /** An undisturbed fetch, from the reply back to the request. */
  lemma ReplyInstalls(w: World, d: Dir, j: nat, listing: Listing)
    requires w.wire == [Reply(j, listing)] && j in w.jobs && w.jobs[j].dir == d && w.jobs[j].epoch == w.client.epoch
    ensures var v := Next(w, Receive);
      && v.dirs == w.dirs && v.watched == w.watched && v.live == w.live && v.notices == w.notices && v.wire == []
      && Shows(v, d, j) && v.client.cache[d] == listing
    ensures Runs([Receive], w, Next(w, Receive))
  {
    assert Runs([], Next(w, Receive), Next(w, Receive));
    RunsFrom(Receive, [], w, Next(w, Receive));
    assert [Receive] + [] == [Receive];
  }

  lemma ReadInstalls(w: World, d: Dir, j: nat) returns (steps: seq<Step>, v: World)
    requires w.wire == [] && d in w.dirs && j in w.jobs
    requires w.jobs[j].dir == d && w.jobs[j].epoch == w.client.epoch && w.jobs[j].phase == Enumerating(true)
    ensures Runs(steps, w, v) && Within(steps, {})
    ensures SameRemote(w, v) && Shows(v, d, j) && Right(v, d)
  {
    var end := EndRead(j, w.dirs[d]);
    var u := Next(w, end);
    ReplyInstalls(u, d, j, w.dirs[d]);
    v := Next(u, Receive);
    RunsFrom(end, [Receive], w, v);
    steps := [end] + [Receive];
  }

  lemma FetchInstalls(w: World, d: Dir) returns (steps: seq<Step>, v: World)
    requires Coherent(w) && w.wire == [] && d in w.dirs
    ensures Runs(steps, Next(w, Issue(d)), v) && Within(steps, {}) && Coherent(v)
    ensures SameRemote(w, v) && Shows(v, d, w.nextJob) && Right(v, d)
  {
    var j := w.nextJob;
    var u := Next(w, Issue(d));
    var rest;
    rest, v := ReadInstalls(Next(u, StartRead(j)), d, j);
    RunsFrom(StartRead(j), rest, u, v);
    steps := [StartRead(j)] + rest;
    StepKeepsCoherent(w, Issue(d));
    RunKeepsCoherent(steps, u, v);
  }

  /** An entry is made or changed. */
  function Bumped(l: Listing, name: string): Listing {
    l[name := Attrs(if name in l then l[name].seen + 1 else 0, 0)]
  }

  lemma BumpedDiffers(l: Listing, name: string)
    ensures Seen(Bumped(l, name)) != Seen(l)
  {
    if name in l { assert Seen(Bumped(l, name))[name] != Seen(l)[name]; } else { assert name !in Seen(l); }
  }

  lemma OneUpdated(dirs: map<Dir, Listing>, d: Dir, now: Listing)
    requires d in dirs
    ensures Updated(dirs, map[d := Some(now)]) == dirs[d := now]
  {
    assert forall x :: !Vanishes(map[d := Some(now)], x);
  }

  lemma TreeGrows(dirs: map<Dir, Listing>, d: Dir, now: Listing)
    requires Tree(dirs) && d in dirs && dirs[d].Keys <= now.Keys
    ensures Tree(dirs[d := now])
  {
    var after := dirs[d := now];
    forall x <- after | x != [] ensures Parent(x) in after && Last(x) in after[Parent(x)] {
      assert Parent(x) in dirs && Last(x) in dirs[Parent(x)];
    }
  }

  /** A directory's entries can always change, and a live watch reports it. */
  lemma EntriesCanChange(w: World, d: Dir, now: Listing, paths: seq<Dir>)
    requires Tree(w.dirs) && d in w.dirs && w.dirs[d].Keys <= now.Keys && [] !in paths
    requires d in w.live ==> forall n <- now :: SameEntry(w.dirs[d], now, n) || d + [n] in paths
    ensures Enabled(w, Change(map[d := Some(now)], paths, {}))
  {
    var updates := map[d := Some(now)];
    OneUpdated(w.dirs, d, now);
    TreeGrows(w.dirs, d, now);
    assert forall x :: !Vanishes(updates, x);
    forall x <- w.live ensures Reported(w, updates, paths, x) {
    }
  }

  lemma BumpIsEnabled(w: World, d: Dir, name: string, paths: seq<Dir>)
    requires Tree(w.dirs) && d in w.dirs && [] !in paths && (d in w.live ==> d + [name] in paths)
    ensures Enabled(w, Change(map[d := Some(Bumped(w.dirs[d], name))], paths, {}))
  {
    EntriesCanChange(w, d, Bumped(w.dirs[d], name), paths);
  }

  /** What happens to an unwatched directory after it was read is never reported. */
  lemma UnwatchedGap(w: World, d: Dir, name: string) returns (s: Step, v: World)
    requires Coherent(w) && Quiet(w) && d in w.client.cache && Right(w, d) && d !in w.live
    ensures Enabled(w, s) && v == Next(w, s) && Within([s], {})
    ensures Coherent(v) && Quiet(v) && v.client == w.client && v.from == w.from && v.watched == w.watched && d in v.dirs
    ensures !Right(v, d)
  {
    s := Change(map[d := Some(Bumped(w.dirs[d], name))], [], {});
    BumpIsEnabled(w, d, name, []);
    BumpedDiffers(w.dirs[d], name);
    v := Next(w, s);
    StepKeepsCoherent(w, s);
  }

  /** The first listing of a directory asks for its watch only after the read: whatever changes in between is
      never reported, and the stale listing stays cached with a live watch in place and nothing on its way. */
  lemma FirstListingGap(w: World, d: Dir, name: string) returns (steps: seq<Step>, v: World)
    requires Coherent(w) && Quiet(w) && w.wire == [] && d in w.dirs && d !in w.watched
    ensures Runs(steps, Next(w, Issue(d)), v) && Within(steps, {d})
    ensures Quiet(v) && d in v.live && Shows(v, d, w.nextJob) && !Right(v, d)
  {
    var fetched, change, changed;
    steps, fetched := FetchInstalls(w, d);
    change, changed := UnwatchedGap(fetched, d, name);
    v := Next(changed, Watch(d));
    RunsOn(steps, Next(w, Issue(d)), fetched, change);
    RunsOn(steps + [change], Next(w, Issue(d)), changed, Watch(d));
    steps := steps + [change] + [Watch(d)];
  }

  /** A watched path that changed is reported and received. */
  lemma ReportArrives(w: World, c: Dir) returns (steps: seq<Step>, v: World)
    requires w.notices == [Touch(c)] && w.wire == [] && c in w.watched
    ensures Runs(steps, w, v) && Within(steps, {}) && Quiet(v)
    ensures v.dirs == w.dirs && v.live == w.live && v.client == AfterEvent(w.client, SelfChanged(c)) && v.from == w.from
  {
    var u := Next(w, Report);
    assert u.wire == [Event(SelfChanged(c))] && u.client == w.client;
    v := Next(u, Receive);
    assert Runs([], w, w);
    RunsOn([], w, w, Report);
    RunsOn([] + [Report], w, u, Receive);
    steps := [] + [Report] + [Receive];
  }

  /** A path that exists can get watched at any time. */
  lemma GetsWatched(w: World, c: Dir) returns (steps: seq<Step>, v: World)
    requires Exists(w, c)
    ensures Runs(steps, w, v) && Within(steps, if c in w.watched then {} else {c}) && c in v.watched
    ensures v.dirs == w.dirs && w.live <= v.live && v.notices == w.notices && v.wire == w.wire
    ensures v.client == w.client && v.from == w.from
  {
    steps, v := [], w;
    assert Runs([], w, w);
    if c !in w.watched {
      v := Next(w, Watch(c));
      RunsOn([], w, w, Watch(c));
      steps := [] + [Watch(c)];
    }
  }

  lemma WatchedIsReported(w: World, c: Dir) returns (steps: seq<Step>, v: World)
    requires w.notices == [Touch(c)] && w.wire == [] && Exists(w, c)
    ensures Runs(steps, w, v) && Within(steps, if c in w.watched then {} else {c}) && Quiet(v)
    ensures v.dirs == w.dirs && w.live <= v.live && v.client == AfterEvent(w.client, SelfChanged(c)) && v.from == w.from
  {
    var watch, watching := GetsWatched(w, c);
    var report;
    report, v := ReportArrives(watching, c);
    RunsAppend(watch, report, w, watching, v);
    steps := watch + report;
  }

  /** An entry of d is made or changes, and is reported. */
  lemma EntryChanges(w: World, d: Dir, name: string) returns (s: Step, v: World)
    requires Coherent(w) && Quiet(w) && w.wire == [] && d in w.client.cache && Right(w, d)
    ensures Enabled(w, s) && v == Next(w, s) && s.Change?
    ensures v.notices == [Touch(d + [name])] && v.wire == [] && v.watched == w.watched && w.live <= v.live
    ensures v.client == w.client && v.from == w.from && d in v.dirs && !Right(v, d) && Exists(v, d + [name])
  {
    var c, now := d + [name], Bumped(w.dirs[d], name);
    assert Parent(c) == d && Last(c) == name;
    BumpIsEnabled(w, d, name, [c]);
    BumpedDiffers(w.dirs[d], name);
    OneUpdated(w.dirs, d, now);
    s := Change(map[d := Some(now)], [c], {});
    v := Next(w, s);
    assert Touches([c]) == [Touch(c)];
  }

  /** The entry through which d changes is watched itself by the time of the report: the report evicts that entry's own
      listing only, and d's stays, out of date. */
  lemma WatchedEntryMisleads(w: World, d: Dir, name: string) returns (steps: seq<Step>, v: World)
    requires Coherent(w) && Quiet(w) && w.wire == [] && d in w.client.cache && Right(w, d)
    ensures Runs(steps, w, v) && Within(steps, if d + [name] in w.watched then {} else {d + [name]})
    ensures Quiet(v) && d in v.client.cache && v.client.cache[d] == w.client.cache[d] && v.from == w.from
    ensures w.live <= v.live && !Right(v, d)
  {
    var change, changed := EntryChanges(w, d, name);
    var rest;
    rest, v := WatchedIsReported(changed, d + [name]);
    RunsFrom(change, rest, w, v);
    steps := [change] + rest;
  }

  /** What goes when a moves away from the tree. */
  function MovedAway(dirs: map<Dir, Listing>, a: Dir): Updates
    requires a != []
  {
    map x | x in dirs && (Under(x, a) || x == Parent(a)) ::
      if x == Parent(a) then Some(dirs[x] - {Last(a)}) else None
  }

  lemma MovedTree(dirs: map<Dir, Listing>, a: Dir)
    requires Tree(dirs) && a in dirs && a != []
    ensures var after := Updated(dirs, MovedAway(dirs, a));
      Tree(after) && forall x | Under(x, a) :: x !in after
  {
    var after := Updated(dirs, MovedAway(dirs, a));
    forall x <- after | x != [] ensures Parent(x) in after && Last(x) in after[Parent(x)] {
      assert x in dirs && !Under(x, a) && Parent(x) in dirs;
      assert !Under(Parent(x), a);
      if Parent(x) == Parent(a) && Last(x) == Last(a) {
        Rejoined(x);
        Rejoined(a);
      }
    }
  }

  lemma BelowGoesAlong(dirs: map<Dir, Listing>, a: Dir, x: Dir)
    requires Tree(dirs) && a in dirs && a != [] && Under(x, a) && x in dirs
    ensures Parent(x) in dirs && (x == a || Vanishes(MovedAway(dirs, a), Parent(x)))
  {
    if x != a { assert Under(Parent(x), a); }
  }

  /** Below what is moved nothing is reported. */
  lemma MovedIsSilent(w: World, a: Dir, x: Dir)
    requires Tree(w.dirs) && a in w.dirs && a != [] && a !in w.live && Parent(a) !in w.live && x in w.live
    ensures Reported(w, MovedAway(w.dirs, a), [], x)
  {
    if Under(x, a) && x in w.dirs { BelowGoesAlong(w.dirs, a, x); }
  }

  lemma MovedEntriesGo(dirs: map<Dir, Listing>, a: Dir)
    requires Tree(dirs) && a in dirs && a != []
    ensures EntriesGo(dirs, MovedAway(dirs, a)) && !Vanishes(MovedAway(dirs, a), [])
  {
    var updates := MovedAway(dirs, a);
    forall x <- updates | Vanishes(updates, x) && x in dirs && x != [] && !Vanishes(updates, Parent(x))
      ensures Parent(x) in updates && Last(x) !in updates[Parent(x)].value
    {
      BelowGoesAlong(dirs, a, x);
    }
  }

  lemma MoveIsEnabled(w: World, a: Dir)
    requires Tree(w.dirs) && a in w.dirs && a != [] && a !in w.live && Parent(a) !in w.live
    ensures Enabled(w, Change(MovedAway(w.dirs, a), [], {}))
  {
    var updates := MovedAway(w.dirs, a);
    MovedTree(w.dirs, a);
    forall x <- w.live ensures Reported(w, updates, [], x) {
      MovedIsSilent(w, a, x);
    }
    MovedEntriesGo(w.dirs, a);
  }

  lemma Rejoined(p: Dir)
    requires p != []
    ensures Parent(p) + [Last(p)] == p
  {
  }

  /** A directory above d, watched neither itself nor through the one it is in, is moved: nobody says so. */
  lemma UnreportedMoveMisleads(w: World, d: Dir, k: nat) returns (s: Step, v: World)
    requires Coherent(w) && Quiet(w) && d in w.client.cache && Right(w, d)
    requires 0 < k < |d| && d[..k] !in w.live && d[..k - 1] !in w.live
    ensures Enabled(w, s) && v == Next(w, s) && Within([s], {})
    ensures Quiet(v) && v.client == w.client && v.from == w.from && !Right(v, d)
  {
    var a := d[..k];
    assert Parent(a) == d[..k - 1];
    PrefixIsThere(w.dirs, d, k);
    MoveIsEnabled(w, a);
    s := Change(MovedAway(w.dirs, a), [], {});
    v := Next(w, s);
    assert Under(d, a);
  }

  lemma {:induction false} PrefixIsThere(dirs: map<Dir, Listing>, d: Dir, k: nat)
    requires Tree(dirs) && d in dirs && k <= |d|
    ensures d[..k] in dirs
    decreases |d|
  {
    if k == |d| {
      assert d[..k] == d;
    } else {
      var parent := Parent(d);
      assert parent in dirs && |parent| == |d| - 1;
      assert parent[..k] == d[..k];
      PrefixIsThere(dirs, parent, k);
    }
  }

  function Silently(a: Attrs): Attrs { a.(silent := a.silent + 1) }

  /** What no report tells of, such as the times of a sub-directory in which something changed, goes stale under
      every watch. */
  lemma SilentChangeIsUnheard(w: World, d: Dir, name: string) returns (s: Step, v: World)
    requires Coherent(w) && Quiet(w) && d in w.client.cache && d in w.live && w.client.cache[d] == w.dirs[d]
    requires name in w.dirs[d]
    ensures Enabled(w, s) && v == Next(w, s) && Quiet(v) && v.client == w.client && v.live == w.live && d in v.dirs
    ensures Right(v, d) && v.client.cache[d] != v.dirs[d]
  {
    var now := w.dirs[d][name := Silently(w.dirs[d][name])];
    assert forall n <- w.dirs[d].Keys + now.Keys :: SameEntry(w.dirs[d], now, n);
    SameSeen(w.dirs[d], now);
    EntriesCanChange(w, d, now, []);
    OneUpdated(w.dirs, d, now);
    s := Change(map[d := Some(now)], [], {});
    v := Next(w, s);
    assert now[name] != w.dirs[d][name];
  }

  // ---------------------------------------------------------------------------------------------
  // Exactly which listings can be relied on

  predicate Childless(watched: set<Dir>, d: Dir) { forall c <- watched | c != [] :: Parent(c) != d }

  /** A move of any directory above d is reported. */
  predicate Guarded(w: World, d: Dir) { forall k | 0 < k < |d| :: d[..k] in w.live || d[..k - 1] in w.live }

  /** However things go on while nothing but `may` gets watched and no watch is given up: whenever no event is on its
      way and d's listing is the one that readdir j brought, it is right. */
  ghost predicate AlwaysRight(w: World, d: Dir, j: nat, may: set<Dir>) {
    forall steps, v | Runs(steps, w, v) && Within(steps, may) && Quiet(v) && Shows(v, d, j) :: Right(v, d)
  }

  /** Readdir j can no longer show. */
  predicate Gone(w: World, d: Dir, j: nat) {
    !Shows(w, d, j) && (j in w.jobs ==> w.jobs[j].epoch < w.client.epoch)
  }

  /** All is as when it was asked for. */
  predicate Held(w: World, d: Dir, j: nat) {
    && (Shows(w, d, j) ==> d in w.covered) && (j in w.jobs ==> w.jobs[j].covered)
    && d in w.live && Guarded(w, d)
  }

  predicate Attended(w: World, d: Dir, j: nat) {
    && j < w.nextJob && (j in w.jobs ==> w.jobs[j].dir == d) && Childless(w.watched, d)
    && (Gone(w, d, j) || InFlight(w, d) || Held(w, d, j))
  }

  /** A guarded directory does not vanish unheard. */
  lemma GuardedIsHeard(w: World, updates: Updates, paths: seq<Dir>, back: set<Dir>, d: Dir, k: nat)
    requires Coherent(w) && Enabled(w, Change(updates, paths, back)) && d in w.live && Guarded(w, d)
    requires 0 < k <= |d| && Vanishes(updates, d[..k]) && !Vanishes(updates, d[..k - 1])
    ensures d[..k] in paths
  {
    var a := d[..k];
    assert Parent(a) == d[..k - 1] && a[..k - 1] == d[..k - 1];
    if k == |d| { assert a == d; }
    PrefixIsThere(w.dirs, d, k);
    if a in w.live {
      assert Reported(w, updates, paths, a);
    } else {
      assert Reported(w, updates, paths, Parent(a));
      Rejoined(a);
    }
  }

  lemma FirstVanished(updates: Updates, d: Dir, n: nat) returns (k: nat)
    requires !Vanishes(updates, []) && n <= |d| && Vanishes(updates, d[..n])
    ensures 0 < k <= n && Vanishes(updates, d[..k]) && !Vanishes(updates, d[..k - 1])
  {
    k := n;
    while Vanishes(updates, d[..k - 1])
      invariant 0 < k <= n && Vanishes(updates, d[..k])
      decreases k
    {
      k := k - 1;
    }
  }

  lemma VanishedIsHeard(w: World, updates: Updates, paths: seq<Dir>, back: set<Dir>, d: Dir)
    requires Coherent(w) && Enabled(w, Change(updates, paths, back))
    requires d in w.live && Guarded(w, d) && Vanishes(updates, d)
    ensures InFlight(Changing(w, updates, paths, back), d)
  {
    assert d[..|d|] == d;
    var k := FirstVanished(updates, d, |d|);
    GuardedIsHeard(w, updates, paths, back, d, k);
    TouchesHerald(paths, d[..k], d);
    var n :| n in Touches(paths) && Heralds(n, d);
    assert n in Changing(w, updates, paths, back).notices;
  }

  /** As long as d is there, so is every directory above it, and its watch. */
  lemma StaysGuarded(w: World, updates: Updates, paths: seq<Dir>, back: set<Dir>, d: Dir)
    requires Coherent(w) && Enabled(w, Change(updates, paths, back))
    requires d in w.live && Guarded(w, d) && !Vanishes(updates, d)
    ensures d in Changing(w, updates, paths, back).live && Guarded(Changing(w, updates, paths, back), d)
  {
    var v := Changing(w, updates, paths, back);
    forall k | 0 < k < |d| ensures d[..k] in v.live || d[..k - 1] in v.live {
      PrefixIsThere(v.dirs, d, k);
      PrefixIsThere(v.dirs, d, k - 1);
    }
  }

  lemma ChangeAttends(w: World, updates: Updates, paths: seq<Dir>, back: set<Dir>, d: Dir, j: nat)
    requires Coherent(w) && Attended(w, d, j) && Enabled(w, Change(updates, paths, back))
    ensures Attended(Next(w, Change(updates, paths, back)), d, j)
  {
    var v := Changing(w, updates, paths, back);
    if InFlight(w, d) {
      StillInFlight(w, v, d);
    } else if !Gone(w, d, j) {
      if Vanishes(updates, d) {
        VanishedIsHeard(w, updates, paths, back, d);
      } else {
        StaysGuarded(w, updates, paths, back, d);
      }
    }
  }

  lemma ReceiveAttends(w: World, d: Dir, j: nat)
    requires Coherent(w) && Attended(w, d, j) && w.wire != []
    ensures Attended(Next(w, Receive), d, j)
  {
    if InFlight(w, d) { ReceiveFlight(w, d); }
  }

  lemma OtherAttends(w: World, s: Step, d: Dir, j: nat, may: set<Dir>)
    requires Coherent(w) && Attended(w, d, j) && Enabled(w, s) && Childless(may, d)
    requires s.Issue? || s.StartRead? || s.EndRead? || s.Evict? || (s.Watch? && s.dir in may)
    ensures Attended(Next(w, s), d, j)
  {
    if InFlight(w, d) { StillInFlight(w, Next(w, s), d); }
  }

  lemma StepAttends(w: World, s: Step, d: Dir, j: nat, may: set<Dir>)
    requires Coherent(w) && Attended(w, d, j) && Enabled(w, s) && Within([s], may) && Childless(may, d)
    ensures Attended(Next(w, s), d, j)
  {
    assert s in [s];
    match s
    case Change(updates, paths, back) => ChangeAttends(w, updates, paths, back, d, j);
    case Receive => ReceiveAttends(w, d, j);
    case Report => if InFlight(w, d) { ReportFlight(w, d); }
    case Overflowing(kept) => assert Lost in Next(w, s).notices;
    case _ => OtherAttends(w, s, d, j, may);
  }

  lemma {:induction false} RunAttends(steps: seq<Step>, w: World, v: World, d: Dir, j: nat, may: set<Dir>)
    requires Coherent(w) && Attended(w, d, j) && Runs(steps, w, v) && Within(steps, may) && Childless(may, d)
    ensures Coherent(v) && Attended(v, d, j)
    decreases |steps|
  {
    if steps != [] {
      assert Within([steps[0]], may) && Within(steps[1..], may);
      StepKeepsCoherent(w, steps[0]);
      StepAttends(w, steps[0], d, j, may);
      RunAttends(steps[1..], Next(w, steps[0]), v, d, j, may);
    }
  }

  lemma WatchedFirstIsRight(w: World, d: Dir, may: set<Dir>)
    requires Coherent(w) && Quiet(w) && d !in w.client.cache
    requires d in w.live && Guarded(w, d) && Childless(w.watched + may, d)
    ensures AlwaysRight(Next(w, Issue(d)), d, w.nextJob, may)
  {
    var u, j := Next(w, Issue(d)), w.nextJob;
    StepKeepsCoherent(w, Issue(d));
    forall steps, v | Runs(steps, u, v) && Within(steps, may) && Quiet(v) && Shows(v, d, j) ensures Right(v, d) {
      RunAttends(steps, u, v, d, j, may);
      assert True(v, d, v.client.cache[d]);
    }
  }

  /** Of the listing that a readdir of d, not cached yet, will bring: it can be relied on as long as it is cached, if
      and only if d is under a live watch when it is asked for, no entry of d is or gets watched itself, and every
      directory above d is either under a live watch or an entry of one that is. */
  lemma WatchedFirstExactly(w: World, d: Dir, may: set<Dir>)
    requires Coherent(w) && Quiet(w) && w.wire == [] && d in w.dirs && d !in w.client.cache
    ensures AlwaysRight(Next(w, Issue(d)), d, w.nextJob, may)
       <==> d in w.live && Childless(w.watched + may, d) && Guarded(w, d)
  {
    var u := Next(w, Issue(d));
    if d in w.live && Childless(w.watched + may, d) && Guarded(w, d) {
      WatchedFirstIsRight(w, d, may);
    } else {
      var steps, v := FetchInstalls(w, d);
      var more, z := GoesWrong(v, d, may);
      RunsAppend(steps, more, u, v, z);
      assert Within(steps + more, may) && Shows(z, d, w.nextJob);
    }
  }

  /** Otherwise a listing that is right goes wrong. */
  lemma GoesWrong(w: World, d: Dir, may: set<Dir>) returns (steps: seq<Step>, v: World)
    requires Coherent(w) && Quiet(w) && w.wire == [] && d in w.client.cache && Right(w, d)
    requires !(d in w.live && Childless(w.watched + may, d) && Guarded(w, d))
    ensures Runs(steps, w, v) && Within(steps, may) && Quiet(v)
    ensures d in v.client.cache && v.from == w.from && !Right(v, d)
  {
    assert Runs([], w, w);
    if d !in w.live {
      var s;
      s, v := UnwatchedGap(w, d, "");
      RunsOn([], w, w, s);
      steps := [] + [s];
    } else if c :| c in w.watched + may && c != [] && Parent(c) == d {
      Rejoined(c);
      steps, v := WatchedEntryMisleads(w, d, Last(c));
    } else {
      var k: nat :| 0 < k < |d| && d[..k] !in w.live && d[..k - 1] !in w.live;
      var s;
      s, v := UnreportedMoveMisleads(w, d, k);
      RunsOn([], w, w, s);
      steps := [] + [s];
    }
  }

  /** The watch is given up, or the very directory that was watched is moved back. */
  predicate Restores(s: Step, d: Dir) { s == Unwatch(d) || (s.Change? && d in s.back) }

  lemma DeadWatchStep(w: World, s: Step, d: Dir)
    requires d in w.watched && d !in w.live && Enabled(w, s) && !Restores(s, d)
    ensures d in Next(w, s).watched && d !in Next(w, s).live
  {
  }

  /** The watch of a directory that was removed never comes back: the path stays in the server's table, so it is not
      watched again, whatever is made there and however often that is asked for. */
  lemma {:induction false} DeadWatchStays(steps: seq<Step>, w: World, v: World, d: Dir)
    requires d in w.watched && d !in w.live && Runs(steps, w, v) && forall s <- steps :: !Restores(s, d)
    ensures d in v.watched && d !in v.live
    decreases |steps|
  {
    if steps != [] {
      assert steps[0] in steps;
      DeadWatchStep(w, steps[0], d);
      DeadWatchStays(steps[1..], Next(w, steps[0]), v, d);
    }
  }

  /** So no listing of it can ever be relied on again. */
  lemma RemadeDirectoryMisleads(w: World, updates: Updates, paths: seq<Dir>, back: set<Dir>,
                                steps: seq<Step>, v: World, d: Dir, may: set<Dir>)
    requires Coherent(w) && d in w.watched && Enabled(w, Change(updates, paths, back)) && Vanishes(updates, d)
    requires Runs(steps, Next(w, Change(updates, paths, back)), v) && forall s <- steps :: !Restores(s, d)
    requires Quiet(v) && v.wire == [] && d in v.dirs && d !in v.client.cache
    ensures !AlwaysRight(Next(v, Issue(d)), d, v.nextJob, may)
  {
    var u := Next(w, Change(updates, paths, back));
    StepKeepsCoherent(w, Change(updates, paths, back));
    RunKeepsCoherent(steps, u, v);
    DeadWatchStays(steps, u, v, d);
    WatchedFirstExactly(v, d, may);
  }
}
