/** Reading a growing file's tail in chunks: the server's snapshot read and the client's chain of requests. */
module TailRead {
  import opened Common

  const MAX_TAIL_BYTES := 1024 * 1024

  datatype Ident = Ident(dev: nat, ino: nat)

  /** The file a request meets: its identity, its content when its size was sampled, and its content when
      its bytes were read. */
  datatype View = View(id: Ident, stat: Bytes, seen: Bytes)

  datatype Reply = Reply(bytes: Bytes, start: nat, actualEnd: nat, fileSize: nat, id: Ident, rotated: bool, more: bool)

  function Min(a: nat, b: nat): nat { if a < b then a else b }

  /** Where a read starts, and where it wants to end. */
  function StartOf(id: Ident, size: nat, offset: nat, dev: Option<nat>, ino: Option<nat>): nat {
    if Rotated(id, size, offset, dev, ino) then 0 else offset
  }

  predicate Rotated(id: Ident, size: nat, offset: nat, dev: Option<nat>, ino: Option<nat>) {
    (dev.Some? && dev.value != id.dev) || (ino.Some? && ino.value != id.ino) || offset > size
  }

  function Slice(s: Bytes, from: nat, to: nat): Bytes {
    if from <= to <= |s| then s[from..to] else if from <= |s| then s[from..] else []
  }

  /** `tail_read`. */
  function TailReply(v: View, offset: nat, dev: Option<nat>, ino: Option<nat>, maxBytes: nat): Reply {
    var size := |v.stat|;
    var start := StartOf(v.id, size, offset, dev, ino);
    var wantEnd := Min(start + Min(maxBytes, MAX_TAIL_BYTES), size);
    var bytes := if start < wantEnd then Slice(v.seen, start, wantEnd) else [];
    Reply(bytes, start, start + |bytes|, size, v.id, Rotated(v.id, size, offset, dev, ino), start + |bytes| < size)
  }

  // ---------------------------------------------------------------------------------------------
  // The server's loop, with the file growing under it

  /** The files a path may name.  Others append to them, or make the path name another. */
  class Remote {
    var files: map<Ident, Bytes>
    var path: Ident

    constructor (files: map<Ident, Bytes>, path: Ident)
      requires path in files
      ensures this.files == files && this.path == path
    {
      this.files, this.path := files, path;
    }

    method Append()
      requires path in files
      modifies this
      ensures path in files && Grown(old(files), files)
    {
      assert Grown(files, files);
      var next: map<Ident, Bytes> :| Grown(files, next);
      var p: Ident := *;
      GrownAt(files, next, path);
      files := next;
      if p in files {
        path := p;
      }
    }

    /** `take(n).read_to_end` from an offset: pieces, others appending between them. */
    method ReadFrom(fd: Ident, start: nat, n: nat) returns (bytes: Bytes)
      requires path in files && fd in files && start + n <= |files[fd]|
      modifies this
      ensures path in files && Grown(old(files), files) && fd in files
      ensures bytes == old(files)[fd][start..start + n]
    {
      bytes := [];
      while |bytes| < n
        invariant |bytes| <= n && path in files && fd in files && Grown(old(files), files)
        invariant bytes == old(files)[fd][start..start + |bytes|]
        decreases n - |bytes|
      {
        Append();
        var at := start + |bytes|;
        assert old(files)[fd] <= files[fd];
        var m: nat :| 1 <= m <= n - |bytes|;
        assert files[fd][at..at + m] == old(files)[fd][at..at + m];
        bytes := bytes + files[fd][at..at + m];
      }
    }

    /** `tail_read` while files only grow. */
    method Tail(offset: nat, dev: Option<nat>, ino: Option<nat>, maxBytes: nat) returns (r: Reply, ghost v: View)
      requires path in files
      modifies this
      ensures path in files && Grown(old(files), files)
      ensures r == TailReply(v, offset, dev, ino, maxBytes)
      ensures v.id in files && v.stat <= v.seen == files[v.id]
      ensures v.id in old(files) ==> old(files)[v.id] <= v.stat
    {
      ghost var before := files;
      var max := if maxBytes < MAX_TAIL_BYTES then maxBytes else MAX_TAIL_BYTES;
      var fd := Resolve();
      ghost var resolved := files;
      r, v := TailOf(fd, offset, dev, ino, max);
      GrownOn(before, resolved, files);
      if fd in before { GrownAt(before, resolved, fd); }
    }

    method Resolve() returns (fd: Ident)
      requires path in files
      modifies this
      ensures path in files && fd in files && Grown(old(files), files)
    {
      Append();
      fd := path;
    }

    /** On the open descriptor. */
    method TailOf(fd: Ident, offset: nat, dev: Option<nat>, ino: Option<nat>, max: nat)
      returns (r: Reply, ghost v: View)
      requires path in files && fd in files && max <= MAX_TAIL_BYTES
      modifies this
      ensures path in files && Grown(old(files), files)
      ensures r == TailReply(v, offset, dev, ino, max)
      ensures v.id == fd && fd in files && old(files)[fd] <= v.stat <= v.seen == files[fd]
    {
      Append();
      var size := |files[fd]|;
      ghost var sampled := files;
      var identityChanged := (dev.Some? && dev.value != fd.dev) || (ino.Some? && ino.value != fd.ino);
      var shrunk := offset > size;
      var rotated := identityChanged || shrunk;
      var start := if rotated then 0 else offset;
      var wantEnd := if start + max < size then start + max else size;
      var bytes := ReadRange(fd, start, wantEnd);
      GrownAt(sampled, files, fd);
      GrownOn(old(files), sampled, files);
      v := View(fd, sampled[fd], files[fd]);
      ReplyOfView(v, offset, dev, ino, max, start, wantEnd, bytes);
      r := Reply(bytes, start, start + |bytes|, size, fd, rotated, start + |bytes| < size);
    }

    method ReadRange(fd: Ident, start: nat, wantEnd: nat) returns (bytes: Bytes)
      requires path in files && fd in files && start <= wantEnd <= |files[fd]|
      modifies this
      ensures path in files && Grown(old(files), files) && fd in files
      ensures bytes == old(files)[fd][start..wantEnd]
    {
      bytes := [];
      assert Grown(files, files);
      if start < wantEnd {
        bytes := ReadFrom(fd, start, wantEnd - start);
      }
    }
  }

  lemma ReplyOfView(v: View, offset: nat, dev: Option<nat>, ino: Option<nat>, max: nat, start: nat, wantEnd: nat,
                    bytes: Bytes)
    requires v.stat <= v.seen && max <= MAX_TAIL_BYTES
    requires start == StartOf(v.id, |v.stat|, offset, dev, ino) && wantEnd == Min(start + max, |v.stat|)
    requires start <= wantEnd && bytes == v.stat[start..wantEnd]
    ensures TailReply(v, offset, dev, ino, max)
         == Reply(bytes, start, wantEnd, |v.stat|, v.id, Rotated(v.id, |v.stat|, offset, dev, ino), wantEnd < |v.stat|)
  {
  }

  lemma GrownAt(a: map<Ident, Bytes>, b: map<Ident, Bytes>, i: Ident)
    requires Grown(a, b) && i in a
    ensures i in b && a[i] <= b[i]
  {
  }

  lemma GrownOn(a: map<Ident, Bytes>, b: map<Ident, Bytes>, c: map<Ident, Bytes>)
    requires Grown(a, b) && Grown(b, c)
    ensures Grown(a, c)
  {
    forall i <- a ensures i in c && a[i] <= c[i] {
      GrownAt(a, b, i);
      GrownAt(b, c, i);
    }
  }

  predicate Grown(a: map<Ident, Bytes>, b: map<Ident, Bytes>) {
    forall i <- a :: i in b && a[i] <= b[i]
  }

  // ---------------------------------------------------------------------------------------------
  // The client's chain

  datatype Outcome = Complete | Capped | Reanchored

  datatype Result =
    | Unfinished
    | Delivered(outcome: Outcome, bytes: Bytes, start: nat, actualEnd: nat, fileSize: Option<nat>, id: Option<Ident>,
                more: bool, requests: nat)

  /** `step`: the chain from some point on, each request meeting the next view. */
  function Chain(views: seq<View>, offset: nat, dev: Option<nat>, ino: Option<nat>, soFar: Bytes, first: Option<nat>,
                 lastSize: Option<nat>, id: Option<Ident>, cap: nat, requests: nat): Result
    decreases |views|
  {
    if cap <= |soFar| then
      Delivered(Capped, soFar, if first.Some? then first.value else offset, offset, lastSize, id, true, requests)
    else if views == [] then Unfinished
    else
      var r := TailReply(views[0], offset, dev, ino, cap - |soFar|);
      var start := if first.Some? then first.value else r.start;
      if r.rotated then
        Delivered(Reanchored, r.bytes, r.start, r.actualEnd, Some(r.fileSize), Some(r.id), r.more, requests + 1)
      else if r.more then
        Chain(views[1..], r.actualEnd, Some(r.id.dev), Some(r.id.ino), soFar + r.bytes, Some(start), Some(r.fileSize),
              Some(r.id), cap, requests + 1)
      else
        Delivered(Complete, soFar + r.bytes, start, r.actualEnd, Some(r.fileSize), Some(r.id), false, requests + 1)
  }

  /** `relay-tail-read-chunked-async`. */
  function Chunked(views: seq<View>, offset: nat, dev: Option<nat>, ino: Option<nat>, cap: nat): Result {
    Chain(views, offset, dev, ino, [], None, None, None, cap, 0)
  }

  /** Every file only grows, within a request and from one request to any later one. */
  predicate OnlyGrows(views: seq<View>) {
    && (forall v <- views :: v.stat <= v.seen)
    && (forall i, j | 0 <= i < j < |views| && views[i].id == views[j].id :: views[i].seen <= views[j].stat)
  }

  /** The server's reply, while the file grows. */
  lemma GrowingReply(v: View, offset: nat, dev: Option<nat>, ino: Option<nat>, maxBytes: nat)
    requires v.stat <= v.seen
    ensures var r := TailReply(v, offset, dev, ino, maxBytes);
      && r.start <= r.actualEnd <= |v.stat| && r.bytes == v.stat[r.start..r.actualEnd]
      && (r.rotated ==> r.start == 0) && (!r.rotated ==> r.start == offset)
      && (r.more ==> |r.bytes| == Min(maxBytes, MAX_TAIL_BYTES))
      && (!r.more ==> r.actualEnd == |v.stat|)
  {
  }

  /** `bytes` is that stretch of the file v met. */
  predicate Stretch(v: View, from: nat, to: nat, bytes: Bytes) {
    from <= to <= |v.stat| && bytes == v.stat[from..to]
  }

  /** Every later view of the identified file shows what was assembled so far. */
  predicate Continues(views: seq<View>, dev: Option<nat>, ino: Option<nat>, start: nat, offset: nat, soFar: Bytes) {
    && start + |soFar| == offset
    && (soFar != [] ==>
          dev.Some? && ino.Some?
          && forall v <- views | v.id == Ident(dev.value, ino.value) :: Stretch(v, start, offset, soFar))
  }

  /** What a delivery promises: its bytes are one stretch of one file as one request met it. */
  predicate Truthful(r: Result, views: seq<View>, start: nat, cap: nat) {
    match r
    case Unfinished => true
    case Delivered(Complete, bytes, from, end, size, _, more, _) =>
      from == start && !more && size == Some(end)
      && exists v <- views :: Stretch(v, start, |v.stat|, bytes) && end == |v.stat|
    case Delivered(Capped, bytes, from, end, _, _, more, _) =>
      from == start && more && |bytes| == cap && end == start + cap
      && (cap > 0 ==> exists v <- views :: Stretch(v, start, end, bytes))
    case Delivered(Reanchored, bytes, from, end, size, id, _, _) =>
      from == 0 && exists v <- views :: Stretch(v, 0, end, bytes) && size == Some(|v.stat|) && id == Some(v.id)
  }

  lemma LaterViewsContinue(views: seq<View>, start: nat, offset: nat, end: nat, bytes: Bytes)
    requires OnlyGrows(views) && views != [] && Stretch(views[0], start, end, bytes) && start + |bytes| == end
    ensures Continues(views[1..], Some(views[0].id.dev), Some(views[0].id.ino), start, end, bytes)
  {
    forall w <- views[1..] | w.id == views[0].id ensures Stretch(w, start, end, bytes) {
      var j :| 0 <= j < |views[1..]| && views[1..][j] == w;
      assert views[j + 1] == w && views[0].stat <= views[0].seen <= w.stat;
      assert w.stat[start..end] == views[0].stat[start..end];
    }
  }

  lemma SameFile(v: View, offset: nat, dev: nat, ino: nat, n: nat)
    requires !TailReply(v, offset, Some(dev), Some(ino), n).rotated
    ensures v.id == Ident(dev, ino)
  {
  }

  lemma StretchOn(v: View, start: nat, offset: nat, end: nat, soFar: Bytes, bytes: Bytes)
    requires start + |soFar| == offset && Stretch(v, offset, end, bytes)
    requires soFar != [] ==> Stretch(v, start, offset, soFar)
    ensures Stretch(v, start, end, soFar + bytes)
  {
    if soFar != [] {
      assert v.stat[start..offset] + v.stat[offset..end] == v.stat[start..end];
    } else {
      assert soFar + bytes == bytes;
    }
  }

  lemma {:induction false} ChainIsTruthful(all: seq<View>, views: seq<View>, offset: nat, dev: Option<nat>,
      ino: Option<nat>, soFar: Bytes, first: Option<nat>, lastSize: Option<nat>, id: Option<Ident>, cap: nat,
      requests: nat, start: nat)
    requires OnlyGrows(views) && (forall v <- views :: v in all)
    requires Continues(views, dev, ino, start, offset, soFar) && |soFar| <= cap
    requires if first.Some? then first.value == start else soFar == [] && start == offset
    requires soFar != [] ==> exists v <- all :: Stretch(v, start, offset, soFar)
    ensures Truthful(Chain(views, offset, dev, ino, soFar, first, lastSize, id, cap, requests), all, start, cap)
    decreases |views|
  {
    if |soFar| < cap && views != [] {
      var v := views[0];
      var r := TailReply(v, offset, dev, ino, cap - |soFar|);
      GrowingReply(v, offset, dev, ino, cap - |soFar|);
      if r.rotated {
        assert Stretch(v, 0, r.actualEnd, r.bytes);
      } else {
        if soFar != [] { SameFile(v, offset, dev.value, ino.value, cap - |soFar|); }
        StretchOn(v, start, offset, r.actualEnd, soFar, r.bytes);
        assert v in all && Stretch(v, start, r.actualEnd, soFar + r.bytes);
        if r.more {
          assert |soFar + r.bytes| <= cap;
          LaterViewsContinue(views, start, offset, r.actualEnd, soFar + r.bytes);
          ChainIsTruthful(all, views[1..], r.actualEnd, Some(v.id.dev), Some(v.id.ino), soFar + r.bytes, Some(start),
                          Some(r.fileSize), Some(v.id), cap, requests + 1, start);
        }
      }
    }
  }

  /** While files only grow, whatever the path comes to name between requests: `complete` delivers exactly the
      bytes from the known offset to the last observed end of one file, `capped` exactly the cap's worth of one
      file, and a re-anchored delivery only a prefix of the new file.  Nothing is ever spliced. */
  lemma ChunksAreOneFile(views: seq<View>, offset: nat, dev: Option<nat>, ino: Option<nat>, cap: nat)
    requires OnlyGrows(views)
    ensures Truthful(Chunked(views, offset, dev, ino, cap), views, offset, cap)
  {
    ChainIsTruthful(views, views, offset, dev, ino, [], None, None, None, cap, 0, offset);
  }

  /** Requests needed for n bytes. */
  function Needed(n: nat): nat {
    if n == 0 then 0 else 1 + Needed(n - Min(n, MAX_TAIL_BYTES))
  }

  lemma {:induction false} NeededIsCeiling(n: nat)
    ensures Needed(n) == (n + MAX_TAIL_BYTES - 1) / MAX_TAIL_BYTES
  {
    if n > 0 {
      NeededIsCeiling(n - Min(n, MAX_TAIL_BYTES));
    }
  }

  lemma {:induction false} ChainRequests(views: seq<View>, offset: nat, dev: Option<nat>, ino: Option<nat>,
      soFar: Bytes, first: Option<nat>, lastSize: Option<nat>, id: Option<Ident>, cap: nat, requests: nat)
    requires (forall v <- views :: v.stat <= v.seen) && |soFar| <= cap
    ensures var r := Chain(views, offset, dev, ino, soFar, first, lastSize, id, cap, requests);
      if r.Delivered? then r.requests <= requests + Needed(cap - |soFar|) else |views| < Needed(cap - |soFar|)
    decreases |views|
  {
    if |soFar| < cap && views != [] {
      var v := views[0];
      var n := cap - |soFar|;
      var r := TailReply(v, offset, dev, ino, n);
      MoreIsFull(v, offset, dev, ino, n);
      if !r.rotated && r.more {
        var next := soFar + r.bytes;
        assert cap - |next| == n - Min(n, MAX_TAIL_BYTES);
        ChainRequests(views[1..], r.actualEnd, Some(v.id.dev), Some(v.id.ino), next,
                      Some(if first.Some? then first.value else r.start), Some(r.fileSize), Some(v.id), cap,
                        requests + 1);
      }
    }
  }

  lemma MoreIsFull(v: View, offset: nat, dev: Option<nat>, ino: Option<nat>, n: nat)
    requires v.stat <= v.seen
    ensures var r := TailReply(v, offset, dev, ino, n);
      r.id == v.id && (r.more ==> |r.bytes| == Min(n, MAX_TAIL_BYTES))
  {
    GrowingReply(v, offset, dev, ino, n);
  }

  /** The chain delivers after at most ceil(cap / MAX_TAIL_BYTES) requests, and needs no more to deliver. */
  lemma RequestsAreBounded(views: seq<View>, offset: nat, dev: Option<nat>, ino: Option<nat>, cap: nat)
    requires forall v <- views :: v.stat <= v.seen
    ensures var r := Chunked(views, offset, dev, ino, cap);
      var most := (cap + MAX_TAIL_BYTES - 1) / MAX_TAIL_BYTES;
      (r.Delivered? ==> r.requests <= most) && (|views| >= most ==> r.Delivered?)
  {
    NeededIsCeiling(cap);
    ChainRequests(views, offset, dev, ino, [], None, None, None, cap, 0);
  }

  // ---------------------------------------------------------------------------------------------
  // Files that do not only grow

  /** The replies that a chain meets from some point on, when `got` bytes have been assembled. */
  function Met(views: seq<View>, offset: nat, dev: Option<nat>, ino: Option<nat>, got: nat, cap: nat): seq<Reply>
    decreases |views|
  {
    if cap <= got || views == [] then []
    else
      var r := TailReply(views[0], offset, dev, ino, cap - got);
      if r.rotated || !r.more then [r]
      else [r] + Met(views[1..], r.actualEnd, Some(r.id.dev), Some(r.id.ino), got + |r.bytes|, cap)
  }

  /** `bytes` are what s has there. */
  predicate Shows(s: Bytes, from: nat, to: nat, bytes: Bytes) { from <= to <= |s| && s[from..to] == bytes }

  /** s holds, in the range that the reply covers, what the reply found there. */
  predicate Shown(s: Bytes, r: Reply) { Shows(s, r.start, r.actualEnd, r.bytes) }

  predicate AllShown(s: Bytes, replies: seq<Reply>) { forall r <- replies :: Shown(s, r) }

  lemma ShowsBoth(s: Bytes, start: nat, offset: nat, end: nat, head: Bytes, tail: Bytes)
    requires start + |head| == offset && offset + |tail| == end
    ensures Shows(s, start, end, head + tail) <==> Shows(s, start, offset, head) && Shows(s, offset, end, tail)
  {
    if end <= |s| {
      assert s[start..end] == s[start..offset] + s[offset..end];
      assert (head + tail)[..|head|] == head && (head + tail)[|head|..] == tail;
    }
  }

  lemma AllShownCons(s: Bytes, r: Reply, rest: seq<Reply>)
    ensures AllShown(s, [r] + rest) <==> Shown(s, r) && AllShown(s, rest)
  {
    assert ([r] + rest)[0] == r && forall q <- rest :: q in [r] + rest;
  }

  /** A delivery in terms of the replies it was put together from. */
  predicate Assembled(r: Result, requests: nat, met: seq<Reply>, start: nat, offset: nat, soFar: Bytes, s: Bytes) {
    r.Delivered? && !r.outcome.Reanchored? ==>
      && r.requests == requests + |met|
      && (Shows(s, start, r.actualEnd, r.bytes) <==> Shows(s, start, offset, soFar) && AllShown(s, met))
  }

  /** One more reply before those that the rest of the chain met. */
  lemma AssembledMore(all: Result, r: Reply, requests: nat, rest: seq<Reply>, start: nat, offset: nat, soFar: Bytes,
                      s: Bytes)
    requires start + |soFar| == offset && r.start == offset && r.actualEnd == offset + |r.bytes|
    requires Assembled(all, requests + 1, rest, start, r.actualEnd, soFar + r.bytes, s)
    ensures Assembled(all, requests, [r] + rest, start, offset, soFar, s)
  {
    ShowsBoth(s, start, offset, r.actualEnd, soFar, r.bytes);
    AllShownCons(s, r, rest);
  }

  /** The last reply. */
  lemma AssembledLast(all: Result, r: Reply, requests: nat, start: nat, offset: nat, soFar: Bytes, s: Bytes)
    requires start + |soFar| == offset && r.start == offset && r.actualEnd == offset + |r.bytes|
    requires all.Delivered? && all.bytes == soFar + r.bytes && all.actualEnd == r.actualEnd
      && all.requests == requests + 1
    ensures Assembled(all, requests, [r], start, offset, soFar, s)
  {
    ShowsBoth(s, start, offset, r.actualEnd, soFar, r.bytes);
    AllShownCons(s, r, []);
    assert [r] + [] == [r];
  }

  lemma ReplyPlace(v: View, offset: nat, dev: Option<nat>, ino: Option<nat>, maxBytes: nat)
    ensures var r := TailReply(v, offset, dev, ino, maxBytes);
      r.actualEnd == r.start + |r.bytes| && (!r.rotated ==> r.start == offset)
  {
  }

  lemma {:induction false} ChainShows(views: seq<View>, offset: nat, dev: Option<nat>, ino: Option<nat>, soFar: Bytes,
      first: Option<nat>, lastSize: Option<nat>, id: Option<Ident>, cap: nat, requests: nat, start: nat, s: Bytes)
    requires start + |soFar| == offset
    ensures Assembled(Chain(views, offset, dev, ino, soFar, first, lastSize, id, cap, requests), requests,
                      Met(views, offset, dev, ino, |soFar|, cap), start, offset, soFar, s)
    decreases |views|
  {
    if |soFar| < cap && views != [] {
      var all := Chain(views, offset, dev, ino, soFar, first, lastSize, id, cap, requests);
      var r := TailReply(views[0], offset, dev, ino, cap - |soFar|);
      ReplyPlace(views[0], offset, dev, ino, cap - |soFar|);
      if r.rotated {
      } else if r.more {
        ChainShows(views[1..], r.actualEnd, Some(r.id.dev), Some(r.id.ino), soFar + r.bytes,
                   Some(if first.Some? then first.value else r.start), Some(r.fileSize), Some(r.id), cap, requests + 1,
                   start, s);
        var rest := Met(views[1..], r.actualEnd, Some(r.id.dev), Some(r.id.ino), |soFar + r.bytes|, cap);
        AssembledMore(all, r, requests, rest, start, offset, soFar, s);
      } else {
        AssembledLast(all, r, requests, start, offset, soFar, s);
      }
    }
  }

  /** Whatever happens to the files: a delivery that is not re-anchored is one stretch of a content, of the one the
      last request met in particular, if and only if that content holds, in every range that was read, the bytes that
      were read there. */
  lemma SplicedExactly(views: seq<View>, offset: nat, dev: Option<nat>, ino: Option<nat>, cap: nat, s: Bytes)
    ensures var r, met := Chunked(views, offset, dev, ino, cap), Met(views, offset, dev, ino, 0, cap);
      r.Delivered? && !r.outcome.Reanchored? ==>
        && r.requests == |met|
        && (Shows(s, offset, r.actualEnd, r.bytes) <==> offset <= |s| && AllShown(s, met))
  {
    ChainShows(views, offset, dev, ino, [], None, None, None, cap, 0, offset, s);
  }

  /** Views that are all the same content of the expected file. */
  function Standing(n: nat, id: Ident, b: Bytes): seq<View> {
    if n == 0 then [] else [View(id, b, b)] + Standing(n - 1, id, b)
  }

  lemma {:induction false} StandingChain(n: nat, id: Ident, b: Bytes, offset: nat, soFar: Bytes, start: nat,
      lastSize: Option<nat>, cap: nat, requests: nat)
    requires offset <= |b|
    ensures var views := Standing(n, id, b);
      var r := Chain(views, offset, Some(id.dev), Some(id.ino), soFar, Some(start), lastSize, Some(id), cap, requests);
      |views| == n && (r.Delivered? ==> !r.outcome.Reanchored?)
    ensures forall r <- Met(Standing(n, id, b), offset, Some(id.dev), Some(id.ino), |soFar|, cap) ::
              Shown(b, r) && r.start >= offset
    decreases n
  {
    var views := Standing(n, id, b);
    if n > 0 {
      var v := View(id, b, b);
      assert views[1..] == Standing(n - 1, id, b);
      var size := if |soFar| < cap then cap - |soFar| else 0;
      var r := TailReply(v, offset, Some(id.dev), Some(id.ino), size);
      GrowingReply(v, offset, Some(id.dev), Some(id.ino), size);
      StandingChain(n - 1, id, b, r.actualEnd, soFar + r.bytes, start, Some(r.fileSize), cap, requests + 1);
    }
  }

  /** The one guard is identity and size.  A file rewritten in place after the first of several requests, keeping its
      inode and its length past what was read, is spliced: whatever the offset and however many requests follow, the
      delivery is the old content's first chunk followed by the new content, and it is a stretch of the new content if
      and only if that chunk did not change. */
  lemma RewrittenFileIsSpliced(id: Ident, a: Bytes, b: Bytes, offset: nat, cap: nat, n: nat)
    requires |a| > offset + MAX_TAIL_BYTES && |b| >= offset + MAX_TAIL_BYTES && cap > MAX_TAIL_BYTES
    requires n + 1 >= (cap + MAX_TAIL_BYTES - 1) / MAX_TAIL_BYTES
    ensures var r := Chunked([View(id, a, a)] + Standing(n, id, b), offset, None, None, cap);
      var kept := offset + MAX_TAIL_BYTES;
      && r.Delivered? && !r.outcome.Reanchored?
      && Shows(a[..kept] + b[kept..], offset, r.actualEnd, r.bytes)
      && (Shows(b, offset, r.actualEnd, r.bytes) <==> a[offset..kept] == b[offset..kept])
  {
    var views := [View(id, a, a)] + Standing(n, id, b);
    var kept := offset + MAX_TAIL_BYTES;
    FirstOfSeveral(id, a, Standing(n, id, b), offset, cap);
    StandingChain(n, id, b, kept, a[offset..kept], offset, Some(|a|), cap, 1);
    RewrittenDelivers(id, a, b, offset, cap, n);
    var later := Met(Standing(n, id, b), kept, Some(id.dev), Some(id.ino), MAX_TAIL_BYTES, cap);
    RewrittenShows(id, a, Standing(n, id, b), offset, cap, b);
    forall r <- later ensures Shown(a[..kept] + b[kept..], r) {
      ShownPast(a[..kept], b, r);
    }
    RewrittenShows(id, a, Standing(n, id, b), offset, cap, a[..kept] + b[kept..]);
    assert (a[..kept] + b[kept..])[offset..kept] == a[offset..kept];
  }

  lemma ShownPast(head: Bytes, b: Bytes, r: Reply)
    requires |head| <= |b| && r.start >= |head| && Shown(b, r)
    ensures Shown(head + b[|head|..], r)
  {
    var s := head + b[|head|..];
    assert s[r.start..r.actualEnd] == b[r.start..r.actualEnd];
  }

  /** If a content shows all that the later requests found, it shows the delivery exactly when it shows the first
      chunk. */
  lemma RewrittenShows(id: Ident, a: Bytes, rest: seq<View>, offset: nat, cap: nat, s: Bytes)
    requires |a| > offset + MAX_TAIL_BYTES && cap > MAX_TAIL_BYTES
    requires AllShown(s, Met(rest, offset + MAX_TAIL_BYTES, Some(id.dev), Some(id.ino), MAX_TAIL_BYTES, cap))
    ensures var r, kept := Chunked([View(id, a, a)] + rest, offset, None, None, cap), offset + MAX_TAIL_BYTES;
      r.Delivered? && !r.outcome.Reanchored? ==>
        (Shows(s, offset, r.actualEnd, r.bytes) <==> Shows(s, offset, kept, a[offset..kept]))
  {
    var later := Met(rest, offset + MAX_TAIL_BYTES, Some(id.dev), Some(id.ino), MAX_TAIL_BYTES, cap);
    FirstOfSeveral(id, a, rest, offset, cap);
    SplicedExactly([View(id, a, a)] + rest, offset, None, None, cap, s);
    AllShownCons(s, TailReply(View(id, a, a), offset, None, None, cap), later);
  }

  /** The first request meets a, and leaves more to read. */
  lemma FirstOfSeveral(id: Ident, a: Bytes, rest: seq<View>, offset: nat, cap: nat)
    requires |a| > offset + MAX_TAIL_BYTES && cap > MAX_TAIL_BYTES
    ensures var views, kept := [View(id, a, a)] + rest, offset + MAX_TAIL_BYTES;
      var first := TailReply(View(id, a, a), offset, None, None, cap);
      && first.start == offset && first.actualEnd == kept && first.bytes == a[offset..kept]
      && Met(views, offset, None, None, 0, cap)
         == [first] + Met(rest, kept, Some(id.dev), Some(id.ino), MAX_TAIL_BYTES, cap)
      && Chunked(views, offset, None, None, cap)
         == Chain(rest, kept, Some(id.dev), Some(id.ino), a[offset..kept], Some(offset), Some(|a|), Some(id), cap, 1)
  {
    var v := View(id, a, a);
    var views := [v] + rest;
    GrowingReply(v, offset, None, None, cap);
    var first := TailReply(v, offset, None, None, cap);
    assert views[0] == v && views[1..] == rest && first.more && [] + first.bytes == first.bytes;
  }

  lemma RewrittenDelivers(id: Ident, a: Bytes, b: Bytes, offset: nat, cap: nat, n: nat)
    requires n + 1 >= (cap + MAX_TAIL_BYTES - 1) / MAX_TAIL_BYTES && offset + MAX_TAIL_BYTES <= |b|
    ensures Chunked([View(id, a, a)] + Standing(n, id, b), offset, None, None, cap).Delivered?
  {
    StandingChain(n, id, b, 0, [], 0, None, 0, 0);
    StandingViews(n, id, b);
    RequestsAreBounded([View(id, a, a)] + Standing(n, id, b), offset, None, None, cap);
  }

  lemma {:induction false} StandingViews(n: nat, id: Ident, b: Bytes)
    ensures forall v <- Standing(n, id, b) :: v == View(id, b, b)
  {
    if n > 0 {
      StandingViews(n - 1, id, b);
    }
  }
}
