/** The wire: a four-byte little-endian length, then that many bytes, both ways. */
module Framing {
  import opened Common

  const MAX_FRAME_BYTES := 32 * 1024 * 1024
  const TWO32 := 0x1_0000_0000

  // ---------------------------------------------------------------------------------------------
  // Headers

  /** `unibyte-string` of the length shifted and masked. */
  function ClientHeader(n: nat): (h: Bytes)
    ensures |h| == 4
  {
    [n % 256, n / 0x100 % 256, n / 0x1_0000 % 256, n / 0x100_0000 % 256]
  }

  function LeBytes(n: nat, k: nat): (h: Bytes)
    ensures |h| == k
  {
    if k == 0 then [] else [n % 256] + LeBytes(n / 256, k - 1)
  }

  /** `(len as u32).to_le_bytes()`. */
  function ServerHeader(n: nat): (h: Bytes)
    ensures |h| == 4
  {
    LeBytes(n % TWO32, 4)
  }

  /** `logior` of the four bytes shifted into place. */
  function ClientLength(h: Bytes): nat
    requires |h| == 4
  {
    var b0: int, b1: int, b2: int, b3: int := h[0], h[1], h[2], h[3];
    b0 + 0x100 * b1 + 0x1_0000 * b2 + 0x100_0000 * b3
  }

  function FromLeBytes(h: Bytes): nat {
    if h == [] then 0 else (h[0] as int) + 256 * FromLeBytes(h[1..])
  }

  /** Shifting the whole length or shifting its low 32 bits: the bytes that are kept agree. */
  lemma ShiftedBytes(n: nat)
    ensures var m := n % TWO32;
      && m % 256 == n % 256
      && m / 256 % 256 == n / 0x100 % 256
      && m / 256 / 256 % 256 == n / 0x1_0000 % 256
      && m / 256 / 256 / 256 % 256 == n / 0x100_0000 % 256
  {
    var m, q := n % TWO32, n / TWO32;
    Shift1(n, q, m);
    Shift2(n, q, m);
    Shift3(n, q, m);
  }

  lemma Shift1(n: nat, q: nat, m: nat)
    requires n == q * 0x1_0000_0000 + m
    ensures m % 256 == n % 256 && m / 256 % 256 == n / 0x100 % 256
  {
    assert n / 0x100 == q * 0x100_0000 + m / 0x100;
  }

  lemma Shift2(n: nat, q: nat, m: nat)
    requires n == q * 0x1_0000_0000 + m
    ensures m / 256 / 256 % 256 == n / 0x1_0000 % 256
  {
    assert n / 0x1_0000 == q * 0x1_0000 + m / 0x1_0000;
    assert m / 256 / 256 == m / 0x1_0000;
  }

  lemma Shift3(n: nat, q: nat, m: nat)
    requires n == q * 0x1_0000_0000 + m
    ensures m / 256 / 256 / 256 % 256 == n / 0x100_0000 % 256
  {
    assert n / 0x100_0000 == q * 0x100 + m / 0x100_0000;
    assert m / 256 / 256 / 256 == m / 0x100_0000;
  }

  lemma {:induction false} LeBytesRead(n: nat, k: nat, limit: nat)
    requires n < limit == Pow256(k)
    ensures FromLeBytes(LeBytes(n, k)) == n
  {
    if k > 0 {
      LeBytesRead(n / 256, k - 1, Pow256(k - 1));
      assert LeBytes(n, k)[1..] == LeBytes(n / 256, k - 1);
    }
  }

  function Pow256(k: nat): nat { if k == 0 then 1 else 256 * Pow256(k - 1) }

  lemma LengthsAgree(h: Bytes)
    requires |h| == 4
    ensures ClientLength(h) == FromLeBytes(h)
  {
    assert h[1..][1..] == h[2..] && h[2..][1..] == h[3..] && h[3..][1..] == [];
    assert FromLeBytes(h[3..]) == h[3] as int;
    assert FromLeBytes(h[2..]) == h[2] as int + 256 * h[3] as int;
    assert FromLeBytes(h[1..]) == h[1] as int + 256 * FromLeBytes(h[2..]);
  }

  lemma HeaderBytes(n: nat)
    ensures ClientHeader(n) == ServerHeader(n)
  {
    var m := n % TWO32;
    ShiftedBytes(n);
    assert LeBytes(m / 256 / 256, 2) == [m / 256 / 256 % 256, m / 256 / 256 / 256 % 256];
    assert LeBytes(m, 4) == [m % 256] + ([m / 256 % 256] + LeBytes(m / 256 / 256, 2));
  }

  /** The two ends write the same header and read it alike, and reading undoes writing up to 32 bits. */
  lemma HeadersAgree(n: nat, h: Bytes)
    requires |h| == 4
    ensures ClientHeader(n) == ServerHeader(n)
    ensures ClientLength(h) == FromLeBytes(h)
    ensures ClientLength(ServerHeader(n)) == n % TWO32
  {
    HeaderBytes(n);
    LengthsAgree(h);
    ServerHeaderReads(n);
  }

  lemma ServerHeaderReads(n: nat)
    ensures ClientLength(ServerHeader(n)) == n % TWO32
  {
    LengthsAgree(ServerHeader(n));
    Pow256Of4();
    LeBytesRead(n % TWO32, 4, TWO32);
  }

  lemma Pow256Of4()
    ensures Pow256(4) == TWO32
  {
    assert Pow256(2) == 0x1_0000;
  }

  // ---------------------------------------------------------------------------------------------
  // What a stream of bytes says

  function Frame(payload: Bytes): Bytes { ServerHeader(|payload|) + payload }

  function Encode(payloads: seq<Bytes>): Bytes {
    if payloads == [] then [] else Frame(payloads[0]) + Encode(payloads[1..])
  }

  datatype Verdict = Waiting | Oversized | Signalled

  datatype Scanned = Scanned(frames: seq<Bytes>, rest: Bytes, verdict: Verdict)

  /** One receiving end: how it reads a header, the most it accepts, and the payloads whose dispatch signals
      an error. */
  datatype Wire = Wire(length: Bytes -> nat, limit: nat, bad: Bytes -> bool)

  function Length(h: Bytes): nat { if |h| == 4 then ClientLength(h) else 0 }

  /** Four header bytes are read as a little-endian number. */
  ghost predicate ReadsHeaders(w: Wire) { forall h | |h| == 4 :: w.length(h) == Length(h) }

  /** Dispatch never signals. */
  function Sound(w: Wire): Wire { w.(bad := _ => false) }

  function More(first: Bytes, r: Scanned): Scanned { r.(frames := [first] + r.frames) }

  /** The frames of s in order, up to a frame that is incomplete, announces too much, or whose dispatch
      signals; and what is left. */
  function Scan(s: Bytes, w: Wire): Scanned
    decreases |s|
  {
    if |s| < 4 then Scanned([], s, Waiting)
    else
      var len := w.length(s[..4]);
      if len > w.limit then Scanned([], [], Oversized)
      else if |s| < 4 + len then Scanned([], s, Waiting)
      else if w.bad(s[4..4 + len]) then Scanned([s[4..4 + len]], s[4 + len..], Signalled)
      else More(s[4..4 + len], Scan(s[4 + len..], w))
  }

  function Deframe(s: Bytes, w: Wire): Scanned { Scan(s, Sound(w)) }

  function Then(a: Scanned, b: Scanned): Scanned { b.(frames := a.frames + b.frames) }

  /** Scanning can stop anywhere and go on with what was left. */
  lemma {:induction false} ScanOn(s: Bytes, t: Bytes, w: Wire)
    ensures Deframe(s + t, w) ==
      if Deframe(s, w).verdict.Oversized? then Deframe(s, w)
      else Then(Deframe(s, w), Deframe(Deframe(s, w).rest + t, w))
    decreases |s|
  {
    if |s| >= 4 {
      var len := w.length(s[..4]);
      assert (s + t)[..4] == s[..4];
      if len <= w.limit && |s| >= 4 + len {
        var p, u := s[4..4 + len], s[4 + len..];
        ScanOn(u, t, w);
        assert (s + t)[4..4 + len] == p && (s + t)[4 + len..] == u + t;
        assert Deframe(s, w) == More(p, Deframe(u, w)) && Deframe(s + t, w) == More(p, Deframe(u + t, w));
        ThenAssociates(p, Deframe(u, w), Deframe(Deframe(u, w).rest + t, w));
      }
    }
  }

  lemma ThenAssociates(p: Bytes, a: Scanned, b: Scanned)
    ensures More(p, Then(a, b)) == Then(More(p, a), b)
  {
    assert [p] + (a.frames + b.frames) == ([p] + a.frames) + b.frames;
  }

  /** What is left after a scan holds no further frame. */
  lemma {:induction false} RestIsScanned(s: Bytes, w: Wire)
    ensures Deframe(Deframe(s, w).rest, w).frames == []
    ensures Deframe(s, w).verdict.Waiting? ==>
      Deframe(Deframe(s, w).rest, w) == Scanned([], Deframe(s, w).rest, Waiting)
    ensures !Deframe(s, w).verdict.Signalled?
    decreases |s|
  {
    if |s| >= 4 {
      var len := w.length(s[..4]);
      if len <= w.limit && |s| >= 4 + len {
        RestIsScanned(s[4 + len..], w);
      }
    }
  }

  /** Scanning undoes encoding: exactly those payloads, in order, then whatever follows. */
  lemma {:induction false} EncodedDeframes(payloads: seq<Bytes>, tail: Bytes, w: Wire)
    requires ReadsHeaders(w) && w.limit < TWO32 && forall p <- payloads :: |p| <= w.limit
    ensures Deframe(Encode(payloads) + tail, w) == Then(Scanned(payloads, [], Waiting), Deframe(tail, w))
  {
    if payloads == [] {
      assert Encode(payloads) + tail == tail;
    } else {
      var d := Deframe(tail, w);
      EncodedDeframes(payloads[1..], tail, w);
      EncodedCons(payloads, tail, w, Then(Scanned(payloads[1..], [], Waiting), d));
      ThenAssociates(payloads[0], Scanned(payloads[1..], [], Waiting), d);
      assert [payloads[0]] + payloads[1..] == payloads;
    }
  }

  lemma EncodedCons(payloads: seq<Bytes>, tail: Bytes, w: Wire, d: Scanned)
    requires ReadsHeaders(w) && payloads != [] && |payloads[0]| <= w.limit < TWO32
    requires Deframe(Encode(payloads[1..]) + tail, w) == d
    ensures Deframe(Encode(payloads) + tail, w) == More(payloads[0], d)
  {
    FrameDeframes(payloads[0], Encode(payloads[1..]) + tail, w);
    EncodeCons(payloads, tail);
  }

  lemma EncodeCons(payloads: seq<Bytes>, tail: Bytes)
    requires payloads != []
    ensures Encode(payloads) + tail == Frame(payloads[0]) + (Encode(payloads[1..]) + tail)
  {
  }

  lemma MoreAfter(seen: seq<Bytes>, p: Bytes, r: Scanned)
    ensures Then(Scanned(seen, [], Waiting), More(p, r)) == Then(Scanned(seen + [p], [], Waiting), r)
  {
    assert seen + ([p] + r.frames) == (seen + [p]) + r.frames;
  }

  lemma FrameDeframes(p: Bytes, rest: Bytes, w: Wire)
    requires ReadsHeaders(w) && |p| <= w.limit < TWO32
    ensures Deframe(Frame(p) + rest, w) == More(p, Deframe(rest, w))
  {
    var h := ServerHeader(|p|);
    HeaderReads(|p|);
    assert w.length(h) == Length(h) == |p|;
    HeadedDeframes(h, p, rest, w);
  }

  lemma HeaderReads(n: nat)
    requires n < TWO32
    ensures ClientLength(ServerHeader(n)) == n
  {
    ServerHeaderReads(n);
  }

  lemma HeadedDeframes(h: Bytes, p: Bytes, rest: Bytes, w: Wire)
    requires |h| == 4 && w.length(h) == |p| <= w.limit
    ensures Deframe(h + p + rest, w) == More(p, Deframe(rest, w))
  {
    var s := h + p + rest;
    assert s[..4] == h && s[4..4 + |p|] == p && s[4 + |p|..] == rest;
  }

  /** One turn of the filter's loop, at an offset into the accumulator. */
  lemma ScanAt(acc: Bytes, offset: nat, w: Wire)
    requires offset + 4 <= |acc|
    ensures var len := w.length(acc[offset..offset + 4]);
      Scan(acc[offset..], w) ==
        if len > w.limit then Scanned([], [], Oversized)
        else if |acc| - offset < 4 + len then Scanned([], acc[offset..], Waiting)
        else if w.bad(acc[offset + 4..offset + 4 + len])
        then Scanned([acc[offset + 4..offset + 4 + len]], acc[offset + 4 + len..], Signalled)
        else More(acc[offset + 4..offset + 4 + len], Scan(acc[offset + 4 + len..], w))
  {
    var s, len := acc[offset..], w.length(acc[offset..offset + 4]);
    assert s[..4] == acc[offset..offset + 4];
    if len <= w.limit && |s| >= 4 + len {
      assert s[4..4 + len] == acc[offset + 4..offset + 4 + len];
      assert s[4 + len..] == acc[offset + 4 + len..];
    }
  }

  /** The loop has dispatched `seen` and stands at `offset`. */
  predicate Progress(all: Bytes, offset: nat, seen: seq<Bytes>, w: Wire, target: Scanned) {
    offset <= |all|
    && target == Then(Scanned(seen, [], Waiting), Scan(all[offset..], w))
  }

  lemma ThenEnds(seen: seq<Bytes>, last: seq<Bytes>, rest: Bytes, verdict: Verdict)
    ensures Then(Scanned(seen, [], Waiting), Scanned(last, rest, verdict)) == Scanned(seen + last, rest, verdict)
    ensures seen + [] == seen
  {
  }

  lemma LoopTurns(all: Bytes, offset: nat, seen: seq<Bytes>, w: Wire, target: Scanned)
    requires Progress(all, offset, seen, w, target) && offset + 4 <= |all|
    ensures var len := w.length(all[offset..offset + 4]);
      if len > w.limit then target == Scanned(seen, [], Oversized)
      else if |all| - offset < 4 + len then target == Scanned(seen, all[offset..], Waiting)
      else
        var p, next := all[offset + 4..offset + 4 + len], offset + 4 + len;
        if w.bad(p) then target == Scanned(seen + [p], all[next..], Signalled)
        else Progress(all, next, seen + [p], w, target)
  {
    ScanAt(all, offset, w);
    var len := w.length(all[offset..offset + 4]);
    if len > w.limit {
      ThenEnds(seen, [], [], Oversized);
    } else if |all| - offset < 4 + len {
      ThenEnds(seen, [], all[offset..], Waiting);
    } else {
      var p, next := all[offset + 4..offset + 4 + len], offset + 4 + len;
      ThenEnds(seen, [p], all[next..], Signalled);
      MoreAfter(seen, p, Scan(all[next..], w));
    }
  }

  lemma LoopEnds(all: Bytes, offset: nat, seen: seq<Bytes>, w: Wire, target: Scanned)
    requires Progress(all, offset, seen, w, target) && |all| - offset < 4
    ensures target == Scanned(seen, all[offset..], Waiting)
  {
    ThenEnds(seen, [], all[offset..], Waiting);
  }

  // ---------------------------------------------------------------------------------------------
  // The client's process filter

  /** One connection: the accumulator, whether the process lives, and every payload handed to dispatch. */
  datatype Reader = Reader(acc: Bytes, live: bool, dispatched: seq<Bytes>)

  /** One filter call.  When dispatch signals, the accumulator keeps the whole of it. */
  function Filtered(r: Reader, chunk: Bytes, w: Wire): Reader {
    if !r.live then r
    else
      var s := Scan(r.acc + chunk, w);
      Reader(if s.verdict.Signalled? then r.acc + chunk else s.rest, !s.verdict.Oversized?, r.dispatched + s.frames)
  }

  function Feed(chunks: seq<Bytes>, w: Wire): Reader {
    if chunks == [] then Reader([], true, [])
    else Filtered(Feed(chunks[..|chunks| - 1], w), chunks[|chunks| - 1], w)
  }

  function Concat(chunks: seq<Bytes>): Bytes {
    if chunks == [] then [] else Concat(chunks[..|chunks| - 1]) + chunks[|chunks| - 1]
  }

  class Connection {
    var acc: Bytes
    var live: bool
    var dispatched: seq<Bytes>

    constructor ()
      ensures State() == Reader([], true, [])
    {
      acc, live, dispatched := [], true, [];
    }

    function State(): Reader
      reads this
    {
      Reader(acc, live, dispatched)
    }

    /** `relay--filter`. */
    method Filter(chunk: Bytes, w: Wire)
      modifies this
      ensures State() == Filtered(old(State()), chunk, w)
    {
      if live {
        acc := acc + chunk;
        var frames, offset, verdict := Deliver(acc, w, Scan(acc, w));
        dispatched := dispatched + frames;
        live := !verdict.Oversized?;
        if !verdict.Signalled? {
          acc := acc[offset..];
        }
      }
    }
  }

  /** The filter's loop: every complete frame of `all` is dispatched, until one signals. */
  method Deliver(all: Bytes, w: Wire, ghost target: Scanned) returns (frames: seq<Bytes>, offset: nat, verdict: Verdict)
    requires target == Scan(all, w)
    ensures offset <= |all| && target == Scanned(frames, all[offset..], verdict)
  {
    frames, offset, verdict := [], 0, Waiting;
    var done := false;
    assert all[0..] == all;
    while !done && |all| - offset >= 4
      invariant offset <= |all| && !verdict.Signalled?
      invariant done ==> target == Scanned(frames, all[offset..], verdict)
      invariant !done ==> verdict.Waiting? && Progress(all, offset, frames, w, target)
      decreases !done, |all| - offset
    {
      LoopTurns(all, offset, frames, w, target);
      var len := w.length(all[offset..offset + 4]);
      if len > w.limit {
        offset, done, verdict := |all|, true, Oversized;
      } else if |all| - offset < 4 + len {
        done := true;
      } else {
        var payload := all[offset + 4..offset + 4 + len];
        offset := offset + 4 + len;
        frames := frames + [payload];
        if w.bad(payload) {
          return frames, offset, Signalled;
        }
      }
    }
    if !done {
      LoopEnds(all, offset, frames, w, target);
    }
  }

  // ---------------------------------------------------------------------------------------------
  // Cutting the stream makes no difference, unless a dispatch signals

  /** No frame's dispatch signals. */
  predicate Clean(frames: seq<Bytes>, w: Wire) { forall f <- frames :: !w.bad(f) }

  /** The connection after a whole stream, however it was cut. */
  function Whole(stream: Bytes, w: Wire): Reader {
    var d := Deframe(stream, w);
    Reader(d.rest, !d.verdict.Oversized?, d.frames)
  }

  /** A scan stops early exactly when some frame signals. */
  lemma {:induction false} ScanSignals(s: Bytes, w: Wire)
    ensures if Clean(Deframe(s, w).frames, w) then Scan(s, w) == Deframe(s, w) else Scan(s, w).verdict.Signalled?
    decreases |s|
  {
    if |s| >= 4 {
      var len := w.length(s[..4]);
      if len <= w.limit && |s| >= 4 + len {
        ScanSignals(s[4 + len..], w);
        CleanMore(s[4..4 + len], Deframe(s[4 + len..], w).frames, w);
      }
    }
  }

  lemma CleanMore(p: Bytes, frames: seq<Bytes>, w: Wire)
    ensures Clean([p] + frames, w) <==> !w.bad(p) && Clean(frames, w)
  {
    assert p in [p] + frames && forall f <- frames :: f in [p] + frames;
  }

  lemma CleanBoth(a: seq<Bytes>, b: seq<Bytes>, w: Wire)
    ensures Clean(a + b, w) <==> Clean(a, w) && Clean(b, w)
  {
    assert (forall f <- a :: f in a + b) && (forall f <- b :: f in a + b);
  }

  /** Once a frame signals, more bytes change nothing about the frames before it. */
  lemma {:induction false} SignalledStays(s: Bytes, t: Bytes, w: Wire)
    requires Scan(s, w).verdict.Signalled?
    ensures Scan(s + t, w).verdict.Signalled? && Scan(s + t, w).frames == Scan(s, w).frames
    decreases |s|
  {
    assert |s| >= 4 && (s + t)[..4] == s[..4];
    var len := w.length(s[..4]);
    assert (s + t)[4..4 + len] == s[4..4 + len];
    if !w.bad(s[4..4 + len]) {
      SignalledStays(s[4 + len..], t, w);
      assert (s + t)[4 + len..] == s[4 + len..] + t;
    }
  }

  /** A jammed connection: the accumulator begins with frames one of which signals. */
  predicate Jammed(r: Reader, w: Wire) { r.live && Scan(r.acc, w).verdict.Signalled? }

  lemma {:induction false} FeedOutcome(chunks: seq<Bytes>, w: Wire)
    ensures if Clean(Deframe(Concat(chunks), w).frames, w) then Feed(chunks, w) == Whole(Concat(chunks), w)
            else Jammed(Feed(chunks, w), w)
  {
    if chunks != [] {
      var n := |chunks| - 1;
      var before, chunk := chunks[..n], chunks[n];
      FeedOutcome(before, w);
      ScanOn(Concat(before), chunk, w);
      var d := Deframe(Concat(before), w);
      if Clean(d.frames, w) {
        if !d.verdict.Oversized? {
          ScanSignals(d.rest + chunk, w);
          CleanBoth(d.frames, Deframe(d.rest + chunk, w).frames, w);
          RestIsScanned(d.rest + chunk, w);
        }
      } else {
        SignalledStays(Feed(before, w).acc, chunk, w);
        if !d.verdict.Oversized? {
          CleanBoth(d.frames, Deframe(d.rest + chunk, w).frames, w);
        }
      }
    }
  }

  /** For every stream and every way of cutting it, the filter dispatches exactly the stream's frames, once
      each and in order, and keeps exactly the undelivered suffix, if and only if no frame's dispatch
      signals.  An oversized header stops it at the same frame for every cut. */
  lemma FilterIsFaithful(chunks: seq<Bytes>, w: Wire)
    ensures Feed(chunks, w) == Whole(Concat(chunks), w) <==> Clean(Deframe(Concat(chunks), w).frames, w)
  {
    FeedOutcome(chunks, w);
    var d := Deframe(Concat(chunks), w);
    if !Clean(d.frames, w) {
      RestIsScanned(Concat(chunks), w);
      ScanSignals(d.rest, w);
    }
  }

  /** When a dispatch does signal, every later chunk dispatches the frames before it, and it, all over
      again, and nothing behind it is ever reached. */
  lemma SignalsRedeliver(r: Reader, chunk: Bytes, w: Wire)
    requires Jammed(r, w)
    ensures Filtered(r, chunk, w) == Reader(r.acc + chunk, true, r.dispatched + Scan(r.acc, w).frames)
    ensures Jammed(Filtered(r, chunk, w), w) && Scan(r.acc, w).frames != []
  {
    SignalledStays(r.acc, chunk, w);
    SignalledHasFrames(r.acc, w);
  }

  lemma {:induction false} SignalledHasFrames(s: Bytes, w: Wire)
    requires Scan(s, w).verdict.Signalled?
    ensures Scan(s, w).frames != []
  {
  }

  /** End to end: payloads within the limit, written by either end and cut anyhow, are dispatched exactly
      and in order, and a frame cut short waits. */
  lemma PayloadsArrive(payloads: seq<Bytes>, partial: Bytes, chunks: seq<Bytes>, w: Wire)
    requires ReadsHeaders(w) && w.limit < TWO32 && (forall p <- payloads :: |p| <= w.limit) && Clean(payloads, w)
    requires Concat(chunks) == Encode(payloads) + partial
    requires Deframe(partial, w) == Scanned([], partial, Waiting)
    ensures Feed(chunks, w) == Reader(partial, true, payloads)
  {
    EncodedDeframes(payloads, partial, w);
    assert payloads + [] == payloads;
    FilterIsFaithful(chunks, w);
  }

  // ---------------------------------------------------------------------------------------------
  // The server's loops

  const SERVER := Wire(FromLeBytes, MAX_FRAME_BYTES, _ => false)

  /** The writer thread. */
  method WriteFrames(payloads: seq<Bytes>) returns (out: Bytes)
    ensures out == Encode(payloads)
  {
    out := [];
    for i := 0 to |payloads|
      invariant out + Encode(payloads[i..]) == Encode(payloads)
    {
      var len := LeBytes(|payloads[i]| % TWO32, 4);
      assert payloads[i..][1..] == payloads[i + 1..];
      assert out + (Frame(payloads[i]) + Encode(payloads[i + 1..]))
        == (out + len + payloads[i]) + Encode(payloads[i + 1..]);
      out := out + len;
      out := out + payloads[i];
    }
    assert payloads[|payloads|..] == [];
  }

  /** The reader loop, on everything the client will ever send: it takes exactly the complete frames before
      the end, or before a header that announces too much.  The server's own w is SERVER. */
  method ReadFrames(input: Bytes, w: Wire) returns (requests: seq<Bytes>)
    ensures requests == Deframe(input, w).frames
  {
    assert input[0..] == input;
    requests := ReadLoop(input, w, Deframe(input, w));
  }

  method ReadLoop(input: Bytes, w: Wire, ghost target: Scanned) returns (requests: seq<Bytes>)
    requires Progress(input, 0, [], Sound(w), target)
    ensures requests == target.frames
  {
    requests := [];
    var at := 0;
    while |input| - at >= 4
      invariant 0 <= at <= |input|
      invariant Progress(input, at, requests, Sound(w), target)
      decreases |input| - at
    {
      LoopTurns(input, at, requests, Sound(w), target);
      var n := w.length(input[at..at + 4]);
      if n > w.limit {
        return;
      }
      if |input| - at - 4 < n {
        return;
      }
      requests := requests + [input[at + 4..at + 4 + n]];
      at := at + 4 + n;
    }
    LoopEnds(input, at, requests, Sound(w), target);
  }

  lemma ServerReadsHeaders()
    ensures ReadsHeaders(SERVER)
  {
    forall h: Bytes | |h| == 4 ensures SERVER.length(h) == Length(h) {
      LengthsAgree(h);
    }
  }

  /** Requests within the limit reach the server whole and in order. */
  lemma RequestsArrive(payloads: seq<Bytes>)
    requires forall p <- payloads :: |p| <= MAX_FRAME_BYTES
    ensures Deframe(Encode(payloads), SERVER) == Scanned(payloads, [], Waiting)
  {
    ServerReadsHeaders();
    EncodedDeframes(payloads, [], SERVER);
    assert Encode(payloads) + [] == Encode(payloads) && payloads + [] == payloads;
  }
}
