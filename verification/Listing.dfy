/** Streamed directory listings (server/src/fs_handlers.rs, lisp/relay-prefetch.el): batches on the wire, their
    reassembly, and the modification time that lets a reconnect keep an old listing. */
module Listing {
  import opened Common

  const READDIR_CHUNK_SIZE := 2000

  // ---------------------------------------------------------------------------------------------
  // Batches

  /** A reply of one stream: `more` on every message but the last, which carries a modification time, if the
      path named anything when that was looked up. */
  datatype Msg = Chunk(entries: seq<string>) | Final(entries: seq<string>, key: Option<int>)

  function Batches(entries: seq<string>, key: Option<int>): seq<Msg> {
    if |entries| < READDIR_CHUNK_SIZE then [Final(entries, key)]
    else [Chunk(entries[..READDIR_CHUNK_SIZE])] + Batches(entries[READDIR_CHUNK_SIZE..], key)
  }

  function Entries(msgs: seq<Msg>): seq<string> {
    if msgs == [] then [] else msgs[0].entries + Entries(msgs[1..])
  }

  /** floor(n / 2000) + 1 messages, of which only the last lacks `more`, and together exactly the entries. */
  lemma {:induction false} BatchesAreWhole(entries: seq<string>, key: Option<int>)
    ensures var msgs := Batches(entries, key);
      && |msgs| == |entries| / READDIR_CHUNK_SIZE + 1
      && (forall i | 0 <= i < |msgs| :: msgs[i].Final? <==> i == |msgs| - 1)
      && msgs[|msgs| - 1].key == key
      && Entries(msgs) == entries
  {
    if |entries| >= READDIR_CHUNK_SIZE {
      var rest := entries[READDIR_CHUNK_SIZE..];
      BatchesAreWhole(rest, key);
      var msgs := Batches(entries, key);
      assert msgs[1..] == Batches(rest, key);
      assert entries == entries[..READDIR_CHUNK_SIZE] + rest;
      forall i | 0 <= i < |msgs| ensures msgs[i].Final? <==> i == |msgs| - 1 {
        if i > 0 { assert msgs[i] == Batches(rest, key)[i - 1]; }
      }
    } else {
      assert Batches(entries, key)[1..] == [];
    }
  }

  /** n is a number of full batches. */
  predicate Full(n: nat) { n == 0 || (n >= READDIR_CHUNK_SIZE && Full(n - READDIR_CHUNK_SIZE)) }

  lemma BatchesStep(first: seq<string>, rest: seq<string>, key: Option<int>)
    requires |first| == READDIR_CHUNK_SIZE
    ensures Batches(first + rest, key) == [Chunk(first)] + Batches(rest, key)
  {
    var all := first + rest;
    assert all[..READDIR_CHUNK_SIZE] == first && all[READDIR_CHUNK_SIZE..] == rest;
  }

  lemma {:induction false} BatchesOn(head: seq<string>, tail: seq<string>, key: Option<int>)
    requires Full(|head|)
    ensures Batches(head + tail, key) == Chunks(head) + Batches(tail, key)
    decreases |head|
  {
    if head == [] {
      assert head + tail == tail;
    } else {
      var first, rest := head[..READDIR_CHUNK_SIZE], head[READDIR_CHUNK_SIZE..];
      BatchesOn(rest, tail, key);
      BatchesStep(first, rest + tail, key);
      assert head + tail == first + (rest + tail);
      assert [Chunk(first)] + (Chunks(rest) + Batches(tail, key))
        == ([Chunk(first)] + Chunks(rest)) + Batches(tail, key);
    }
  }

  /** Full batches only. */
  function Chunks(entries: seq<string>): seq<Msg>
    requires Full(|entries|)
  {
    if entries == [] then []
    else [Chunk(entries[..READDIR_CHUNK_SIZE])] + Chunks(entries[READDIR_CHUNK_SIZE..])
  }

  lemma {:induction false} ChunksSnoc(entries: seq<string>, batch: seq<string>)
    requires Full(|entries|) && |batch| == READDIR_CHUNK_SIZE
    ensures Full(|entries + batch|) && Chunks(entries + batch) == Chunks(entries) + [Chunk(batch)]
    decreases |entries|
  {
    var n := READDIR_CHUNK_SIZE;
    if entries == [] {
      assert entries + batch == batch && batch[..n] == batch && batch[n..] == [];
    } else {
      ChunksSnoc(entries[n..], batch);
      assert (entries + batch)[..n] == entries[..n] && (entries + batch)[n..] == entries[n..] + batch;
    }
  }

  // ---------------------------------------------------------------------------------------------
  // Directories others change

  datatype Dir = Dir(names: set<string>, mtime: int)

  /** The directories there are, and a clock past every time given to one so far.  The path leads to `at`, or to no
      directory; if it is itself something else than a directory, a symbolic link above all, `link` is that thing's own
      modification time. */
  datatype State = State(dirs: map<nat, Dir>, at: Option<nat>, link: Option<int>, clock: int)

  predicate Valid(s: State) {
    (s.at.Some? ==> s.at.value in s.dirs) && forall d <- s.dirs :: s.dirs[d].mtime < s.clock
  }

  /** Every change of a directory's entries gives it a modification time it never had; the path may come to lead
      anywhere. */
  predicate Evolves(a: State, b: State) {
    && a.clock <= b.clock
    && forall d <- a.dirs :: d in b.dirs && (b.dirs[d] == a.dirs[d] || b.dirs[d].mtime >= a.clock)
  }

  lemma EvolvesOn(a: State, b: State, c: State)
    requires Evolves(a, b) && Evolves(b, c)
    ensures Evolves(a, c)
  {
  }

  /** Directory d has not changed between the two. */
  predicate Still(a: State, b: State, d: nat)
    requires d in a.dirs && d in b.dirs
  {
    b.dirs[d].mtime == a.dirs[d].mtime
  }

  /** The names a listing of the path should have. */
  function Names(s: State): set<string>
    requires Valid(s)
  {
    if s.at.Some? then s.dirs[s.at.value].names else {}
  }

  /** The path's modification time.  The look-up does not follow a final link; None stands for the empty attributes of
      a path that is missing. */
  function KeyOf(s: State): Option<int>
    requires Valid(s)
  {
    if s.link.Some? then s.link else if s.at.Some? then Some(s.dirs[s.at.value].mtime) else None
  }

  /** The test of `relay--revalidate-marked-on-connect`: the two keys are equal, those of empty attributes too. */
  predicate Reuses(key: Option<int>, s: State)
    requires Valid(s)
  {
    KeyOf(s) == key
  }

  /** The path is what it was, and leads where it led. */
  predicate SamePath(a: State, b: State) { a.at == b.at && a.link == b.link }

  /** From `now` on, as long as the path is not made anew: whenever the test passes for the key looked up at `captured`,
      the listing holds exactly the names it should. */
  ghost predicate Vouches(captured: State, now: State, entries: seq<string>)
    requires Valid(captured)
  {
    forall later: State |
      Valid(later) && Evolves(now, later) && SamePath(captured, later) && Reuses(KeyOf(captured), later) ::
      Exactly(entries, Names(later))
  }

  class Directory {
    var state: State
    /** An entry could not be read and was skipped. */
    var skipped: bool

    constructor (initial: State)
      requires Valid(initial)
      ensures state == initial && !skipped
    {
      state, skipped := initial, false;
    }

    method Interfere()
      requires Valid(state)
      modifies `state
      ensures Valid(state) && Evolves(old(state), state)
    {
      assert Evolves(state, state);
      var next: State :| Valid(next) && Evolves(state, next);
      state := next;
    }

    /** One entry of an enumeration of d that began at `first`.  While its entries stay as they were, each is
        given once; after a change anything may come, `left` times at most. */
    method NextEntry(first: State, d: nat, seen: set<string>, left: nat) returns (entry: Option<string>)
      requires Valid(state) && Evolves(first, state) && d in first.dirs
      modifies `state, `skipped
      ensures Valid(state) && Evolves(old(state), state) && Evolves(first, state) && (old(skipped) ==> skipped)
      ensures Still(first, state, d) && !skipped ==>
        if entry.Some? then entry.value in state.dirs[d].names - seen else state.dirs[d].names <= seen
      ensures entry.Some? && (!Still(first, state, d) || skipped) ==> left > 0
    {
      Interfere();
      EvolvesOn(first, old(state), state);
      if * {
        skipped := true;
      }
      if Still(first, state, d) && !skipped {
        if state.dirs[d].names <= seen {
          return None;
        }
        var name :| name in state.dirs[d].names && name !in seen;
        return Some(name);
      }
      if left == 0 {
        return None;
      }
      var name: string := *;
      return Some(name);
    }

    /** `readdir_stream`: the directory the path leads to is opened, then the path is looked up for its modification
        time, then the open directory is enumerated.  Nothing is sent if it cannot be opened.  Whatever others do, the
        listing holds exactly the names of the opened directory whenever that has the time it had at the look-up; so if
        the path was that directory itself then, the key sent vouches for the listing.  For VouchesExactly see below. */
    method ReaddirStream(bound: nat)
      returns (sent: seq<Msg>, ghost entries: seq<string>, ghost target: nat, ghost captured: State)
      requires Valid(state)
      modifies this
      ensures Valid(state) && Valid(captured) && Evolves(old(state), captured) && Evolves(captured, state)
      ensures sent != [] ==> target in captured.dirs && sent == Batches(entries, KeyOf(captured))
      ensures sent != [] && !skipped ==>
        forall later: State | Evolves(state, later) && Still(captured, later, target) ::
          Exactly(entries, later.dirs[target].names)
      ensures sent != [] && !skipped && captured.at == Some(target) && captured.link.None? ==>
        Vouches(captured, state, entries)
    {
      Interfere();
      sent, entries, target, captured := [], [], 0, state;
      assert Evolves(state, state);
      if state.at.None? {
        return;
      }
      var fd := state.at.value;
      ghost var atOpen := state;
      Interfere();
      captured, target := state, fd;
      EvolvesOn(old(state), atOpen, captured);
      sent, entries := Enumerate(fd, KeyOf(state), bound);
    }

    /** The enumeration of an open directory, in batches. */
    method Enumerate(fd: nat, key: Option<int>, bound: nat) returns (sent: seq<Msg>, ghost entries: seq<string>)
      requires Valid(state) && fd in state.dirs
      modifies this
      ensures Valid(state) && Evolves(old(state), state) && sent == Batches(entries, key) && sent != []
      ensures !skipped ==> forall later: State | Evolves(state, later) && Still(old(state), later, fd) ::
        Exactly(entries, later.dirs[fd].names)
    {
      var first := state;
      sent, entries := [], [];
      var batch: seq<string> := [];
      var seen: set<string> := {};
      var left := bound;
      var done := false;
      ghost var flushed: seq<string> := [];
      while !done
        invariant Valid(state) && Evolves(first, state)
        invariant Full(|flushed|) && |batch| < READDIR_CHUNK_SIZE
        invariant entries == flushed + batch && sent == Chunks(flushed)
        invariant Still(first, state, fd) && !skipped ==>
          && Distinct(entries) && seen <= state.dirs[fd].names && (forall e :: e in seen <==> e in entries)
          && (done ==> state.dirs[fd].names <= seen)
        decreases !done, if Still(first, state, fd) && !skipped then 1 else 0,
                  if Still(first, state, fd) && !skipped then |state.dirs[fd].names - seen| else left
      {
        var entry := NextEntry(first, fd, seen, left);
        if entry.None? {
          done := true;
        } else {
          if !Still(first, state, fd) || skipped {
            left := left - 1;
          }
          seen := seen + {entry.value};
          batch := batch + [entry.value];
          entries := entries + [entry.value];
          if |batch| >= READDIR_CHUNK_SIZE {
            ChunksSnoc(flushed, batch);
            sent := sent + [Chunk(batch)];
            flushed := flushed + batch;
            batch := [];
          }
        }
      }
      BatchesOn(flushed, batch, key);
      sent := sent + [Final(batch, key)];
    }
  }

  predicate Distinct(s: seq<string>) { forall i, j | 0 <= i < j < |s| :: s[i] != s[j] }

  /** Each name once. */
  ghost predicate Exactly(entries: seq<string>, names: set<string>) {
    Distinct(entries) && forall e :: e in entries <==> e in names
  }

  // ---------------------------------------------------------------------------------------------
  // Reconnecting

  lemma ExactlyOnce(entries: seq<string>, a: set<string>, b: set<string>)
    requires Exactly(entries, a)
    ensures Exactly(entries, b) <==> a == b
  {
    if Exactly(entries, b) {
      assert forall e :: e in a <==> e in entries;
    }
  }

  /** The path's directory d after the removal of a name. */
  function Removed(s: State, d: nat, gone: string): State
    requires d in s.dirs
  {
    s.(dirs := s.dirs[d := Dir(s.dirs[d].names - {gone}, s.clock)], clock := s.clock + 1)
  }

  /** First input: the path is a symbolic link.  Its own time is looked up, then and later, so a change of the directory
      it leads to, the very one that was listed, is never noticed. */
  lemma LinkedPathMisleads(s: State, d: nat, gone: string, entries: seq<string>)
    requires Valid(s) && s.link.Some? && s.at == Some(d)
    requires Exactly(entries, s.dirs[d].names) && gone in s.dirs[d].names
    ensures var later := Removed(s, d, gone);
      && Valid(later) && Evolves(s, later) && SamePath(s, later)
      && Reuses(KeyOf(s), later) && !Exactly(entries, Names(later))
  {
    assert gone in entries && gone !in Names(Removed(s, d, gone));
  }

  /** Second input: the opened directory was moved away before the look-up.  As long as the path stays missing its empty
      attributes pass the test. */
  lemma MissingPathMisleads(captured: State, later: State, entries: seq<string>)
    requires Valid(captured) && Valid(later) && captured.at.None? && captured.link.None? && SamePath(captured, later)
    ensures Reuses(KeyOf(captured), later)
    ensures Exactly(entries, Names(later)) <==> entries == []
  {
    if entries != [] {
      assert entries[0] in entries && entries[0] !in Names(later);
    }
  }

  /** Third input: the path leads to another directory by the time it is looked up.  As long as neither changes the test
      passes, and what it vouches for is right if and only if both happen to have the same names. */
  lemma ReboundPathMisleads(captured: State, later: State, target: nat, d: nat, entries: seq<string>)
    requires Valid(captured) && Valid(later) && Evolves(captured, later) && SamePath(captured, later)
    requires target in captured.dirs && captured.at == Some(d) && captured.link.None? && Still(captured, later, d)
    requires Exactly(entries, captured.dirs[target].names)
    ensures Reuses(KeyOf(captured), later)
    ensures Exactly(entries, Names(later)) <==> captured.dirs[target].names == captured.dirs[d].names
  {
    ExactlyOnce(entries, captured.dirs[target].names, captured.dirs[d].names);
  }

  /** The directory the path led to has changed since. */
  predicate Moved(captured: State, now: State) {
    captured.at.Some? && captured.at.value in captured.dirs && captured.at.value in now.dirs
    && !Still(captured, now, captured.at.value)
  }

  /** The path made anew: it leads to another directory, directly or by a link. */
  function Remade(s: State, other: nat, dir: Dir, link: Option<int>): State {
    s.(dirs := s.dirs[other := dir], at := Some(other), link := link)
  }

  /** Fourth input: what is made there has the very time of what was there, as a copy that keeps times has.  The test
      passes, and is right if and only if the names are the same. */
  lemma RemadePathMisleads(s: State, other: nat, dir: Dir, link: Option<int>, entries: seq<string>)
    requires Valid(s) && other !in s.dirs && dir.mtime < s.clock && Exactly(entries, Names(s))
    requires KeyOf(s) == if link.Some? then link else Some(dir.mtime)
    ensures var later := Remade(s, other, dir, link);
      && Valid(later) && Evolves(s, later) && Reuses(KeyOf(s), later)
      && (Exactly(entries, Names(later)) <==> dir.names == Names(s))
  {
    ExactlyOnce(entries, Names(s), dir.names);
  }

  /** Exactly when the key vouches for a listing that is not empty: if and only if the path was a directory itself, and
      either one with exactly the listed names, as the opened directory is, or one that has changed since, so that the
      test never passes again. */
  lemma VouchesExactly(captured: State, now: State, entries: seq<string>)
    requires Valid(captured) && Valid(now) && Evolves(captured, now) && entries != []
    ensures Vouches(captured, now, entries)
       <==> captured.link.None? && (Moved(captured, now) || Exactly(entries, Names(captured)))
  {
    var here := now.(at := captured.at, link := captured.link);
    assert Valid(here) && Evolves(now, here) && SamePath(captured, here);
    assert captured.link.Some? || !Moved(captured, now) ==> Reuses(KeyOf(captured), here);
    assert !Moved(captured, now) ==> Names(here) == Names(captured);
    if captured.link.Some? && Exactly(entries, Names(here)) {
      assert entries[0] in entries;
      LinkedPathMisleads(here, here.at.value, entries[0], entries);
      var later := Removed(here, here.at.value, entries[0]);
      assert Evolves(now, later) && SamePath(captured, later) && Reuses(KeyOf(captured), later);
    }
  }

  /** The order matters.  When a name that was already listed is removed before the enumeration ends, the time taken
      before it never passes the reconnect test again; a time taken after it passes, and vouches for the name. */
  lemma MtimeTakenAfterwardsMisleads(s: State, d: nat, gone: string, entries: seq<string>)
    requires Valid(s) && s.at == Some(d) && s.link.None? && gone in s.dirs[d].names && gone in entries
    ensures var ended := Removed(s, d, gone);
      && Valid(ended) && Evolves(s, ended)
      && (forall later: State | Valid(later) && Evolves(ended, later) && SamePath(s, later) :: !Reuses(KeyOf(s), later))
      && Reuses(KeyOf(ended), ended) && !Exactly(entries, Names(ended))
  {
    assert gone !in Names(Removed(s, d, gone));
  }

  // ---------------------------------------------------------------------------------------------
  // Reassembly at the client

  /** The streams being read, by id, with what has arrived; and what each finished one was answered. */
  datatype Inbox = Inbox(acc: map<nat, seq<string>>, done: map<nat, (seq<string>, Option<int>)>)

  /** The stream callbacks of `relay--readdir-stream`, behind the routing by id. */
  function Arrived(b: Inbox, id: nat, m: Msg): Inbox {
    if id !in b.acc then b
    else
      match m
      case Chunk(entries) => b.(acc := b.acc[id := b.acc[id] + entries])
      case Final(entries, key) =>
        Inbox(b.acc - {id}, b.done[id := (b.acc[id] + entries, key)])
  }

  function ArrivedAll(b: Inbox, wire: seq<(nat, Msg)>): Inbox
    decreases |wire|
  {
    if wire == [] then b else ArrivedAll(Arrived(b, wire[0].0, wire[0].1), wire[1..])
  }

  /** The messages of one stream. */
  function Stream(wire: seq<(nat, Msg)>, id: nat): seq<Msg> {
    if wire == [] then []
    else (if wire[0].0 == id then [wire[0].1] else []) + Stream(wire[1..], id)
  }

  predicate WellFormed(msgs: seq<Msg>) {
    msgs != [] && forall i | 0 <= i < |msgs| :: msgs[i].Final? <==> i == |msgs| - 1
  }

  lemma {:induction false} FinishedStays(b: Inbox, wire: seq<(nat, Msg)>, id: nat)
    requires id !in b.acc
    ensures var c := ArrivedAll(b, wire);
      id !in c.acc && (id in c.done <==> id in b.done) && (id in b.done ==> c.done[id] == b.done[id])
    decreases |wire|
  {
    if wire != [] {
      FinishedStays(Arrived(b, wire[0].0, wire[0].1), wire[1..], id);
    }
  }

  /** The stream id, read from b on, ends with what b had of it and then the messages' entries. */
  predicate Collected(b: Inbox, wire: seq<(nat, Msg)>, id: nat, msgs: seq<Msg>)
    requires id in b.acc && WellFormed(msgs)
  {
    var c := ArrivedAll(b, wire);
    id !in c.acc && id in c.done && c.done[id] == (b.acc[id] + Entries(msgs), msgs[|msgs| - 1].key)
  }

  lemma CollectFinal(b: Inbox, wire: seq<(nat, Msg)>, id: nat)
    requires wire != [] && wire[0].0 == id && wire[0].1.Final? && id in b.acc
    ensures Collected(b, wire, id, [wire[0].1])
  {
    var next := Arrived(b, id, wire[0].1);
    FinishedStays(next, wire[1..], id);
    assert [wire[0].1][1..] == [] && Entries([wire[0].1]) == wire[0].1.entries + Entries([]) == wire[0].1.entries;
  }

  lemma CollectChunk(b: Inbox, wire: seq<(nat, Msg)>, id: nat, msgs: seq<Msg>)
    requires wire != [] && wire[0].0 == id && wire[0].1.Chunk? && id in b.acc
    requires WellFormed(msgs) && WellFormed(msgs[1..]) && msgs[0] == wire[0].1
    requires msgs[|msgs| - 1] == msgs[1..][|msgs[1..]| - 1]
    requires Collected(Arrived(b, id, wire[0].1), wire[1..], id, msgs[1..])
    ensures Collected(b, wire, id, msgs)
  {
    Regroup(b.acc[id], msgs[0].entries, Entries(msgs[1..]));
  }

  lemma {:induction false} StreamIsCollected(b: Inbox, wire: seq<(nat, Msg)>, id: nat)
    requires id in b.acc && WellFormed(Stream(wire, id))
    ensures Collected(b, wire, id, Stream(wire, id))
    decreases |wire|
  {
    var msgs := Stream(wire, id);
    var next, rest := Arrived(b, wire[0].0, wire[0].1), wire[1..];
    if wire[0].0 != id {
      assert msgs == Stream(rest, id);
      StreamIsCollected(next, rest, id);
    } else {
      TailIsWellFormed(msgs);
      if wire[0].1.Final? {
        assert msgs == [wire[0].1];
        CollectFinal(b, wire, id);
      } else {
        assert msgs[1..] == Stream(rest, id);
        StreamIsCollected(next, rest, id);
        CollectChunk(b, wire, id, msgs);
      }
    }
  }

  lemma Regroup(a: seq<string>, b: seq<string>, c: seq<string>)
    ensures (a + b) + c == a + (b + c)
  {
  }

  lemma TailIsWellFormed(msgs: seq<Msg>)
    requires WellFormed(msgs)
    ensures if msgs[0].Final? then |msgs| == 1 && Entries(msgs) == msgs[0].entries
            else WellFormed(msgs[1..]) && msgs[|msgs| - 1] == msgs[1..][|msgs[1..]| - 1]
  {
    if msgs[0].Final? {
      assert msgs[1..] == [];
    } else {
      forall i | 0 <= i < |msgs[1..]| ensures msgs[1..][i].Final? <==> i == |msgs[1..]| - 1 {
        assert msgs[1..][i] == msgs[i + 1];
      }
    }
  }

  /** For every listing and every interleaving of its stream with other replies, the client ends with exactly
      the server's entries, in order, and the modification time that was taken for them. */
  lemma ListingArrives(b: Inbox, wire: seq<(nat, Msg)>, id: nat, entries: seq<string>, key: Option<int>)
    requires id in b.acc && b.acc[id] == [] && Stream(wire, id) == Batches(entries, key)
    ensures var c := ArrivedAll(b, wire); id !in c.acc && id in c.done && c.done[id] == (entries, key)
  {
    BatchesAreWhole(entries, key);
    StreamIsCollected(b, wire, id);
    assert [] + entries == entries;
  }
}
