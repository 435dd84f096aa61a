/** The synchronous save, conflict resolution and merge (lisp/relay-conflict.el), against a store other writers
    share and whose replies can be lost or whose writes can land late. */
module SyncSave {
  import opened Common
  import opened SaveState

  /** One of our writes took effect. */
  datatype Published = Published(file: FileId, expected: Rev, replaced: Option<Snap>, bytes: Bytes)

  /** A conditional write.  Without an expected revision the server refuses the request as malformed. */
  datatype Pending = Pending(file: FileId, expected: Option<Rev>, bytes: Bytes)

  /** One that was sent, its reply, and how many reads had been made by then. */
  datatype Sent = Sent(write: Pending, reply: Reply, fetched: nat)

  /** A pair the server really held together, or the empty missing state. */
  predicate RealIn(issued: map<nat, Bytes>, s: Snap) {
    match s.rev case Present(id) => id in issued && issued[id] == s.bytes case Missing => s.bytes == []
  }

  /** A write without a precondition is refused, or its reply is lost. */
  predicate RefusedUnlessWhole(sent: Sent) {
    sent.write.expected.None? ==> sent.reply.Broken? || sent.reply.Lost?
  }

  function Holds(files: map<FileId, Snap>, file: FileId): Option<Snap> {
    if file in files then Some(files[file]) else None
  }

  predicate Expected(files: map<FileId, Snap>, file: FileId, expected: Rev) {
    match expected
    case Missing => file !in files
    case Present(_) => file in files && files[file].rev == expected
  }

  class Store {
    var files: map<FileId, Snap>
    /** Every version any file ever had, by the id in its revision. */
    var issued: map<nat, Bytes>
    var nextId: nat
    /** Writes whose replies were lost and which may still land. */
    var late: set<Pending>
    ghost var log: seq<Published>
    /** Every BASE this client recorded and every REMOTE it fetched. */
    ghost var held: set<Snap>
    /** Every conditional write sent and its reply, and the result of every read. */
    ghost var sent: seq<Sent>
    ghost var fetches: seq<Option<Snap>>

    constructor ()
      ensures Valid() && log == [] && held == {} && sent == [] && fetches == []
    {
      files, issued, nextId, late, log, held, sent, fetches := map[], map[], 0, {}, [], {}, [], [];
    }

    ghost predicate Foreseen(expected: Rev)
      reads this
    {
      expected.Missing? || exists s <- held :: s.rev == expected
    }

    /** The store is sound, everything held is real, and nothing this client replaced was unknown to it. */
    ghost predicate Valid()
      reads this
    {
      && (forall f <- files :: files[f].rev.Present? && RealIn(issued, files[f]))
      && (forall id <- issued :: id < nextId)
      && (forall s <- held :: RealIn(issued, s))
      && (forall l <- late :: l.expected.Some? && Foreseen(l.expected.value))
      && (forall p <- log :: p.replaced.Some? ==> p.replaced.value in held)
    }

    /** What any other step leaves alone. */
    twostate predicate Grown()
      reads this
    {
      old(held) <= held && old(log) <= log
    }

    /** A new version of a file, by whoever. */
    method Install(file: FileId, bytes: Bytes)
      requires Valid()
      modifies `files, `issued, `nextId
      ensures Valid() && Grown() && files == old(files)[file := Snap(bytes, Present(old(nextId)))]
      ensures RealIn(issued, Snap(bytes, Present(old(nextId))))
    {
      issued := issued[nextId := bytes];
      files := files[file := Snap(bytes, Present(nextId))];
      nextId := nextId + 1;
    }

    /** One of our writes is served: the compare-and-swap. */
    method Serve(file: FileId, expected: Rev, bytes: Bytes) returns (matched: bool)
      requires Valid() && Foreseen(expected)
      modifies `files, `issued, `nextId, `log
      ensures Valid() && Grown()
      ensures matched == Expected(old(files), file, expected)
      ensures if matched then log == old(log) + [Published(file, expected, Holds(old(files), file), bytes)]
        else log == old(log)
      ensures matched ==> file in files && files[file].bytes == bytes
      ensures !matched ==> files == old(files)
    {
      matched := Expected(files, file, expected);
      if matched {
        ghost var p := Published(file, expected, Holds(files, file), bytes);
        if expected.Present? {
          ghost var s :| s in held && s.rev == expected;
          assert RealIn(issued, s) && s == files[file];
        }
        Install(file, bytes);
        log := log + [p];
      }
    }

    /** Others write and delete, and lost writes of ours land, any number of times. */
    method Interfere()
      requires Valid()
      modifies `files, `issued, `nextId, `log, `late
      ensures Valid() && Grown() && late <= old(late)
    {
      var steps: nat := *;
      while steps > 0
        invariant Valid() && Grown() && late <= old(late)
        decreases steps
      {
        var file: FileId := *;
        var bytes: Bytes := *;
        if * {
          Install(file, bytes);
        } else if * {
          files := files - {file};
        } else if late != {} {
          var l :| l in late;
          late := late - {l};
          var _ := Serve(l.file, l.expected.value, l.bytes);
        }
        steps := steps - 1;
      }
    }

    /** A conditional write and its reply.  Served, it reads back what it published; the reply can be lost
        before or after, or the write can land later.  Malformed, it is refused without an effect, or lost. */
    method Write(file: FileId, bytes: Bytes, expected: Option<Rev>) returns (reply: Reply)
      requires Valid() && (expected.Some? ==> Foreseen(expected.value))
      modifies this
      ensures Valid() && Grown() && !reply.Got?
      ensures sent == old(sent) + [Sent(Pending(file, expected, bytes), reply, |fetches|)] && fetches == old(fetches)
      ensures reply.Wrote? ==> expected.Some? && reply.rev.Present? && RealIn(issued, Snap(bytes, reply.rev))
      ensures RefusedUnlessWhole(Last(sent))
    {
      if expected.Some? {
        reply := Transmit(file, bytes, expected.value);
      } else {
        Interfere();
        reply := Broken;
        if * { reply := Lost; }
      }
      sent := sent + [Sent(Pending(file, expected, bytes), reply, |fetches|)];
    }

    method Transmit(file: FileId, bytes: Bytes, expected: Rev) returns (reply: Reply)
      requires Valid() && Foreseen(expected)
      modifies `files, `issued, `nextId, `log, `late
      ensures Valid() && Grown() && !reply.Got?
      ensures reply.Wrote? ==> reply.rev.Present? && RealIn(issued, Snap(bytes, reply.rev))
    {
      Interfere();
      if * {
        if * { late := late + {Pending(file, Some(expected), bytes)}; }
        return Lost;
      }
      var matched := Serve(file, expected, bytes);
      Interfere();
      var reason: Reason := *;
      if * { return Lost; }
      if * { return Broken; }
      if matched && file in files && files[file].bytes == bytes {
        return Wrote(files[file].rev);
      }
      return Refused(reason);
    }

    /** `relay-conflict--fetch`: None when it signals. */
    method Fetch(file: FileId) returns (remote: Option<Snap>)
      requires Valid()
      modifies this
      ensures Valid() && Grown() && sent == old(sent) && fetches == old(fetches) + [remote]
      ensures remote.Some? ==> remote.value in held && remote.value.rev.Present? && RealIn(issued, remote.value)
    {
      Interfere();
      remote := None;
      var answered: bool := *;
      if answered && file in files {
        held := held + {files[file]};
        remote := Some(files[file]);
      }
      fetches := fetches + [remote];
    }

    ghost method Record(s: Snap)
      requires Valid() && RealIn(issued, s)
      modifies `held
      ensures Valid() && held == old(held) + {s} && Grown()
    {
      held := held + {s};
    }
  }

  datatype Result =
    | Done(rev: Rev) | Conflicted(conflict: Conflict) | Retryable(remote: Snap) | Unclear(reason: Reason)
    | Adopted | SavedElsewhere | Cancelled | MergeStarted

  const GONE := Remote(Snap([], Missing), true)

  // ---------------------------------------------------------------------------------------------
  // Decisions

  /** `relay-conflict--classify` says convergent. */
  predicate Convergent(local: Bytes, remote: Option<Remote>) { remote.Some? && remote.value.snap.bytes == local }

  /** REMOTE after a refusal, from the read that follows it. */
  function Shown(reason: Reason, fetched: Option<Snap>): Option<Remote> {
    if fetched.Some? then Some(Remote(fetched.value, false)) else if reason.Deleted? then Some(GONE) else None
  }

  /** The revision a save expects: BASE's, or in an explicit retry of the same BASE and LOCAL the one the
      ambiguity read proved to hold BASE's bytes. */
  function SaveExpects(state: Option<Conflict>, base: Option<Snap>, local: Bytes): Option<Rev> {
    if state.Some? && state.value.tag.Retry? && state.value.base == base && state.value.local == Some(local)
      && state.value.remote.Some?
    then Some(state.value.remote.value.snap.rev) else BaseRev(base)
  }

  /** What a save concludes from the reply to its one write and the one read that may follow. */
  function SaveConcludes(base: Option<Snap>, local: Bytes, reply: Reply, fetched: Option<Snap>): Result {
    match reply
    case Wrote(rev) => Done(rev)
    case Lost =>
      if fetched.None? then Unclear(Transport)
      else (match ReconcileUncertain(BaseBytes(base), Some(local), fetched.value.bytes)
            case Matches => Done(fetched.value.rev)
            case RetryAtBase => Retryable(fetched.value)
            case Third =>
              Conflicted(Conflict(NoTag, Changed, base, Some(local), Some(Remote(fetched.value, false)))))
    case Refused(reason) => RefusalConcludes(base, local, reason, Shown(reason, fetched))
    case _ => Unclear(ClientError)
  }

  function RefusalConcludes(base: Option<Snap>, local: Bytes, reason: Reason, remote: Option<Remote>): Result {
    if Convergent(local, remote) then Done(remote.value.snap.rev)
    else Conflicted(Conflict(NoTag, reason, base, Some(local), remote))
  }

  /** `relay-conflict--fresh-conflict`. */
  function Refreshed(snapshot: Conflict, reason: Reason, fetched: Option<Snap>): Conflict {
    if Shown(reason, fetched).Some?
    then Conflict(NoTag, reason, snapshot.base, snapshot.local, Shown(reason, fetched)) else snapshot
  }

  function ResolveConcludes(snapshot: Conflict, choice: Choice, reply: Reply, fetched: Option<Snap>): Result {
    match reply
    case Wrote(rev) => if choice.SaveAs? then SavedElsewhere else Done(rev)
    case Refused(reason) => Conflicted(Refreshed(snapshot, reason, fetched))
    case _ => Unclear(Transport)
  }

  /** The token a choice works against; a conflict whose read failed has none. */
  function RemoteRev(snapshot: Conflict): Option<Rev> {
    if snapshot.remote.Some? then Some(snapshot.remote.value.snap.rev) else None
  }

  /** The state a refused merge leaves. */
  function MergeRefused(snapshot: Conflict, live: Bytes, reason: Reason, remote: Option<Remote>): Conflict {
    Conflict(NoTag, reason, snapshot.base, Some(live), FirstOf(remote, snapshot.remote))
  }

  function AsRemote(fetched: Option<Snap>): Option<Remote> {
    if fetched.Some? then Some(Remote(fetched.value, false)) else None
  }

  function MergeConcludes(snapshot: Conflict, merged: Bytes, live: Bytes, reply: Reply, fetched: Option<Snap>): Result {
    match reply
    case Wrote(rev) => Done(rev)
    case Lost =>
      if fetched.Some? && fetched.value.bytes == merged then Done(fetched.value.rev)
      else Conflicted(MergeRefused(snapshot, live, Transport, AsRemote(fetched)))
    case _ =>
      var newer := Refreshed(snapshot, if reply.Refused? then reply.reason else Changed, fetched);
      Conflicted(MergeRefused(newer, live, newer.reason, newer.remote))
  }

  function Last<T>(s: seq<T>): T
    requires s != []
  {
    s[|s| - 1]
  }

  /** The read that followed the write, if one did. */
  function LastFetch(before: nat, fetches: seq<Option<Snap>>): Option<Snap> {
    if |fetches| > before then Last(fetches) else None
  }

  class SyncBuffer {
    const store: Store
    const file: FileId
    var bytes: Bytes
    var modified: bool
    var base: Option<Snap>
    var state: Option<Conflict>
    /** A read that has not become BASE yet. */
    var pendingRead: Option<Snap>

    constructor (store: Store, file: FileId, bytes: Bytes)
      requires store.Valid()
      ensures Valid() && this.store == store && this.file == file && this.bytes == bytes && base.None? && state.None?
    {
      this.store, this.file, this.bytes := store, file, bytes;
      modified, base, state, pendingRead := true, None, None, None;
    }

    ghost predicate Known(s: Snap)
      reads store
    {
      s in store.held
    }

    /** A conflict's BASE and REMOTE were held; a retry's REMOTE has BASE's bytes. */
    ghost predicate KnownConflict(k: Conflict)
      reads store
    {
      && (k.base.Some? ==> Known(k.base.value))
      && (k.remote.Some? ==> if k.remote.value.deleted then k.remote.value == GONE else Known(k.remote.value.snap))
      && (k.tag.Retry? ==>
            k.base.Some? && k.remote.Some? && !k.remote.value.deleted
              && k.remote.value.snap.bytes == k.base.value.bytes)
    }

    ghost predicate Valid()
      reads this, store
    {
      && store.Valid()
      && (base.Some? ==> Known(base.value))
      && (state.Some? ==> KnownConflict(state.value))
      && (pendingRead.Some? ==> Known(pendingRead.value))
      && (!modified ==> base.Some? && base.value.bytes == bytes)
    }

    method Edit(text: Bytes)
      requires Valid()
      modifies this
      ensures Valid() && bytes == text && modified && base == old(base) && state == old(state)
    {
      bytes, modified := text, true;
    }

    /** `relay-conflict--record-base`. */
    method RecordBase(b: Bytes, rev: Rev)
      requires Valid() && RealIn(store.issued, Snap(b, rev)) && (modified || b == bytes)
      modifies `base, store`held
      ensures Valid() && store.Grown() && base == Some(Snap(b, rev))
    {
      store.Record(Snap(b, rev));
      base := Some(Snap(b, rev));
    }

    /** `relay-conflict--replace-live`. */
    method ReplaceLive(b: Bytes, rev: Rev)
      requires Valid() && RealIn(store.issued, Snap(b, rev))
      modifies this, store`held
      ensures Valid() && store.Grown() && base == Some(Snap(b, rev)) && bytes == b && !modified && state.None?
    {
      bytes, modified := b, true;
      RecordBase(b, rev);
      state, modified := None, false;
    }

    /** The BASE a save works from: the buffer's, else its own earlier read, else what the first read found when
        `fetched` had been made before. */
    ghost function BaseOf(was: Option<Snap>, pending: Option<Snap>, fetched: nat): Option<Snap>
      reads store
    {
      if was.Some? then was else if pending.Some? then pending
      else if fetched < |store.fetches| then store.fetches[fetched] else None
    }

    /** A buffer without BASE takes its own earlier read for one, or reads once. */
    method EstablishBase()
      requires Valid()
      modifies this, store
      ensures Valid() && store.Grown() && store.sent == old(store.sent)
      ensures bytes == old(bytes) && modified == old(modified) && state == old(state)
      ensures base == BaseOf(old(base), old(pendingRead), |old(store.fetches)|) && old(store.fetches) <= store.fetches
      ensures |store.fetches| == |old(store.fetches)| + if old(base).None? && old(pendingRead).None? then 1 else 0
    {
      if base.None? && pendingRead.Some? {
        RecordBase(pendingRead.value.bytes, pendingRead.value.rev);
        pendingRead := None;
      }
      if base.None? {
        var remote := store.Fetch(file);
        if remote.Some? {
          RecordBase(remote.value.bytes, remote.value.rev);
        }
      }
    }

    /** `relay-conflict--save-internal`.  Exactly one write is sent, of LOCAL, expecting the revision the save is
        entitled to, and it is never repeated; BASE advances exactly when the save is confirmed, to LOCAL with a
        revision the server held it under.  The guard against a missing BASE drops its own result: the save goes on
        and sends a write that expects nothing, which the server refuses. */
    method SaveInternal() returns (result: Result)
      requires Valid()
      modifies this, store
      ensures Valid() && store.Grown() && bytes == old(bytes)
      ensures var known := BaseOf(old(base), old(pendingRead), |old(store.fetches)|);
        Confirms(old(store.sent), old(modified), old(state), known, result)
      ensures result.Done? || modified == old(modified)
    {
      EstablishBase();
      var expected := BaseRev(base);
      if state.Some? && state.value.tag.Retry? && state.value.remote.Some? && state.value.base == base
        && state.value.local == Some(bytes) {
        expected := Some(state.value.remote.value.snap.rev);
      }
      result := Attempt(base, bytes, expected);
    }

    /** One write went out, as SaveExpects says, and the outcome is what SaveConcludes says of its reply and of
        the one read that followed it. */
    ghost predicate Confirms(before: seq<Sent>, wasModified: bool, was: Option<Conflict>, known: Option<Snap>,
                             result: Result)
      reads this, store
    {
      && |store.sent| == |before| + 1 && before <= store.sent
      && var sent := Last(store.sent);
      && sent.write == Pending(file, SaveExpects(was, known, bytes), bytes) && RefusedUnlessWhole(sent)
      && |store.fetches| <= sent.fetched + 1
      && result == SaveConcludes(known, bytes, sent.reply, LastFetch(sent.fetched, store.fetches))
      && (if result.Done? then base == Some(Snap(bytes, result.rev)) && !modified
          else base == known && modified == wasModified)
      && state == (if result.Conflicted? then Some(result.conflict)
                   else if result.Done? && !sent.reply.Lost? then None else was)
      && (result.Retryable? ==> known.Some? && Known(result.remote) && result.remote.rev.Present?)
    }

    /** The one write, and what its reply says. */
    method Attempt(known: Option<Snap>, local: Bytes, expected: Option<Rev>) returns (result: Result)
      requires Valid() && base == known && local == bytes && (expected.Some? ==> store.Foreseen(expected.value))
      modifies this, store
      ensures Valid() && store.Grown() && bytes == old(bytes)
      ensures |store.sent| == |old(store.sent)| + 1 && old(store.sent) <= store.sent
      ensures Last(store.sent).write == Pending(file, expected, local) && RefusedUnlessWhole(Last(store.sent))
        && Last(store.sent).fetched == |old(store.fetches)|
      ensures |store.fetches| <= |old(store.fetches)| + 1 && old(store.fetches) <= store.fetches
      ensures result == SaveConcludes(known, local, Last(store.sent).reply,
                                      LastFetch(|old(store.fetches)|, store.fetches))
      ensures if result.Done? then base == Some(Snap(local, result.rev)) && !modified
        else base == known && modified == old(modified)
      ensures state == if result.Conflicted? then Some(result.conflict)
                       else if result.Done? && !Last(store.sent).reply.Lost? then None else old(state)
      ensures result.Retryable? ==> known.Some? && Known(result.remote) && result.remote.rev.Present?
    {
      var reply := store.Write(file, local, expected);
      result := Conclude(known, local, reply);
    }

    method Conclude(known: Option<Snap>, local: Bytes, reply: Reply) returns (result: Result)
      requires Valid() && base == known && local == bytes && !reply.Got?
      requires reply.Wrote? ==> RealIn(store.issued, Snap(local, reply.rev))
      modifies this, store
      ensures Valid() && store.Grown() && bytes == old(bytes) && store.sent == old(store.sent)
      ensures |store.fetches| <= |old(store.fetches)| + 1 && old(store.fetches) <= store.fetches
      ensures result == SaveConcludes(known, local, reply, LastFetch(|old(store.fetches)|, store.fetches))
      ensures if result.Done? then base == Some(Snap(local, result.rev)) && !modified
        else base == known && modified == old(modified)
      ensures state == if result.Conflicted? then Some(result.conflict)
                       else if result.Done? && !reply.Lost? then None else old(state)
      ensures result.Retryable? ==> known.Some? && Known(result.remote) && result.remote.rev.Present?
    {
      if reply.Wrote? {
        modified := true;
        RecordBase(local, reply.rev);
        state, modified := None, false;
        result := Done(reply.rev);
      } else if reply.Lost? {
        result := Reconcile(known, local);
      } else if reply.Refused? {
        result := Refusal(known, local, reply.reason);
      } else {
        result := Unclear(ClientError);
      }
    }

    /** After a lost reply: one read, no second write. */
    method Reconcile(known: Option<Snap>, local: Bytes) returns (result: Result)
      requires Valid() && base == known && local == bytes
      modifies this, store
      ensures Valid() && store.Grown() && store.sent == old(store.sent) && bytes == old(bytes)
      ensures |store.fetches| == |old(store.fetches)| + 1 && old(store.fetches) <= store.fetches
      ensures result == SaveConcludes(known, local, Lost, Last(store.fetches))
      ensures if result.Done? then base == Some(Snap(local, result.rev)) && !modified
        else base == known && modified == old(modified)
      ensures state == if result.Conflicted? then Some(result.conflict) else old(state)
      ensures result.Retryable? ==> known.Some? && Known(result.remote) && result.remote.rev.Present?
    {
      var remote := store.Fetch(file);
      if remote.None? {
        return Unclear(Transport);
      }
      if local == remote.value.bytes {
        modified := true;
        RecordBase(local, remote.value.rev);
        modified := false;
        return Done(remote.value.rev);
      }
      if known.Some? && known.value.bytes == remote.value.bytes {
        return Retryable(remote.value);
      }
      var conflict := Conflict(NoTag, Changed, base, Some(bytes), Some(Remote(remote.value, false)));
      state := Some(conflict);
      return Conflicted(conflict);
    }

    /** After a refusal. */
    method Refusal(known: Option<Snap>, local: Bytes, reason: Reason) returns (result: Result)
      requires Valid() && base == known && local == bytes
      modifies this, store
      ensures Valid() && store.Grown() && store.sent == old(store.sent) && bytes == old(bytes)
      ensures |store.fetches| == |old(store.fetches)| + 1 && old(store.fetches) <= store.fetches
      ensures result == RefusalConcludes(known, local, reason, Shown(reason, Last(store.fetches)))
      ensures if result.Done? then base == Some(Snap(local, result.rev)) && !modified && state.None?
              else base == known && modified == old(modified) && state == Some(result.conflict)
    {
      var fetched := store.Fetch(file);
      var remote := Shown(reason, fetched);
      if Convergent(local, remote) {
        ReplaceLive(remote.value.snap.bytes, remote.value.snap.rev);
        return Done(remote.value.snap.rev);
      }
      var conflict := Conflict(NoTag, reason, base, Some(bytes), remote);
      state := Some(conflict);
      return Conflicted(conflict);
    }

    /** `relay-conflict--save`: an unresolved outcome is remembered for the explicit retry. */
    method Save() returns (result: Result)
      requires Valid()
      modifies this, store
      ensures Valid() && store.Grown() && bytes == old(bytes)
      ensures |store.sent| == |old(store.sent)| + 1
      ensures result.Done? ==> base == Some(Snap(bytes, result.rev)) && !modified
      ensures !result.Done? ==> modified == old(modified) && (old(base).Some? ==> base == old(base))
      ensures result.Retryable? ==>
        state == Some(Conflict(Retry, Transport, base, Some(bytes), Some(Remote(result.remote, false))))
      ensures result.Unclear? ==> state == Some(Conflict(Uncertain, result.reason, base, Some(bytes), None))
      ensures result.Conflicted? ==> state == Some(result.conflict) && result.conflict.local == Some(bytes)
    {
      result := SaveInternal();
      if result.Retryable? {
        state := Some(Conflict(Retry, Transport, base, Some(bytes), Some(Remote(result.remote, false))));
      } else if result.Unclear? {
        state := Some(Conflict(Uncertain, result.reason, base, Some(bytes), None));
      }
    }

    /** `relay-conflict--fresh-conflict`. */
    method FreshConflict(snapshot: Conflict, reason: Reason) returns (newer: Conflict)
      requires Valid() && KnownConflict(snapshot)
      modifies store
      ensures Valid() && KnownConflict(newer) && store.Grown() && store.sent == old(store.sent)
      ensures |store.fetches| == |old(store.fetches)| + 1 && old(store.fetches) <= store.fetches
      ensures newer == Refreshed(snapshot, reason, Last(store.fetches))
    {
      var remote := store.Fetch(file);
      if remote.Some? {
        return Conflict(NoTag, reason, snapshot.base, snapshot.local, Some(Remote(remote.value, false)));
      }
      if reason.Deleted? {
        return Conflict(NoTag, reason, snapshot.base, snapshot.local, Some(GONE));
      }
      return snapshot;
    }

    /** `relay-conflict--resolve`, always against the REMOTE the user was shown.  Its caller passes the conflict
        the save has just captured. */
    method Resolve(snapshot: Conflict, choice: Choice, saveAs: FileId) returns (result: Result)
      requires Valid() && KnownConflict(snapshot) && snapshot.local.Some?
      requires choice.RestoreBase? ==> snapshot.base.Some?
      requires modified || snapshot.local == Some(bytes)
      modifies this, store
      ensures Valid() && store.Grown()
      ensures choice.Cancel? ==> result == Cancelled && state == Some(snapshot)
      ensures choice.Merge? ==> result == MergeStarted && state == old(state)
      ensures choice.KeepRemote? ==>
        && result == Adopted && !modified && state.None? && bytes == base.value.bytes
        && base == Some(if snapshot.remote.Some? then snapshot.remote.value.snap else GONE.snap)
      ensures choice.KeepLocal? || choice.RestoreBase? || choice.SaveAs? ==>
        Resolves(snapshot, choice, saveAs, old(store.sent), |old(store.fetches)|, result)
      ensures choice.Cancel? || choice.Merge? || choice.KeepRemote? ==> store.sent == old(store.sent)
      ensures !result.Done? && !result.Adopted? ==>
        base == old(base) && bytes == old(bytes) && modified == old(modified)
    {
      match choice {
        case Cancel =>
          state := Some(snapshot);
          return Cancelled;
        case KeepRemote =>
          var adopted := if snapshot.remote.Some? then snapshot.remote.value.snap else GONE.snap;
          ReplaceLive(adopted.bytes, adopted.rev);
          return Adopted;
        case Merge =>
          return MergeStarted;
        case _ =>
          result := Publish(snapshot, choice, saveAs);
      }
    }

    /** The write a choice sends, and where it leads. */
    ghost predicate Resolves(snapshot: Conflict, choice: Choice, saveAs: FileId, before: seq<Sent>, fetched: nat,
                             result: Result)
      requires snapshot.local.Some? && (choice.RestoreBase? ==> snapshot.base.Some?)
      reads this, store
    {
      var chosen := if choice.RestoreBase? then snapshot.base.value.bytes else snapshot.local.value;
      && |store.sent| == |before| + 1
      && Last(store.sent).write == (if choice.SaveAs? then Pending(saveAs, Some(Missing), chosen)
                                    else Pending(file, RemoteRev(snapshot), chosen))
      && RefusedUnlessWhole(Last(store.sent))
      && result == ResolveConcludes(snapshot, choice, Last(store.sent).reply, LastFetch(fetched, store.fetches))
      && (result.Done? ==>
            base == Some(Snap(chosen, result.rev)) && state.None? && (choice.RestoreBase? ==> bytes == chosen))
      && (result.Conflicted? ==> state == Some(result.conflict))
      && (result.SavedElsewhere? || result.Unclear? ==> state == Some(snapshot))
    }

    /** Keep Local, Restore Base and Save As. */
    method Publish(snapshot: Conflict, choice: Choice, saveAs: FileId) returns (result: Result)
      requires Valid() && KnownConflict(snapshot) && snapshot.local.Some?
      requires choice.RestoreBase? ==> snapshot.base.Some?
      requires modified || snapshot.local == Some(bytes)
      requires choice.KeepLocal? || choice.RestoreBase? || choice.SaveAs?
      modifies this, store
      ensures Valid() && store.Grown()
      ensures Resolves(snapshot, choice, saveAs, old(store.sent), |old(store.fetches)|, result)
      ensures !result.Adopted?
        && (!result.Done? ==> base == old(base) && bytes == old(bytes) && modified == old(modified))
    {
      var chosen := if choice.RestoreBase? then snapshot.base.value.bytes else snapshot.local.value;
      var reply;
      if choice.SaveAs? {
        reply := store.Write(saveAs, chosen, Some(Missing));
      } else {
        reply := store.Write(file, chosen, RemoteRev(snapshot));
      }
      result := ConcludeChoice(snapshot, choice, chosen, reply);
    }

    method ConcludeChoice(snapshot: Conflict, choice: Choice, chosen: Bytes, reply: Reply) returns (result: Result)
      requires Valid() && KnownConflict(snapshot) && !reply.Got?
      requires reply.Wrote? ==> RealIn(store.issued, Snap(chosen, reply.rev))
      requires modified || choice.RestoreBase? || choice.SaveAs? || bytes == chosen
      modifies this, store
      ensures Valid() && store.Grown() && store.sent == old(store.sent)
      ensures result == ResolveConcludes(snapshot, choice, reply, LastFetch(|old(store.fetches)|, store.fetches))
      ensures result.Done? ==>
        base == Some(Snap(chosen, result.rev)) && state.None? && (choice.RestoreBase? ==> bytes == chosen)
      ensures !result.Done? ==> base == old(base) && bytes == old(bytes) && modified == old(modified)
      ensures !result.Done? ==> state == Some(if result.Conflicted? then result.conflict else snapshot)
    {
      if reply.Wrote? {
        if choice.SaveAs? {
          state := Some(snapshot);
          result := SavedElsewhere;
        } else {
          Confirm(chosen, reply.rev, choice.RestoreBase?);
          result := Done(reply.rev);
        }
      } else if reply.Refused? {
        var newer := FreshConflict(snapshot, reply.reason);
        state := Some(newer);
        result := Conflicted(newer);
      } else {
        state := Some(snapshot);
        result := Unclear(Transport);
      }
    }

    /** A confirmed Keep Local or Restore Base. */
    method Confirm(chosen: Bytes, rev: Rev, restore: bool)
      requires Valid() && RealIn(store.issued, Snap(chosen, rev)) && (modified || restore || bytes == chosen)
      modifies this, store`held
      ensures Valid() && store.Grown() && base == Some(Snap(chosen, rev)) && state.None?
      ensures if restore then bytes == chosen && !modified else bytes == old(bytes) && (bytes == chosen ==> !modified)
    {
      if restore {
        ReplaceLive(chosen, rev);
      } else {
        RecordBase(chosen, rev);
        state := None;
        if bytes == chosen {
          modified := false;
        }
      }
    }

    /** `relay-conflict--merge-refusal`. */
    method MergeRefusal(snapshot: Conflict, reason: Reason, remote: Option<Remote>) returns (result: Result)
      requires Valid() && KnownConflict(snapshot)
      requires remote.Some? ==> if remote.value.deleted then remote.value == GONE else Known(remote.value.snap)
      modifies `state
      ensures Valid() && result == Conflicted(MergeRefused(snapshot, bytes, reason, remote))
        && state == Some(result.conflict)
    {
      var conflict := Conflict(NoTag, reason, snapshot.base, Some(bytes), FirstOf(remote, snapshot.remote));
      state := Some(conflict);
      return Conflicted(conflict);
    }

    /** `relay-conflict--apply-merge`: nothing is written unless the buffer still shows the LOCAL that was merged
        and the server still has the REMOTE that was merged. */
    method ApplyMerge(snapshot: Conflict, merged: Bytes) returns (result: Result)
      requires Valid() && KnownConflict(snapshot) && snapshot.remote.Some?
      modifies this, store
      ensures Valid() && store.Grown()
      ensures snapshot.local != Some(old(bytes)) ==>
        store.fetches == old(store.fetches)
          && result == Conflicted(MergeRefused(snapshot, old(bytes), LiveChanged, None))
      ensures snapshot.local == Some(old(bytes)) ==> |store.fetches| > |old(store.fetches)|
      ensures |store.sent| == |old(store.sent)| + 1 <==>
        && snapshot.local == Some(old(bytes)) && store.fetches[|old(store.fetches)|].Some?
        && store.fetches[|old(store.fetches)|].value.rev == snapshot.remote.value.snap.rev
      ensures |store.sent| == |old(store.sent)| + 1 ==>
        && Last(store.sent).write == Pending(file, Some(snapshot.remote.value.snap.rev), merged)
        && result == MergeConcludes(snapshot, merged, old(bytes), Last(store.sent).reply,
                                    LastFetch(|old(store.fetches)| + 1, store.fetches))
      ensures |store.sent| != |old(store.sent)| + 1 ==> store.sent == old(store.sent) && result.Conflicted?
      ensures result.Done? ==> base == Some(Snap(merged, result.rev)) && bytes == merged && !modified && state.None?
      ensures !result.Done? ==>
        && result.Conflicted? && base == old(base) && bytes == old(bytes) && modified == old(modified)
        && state == Some(result.conflict)
    {
      if snapshot.local != Some(bytes) {
        result := MergeRefusal(snapshot, LiveChanged, None);
        return;
      }
      var fetched := store.Fetch(file);
      if fetched.None? {
        result := MergeRefusal(snapshot, Transport, None);
      } else if fetched.value.rev != snapshot.remote.value.snap.rev {
        result := MergeRefusal(snapshot, Changed, Some(Remote(fetched.value, false)));
      } else {
        result := PublishMerge(snapshot, merged);
      }
    }

    /** The one write of a merge. */
    method PublishMerge(snapshot: Conflict, merged: Bytes) returns (result: Result)
      requires Valid() && KnownConflict(snapshot) && snapshot.remote.Some?
      modifies this, store
      ensures Valid() && store.Grown() && old(store.fetches) <= store.fetches
      ensures |store.sent| == |old(store.sent)| + 1
        && Last(store.sent).write == Pending(file, Some(snapshot.remote.value.snap.rev), merged)
      ensures result == MergeConcludes(snapshot, merged, old(bytes), Last(store.sent).reply,
                                       LastFetch(|old(store.fetches)|, store.fetches))
      ensures result.Done? ==> base == Some(Snap(merged, result.rev)) && bytes == merged && !modified && state.None?
      ensures !result.Done? ==>
        && result.Conflicted? && base == old(base) && bytes == old(bytes) && modified == old(modified)
        && state == Some(result.conflict)
    {
      var reply := store.Write(file, merged, Some(snapshot.remote.value.snap.rev));
      if reply.Wrote? {
        ReplaceLive(merged, reply.rev);
        result := Done(reply.rev);
      } else if reply.Lost? {
        result := VerifyMerge(snapshot, merged);
      } else {
        var newer := FreshConflict(snapshot, if reply.Refused? then reply.reason else Changed);
        result := MergeRefusal(newer, newer.reason, newer.remote);
      }
    }

    /** After a lost reply to a merge's write. */
    method VerifyMerge(snapshot: Conflict, merged: Bytes) returns (result: Result)
      requires Valid() && KnownConflict(snapshot)
      modifies this, store
      ensures Valid() && store.Grown() && store.sent == old(store.sent)
      ensures |store.fetches| == |old(store.fetches)| + 1 && old(store.fetches) <= store.fetches
      ensures result == MergeConcludes(snapshot, merged, old(bytes), Lost, Last(store.fetches))
      ensures result.Done? ==> base == Some(Snap(merged, result.rev)) && bytes == merged && !modified && state.None?
      ensures !result.Done? ==>
        && result.Conflicted? && base == old(base) && bytes == old(bytes) && modified == old(modified)
        && state == Some(result.conflict)
    {
      var after := store.Fetch(file);
      if after.Some? && after.value.bytes == merged {
        ReplaceLive(merged, after.value.rev);
        result := Done(after.value.rev);
      } else {
        result := MergeRefusal(snapshot, Transport, AsRemote(after));
      }
    }

    /** `relay-conflict--auto-revert`: only a buffer that shows BASE is replaced. */
    method AutoRevert(enabled: bool) returns (reverted: bool)
      requires Valid()
      modifies this, store
      ensures Valid() && store.Grown() && store.sent == old(store.sent)
      ensures |store.fetches| > |old(store.fetches)| <==>
        enabled && old(base).Some? && old(base).value.bytes == old(bytes)
      ensures reverted <==> LastFetch(|old(store.fetches)|, store.fetches).Some?
      ensures reverted ==>
        base == Last(store.fetches) && base.Some? && bytes == base.value.bytes && !modified && state.None?
      ensures !reverted ==> bytes == old(bytes) && base == old(base) && modified == old(modified) && state == old(state)
    {
      if !enabled || base.None? || bytes != base.value.bytes {
        return false;
      }
      var remote := store.Fetch(file);
      if remote.None? {
        return false;
      }
      ReplaceLive(remote.value.bytes, remote.value.rev);
      return true;
    }
  }
}
