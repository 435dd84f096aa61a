/** The buffer-local variables of the save machine, updated step by step as the source does.  Every
    method is proved to take the state where the functions of SaveState.dfy say, so what
    SaveControl.dfy and SaveStore.dfy prove of those functions holds of this code. */
module SaveBuffer {
  import opened Common
  import opened SaveState
  import opened SaveControl

  class Buffer {
    var live: bool
    var ident: Option<FileId>
    var bytes: Bytes
    var modified: bool
    var base: Option<Snap>
    var conflict: Option<Conflict>
    var active: Option<Op>
    var queued: Option<Op>
    var generation: nat
    var status: Status
    var merges: set<Conflict>
    /** Requests handed to the transport, with the callback each will run. */
    var calls: seq<Call>

    function State(): Client
      reads this
    {
      Client(live, ident, bytes, modified, base, conflict, active, queued, generation, status, merges, calls)
    }

    constructor (file: FileId, visited: Snap)
      ensures State() == Visited(file, visited) && Good(State())
    {
      live, ident, bytes, modified, base := true, Some(file), visited.bytes, false, Some(visited);
      conflict, active, queued, generation, status, merges, calls := None, None, None, 0, Idle, {}, [];
      new;
      VisitedIsGood(file, visited);
    }

    predicate OperationCurrent(op: Op)
      reads this
    {
      Current(State(), op)
    }

    // -------------------------------------------------------------------------------------------
    // Requests

    method FetchAsync(op: Op, stage: Stage, file: Option<FileId>)
      modifies this`calls
      ensures State() == Ask(old(State()), op, stage, file)
    {
      calls := calls + [Call(op, stage, Read(file))];
    }

    method DispatchOperation(captured: Op) returns (op: Op)
      modifies this
      ensures State() == Dispatch(old(State()), captured)
      ensures op == captured.(generation := generation)
    {
      generation := generation + 1;
      op := captured.(generation := generation);
      active := Some(op);
      status := Saving;
      modified := true;
      calls := calls + [Call(op, WriteDone, Write(Target(op), op.bytes, op.expected))];
    }

    // -------------------------------------------------------------------------------------------
    // Terminal steps

    method FinishNonsuccess(op: Op, end: Status, state: Option<Conflict>)
      modifies this
      ensures State() == NonSuccess(old(State()), op, end, state)
    {
      if live && OperationCurrent(op) {
        active := None;
        queued := None;
        if state.Some? { conflict := state; }
        modified := true;
        status := end;
      }
    }

    /** Ends the operation and records the refused merge as the conflict, from the live text. */
    method RecordRefusal(snapshot: Conflict, end: Status, reason: Reason, remote: Option<Remote>)
      modifies this
      ensures var k := Conflict(NoTag, reason, snapshot.base, Some(old(bytes)), FirstOf(remote, snapshot.remote));
              State() == old(State()).(active := None, queued := None, modified := true, status := end,
                                       conflict := Some(k))
    {
      active := None;
      queued := None;
      conflict := Some(Conflict(NoTag, reason, snapshot.base, Some(bytes),
                                FirstOf(remote, snapshot.remote)));
      modified := true;
      status := end;
    }

    method RefuseMerge(op: Op, end: Status, reason: Reason, remote: Option<Remote>)
      requires op.snapshot.Some?
      modifies this
      ensures State() == MergeRefusal(old(State()), op, end, reason, remote)
    {
      if live && (op.generation == 0 || OperationCurrent(op)) {
        RecordRefusal(op.snapshot.value, end, reason, remote);
      }
    }

    method CallbackSignalled(op: Op)
      requires op.merge ==> op.snapshot.Some?
      modifies this
      ensures State() == CallbackError(old(State()), op)
    {
      if op.merge {
        RefuseMerge(op, Unknown, ClientError, None);
      } else {
        FinishNonsuccess(op, Unknown,
                         Some(Conflict(Uncertain, ClientError, op.base, op.bytes, None)));
      }
    }

    /** Records BASE and clears the conflict, as every confirmed write of this file does. */
    method RecordBase(confirmed: Bytes, rev: Rev)
      modifies this`base, this`conflict
      ensures base == Some(Snap(confirmed, rev)) && conflict.None?
    {
      base := Some(Snap(confirmed, rev));
      conflict := None;
    }

    /** The text after `after-save-hook`; text a hook changed is modified again. */
    method RunAfterSaveHook(hooked: Bytes)
      modifies this`bytes, this`modified
      ensures bytes == hooked && modified == (old(modified) || hooked != old(bytes))
    {
      if hooked != bytes { modified := true; }
      bytes := hooked;
    }

    /** Restore Base confirmed: only now is LOCAL's text replaced. */
    method InstallRestored(op: Op, rev: Rev, hooked: Bytes)
      requires op.bytes.Some?
      modifies this
      ensures State() == InstallBase(old(State()), op, rev, hooked)
    {
      active := None;
      queued := None;
      bytes := op.bytes.value;
      RecordBase(op.bytes.value, rev);
      modified := false;
      RunAfterSaveHook(hooked);
      status := if bytes == op.bytes.value then Saved else SavedNewer;
    }

    method ConfirmOperation(op: Op, rev: Rev, hooked: Bytes)
      requires op.bytes.Some?
      modifies this
      ensures State() == Confirm(old(State()), op, rev, hooked)
    {
      var sameFile := SameIdent(op.ident, ident);
      var sameBytes := sameFile && bytes == op.bytes.value;
      active := None;
      queued := None;
      if sameFile { RecordBase(op.bytes.value, rev); }
      if sameBytes {
        modified := false;
        RunAfterSaveHook(hooked);
        if bytes != op.bytes.value { sameBytes := false; }
      } else {
        modified := true;
      }
      status := if sameBytes then Saved else SavedNewer;
    }

    method FinishOperation(op: Op, rev: Rev, hooked: Bytes)
      requires op.bytes.Some?
      modifies this
      ensures State() == FinishSuccess(old(State()), op, rev, hooked)
    {
      if !live || !OperationCurrent(op) { return; }
      if op.choice == Some(SaveAs) {
        // The original path remains conflicted; only the separate target is confirmed.
        active := None;
        queued := None;
        modified := true;
        status := InConflict;
      } else if op.choice == Some(RestoreBase) && SameIdent(op.ident, ident)
                && op.snapshot.Some? && op.snapshot.value.local == Some(bytes) {
        InstallRestored(op, rev, hooked);
      } else {
        var next := queued;
        var follows := next.Some? && SameIdent(op.ident, ident) && SameIdent(op.ident, next.value.ident);
        ConfirmOperation(op, rev, hooked);
        if follows {
          var confirmed := Snap(op.bytes.value, rev);
          var _ := DispatchOperation(next.value.(base := Some(confirmed), expected := Some(rev)));
        }
      }
    }

    /** The merged text replaces LOCAL only if nothing was typed or renamed meanwhile. */
    method InstallMerge(merged: Bytes, rev: Rev, sameFile: bool, installable: bool, hooked: Bytes)
      requires installable ==> sameFile
      modifies this
      ensures var d := old(State()).(active := None, queued := None);
              var e := if sameFile then d.(base := Some(Snap(merged, rev)), conflict := None) else d;
              State() == if installable
                         then e.(bytes := hooked, modified := hooked != merged,
                                 status := if hooked == merged then Saved else SavedNewer)
                         else e.(modified := true, status := SavedNewer)
    {
      active := None;
      queued := None;
      if sameFile { RecordBase(merged, rev); }
      if installable {
        bytes := merged;
        modified := false;
        RunAfterSaveHook(hooked);
        var newer := bytes != merged;
        if newer { modified := true; }
        status := if newer then SavedNewer else Saved;
      } else {
        modified := true;
        status := SavedNewer;
      }
    }

    method FinishMerge(op: Op, rev: Rev, hooked: Bytes)
      requires op.bytes.Some? && op.snapshot.Some?
      modifies this
      ensures State() == MergeSuccess(old(State()), op, rev, hooked)
    {
      if live && OperationCurrent(op) {
        var sameFile := SameIdent(op.ident, ident);
        InstallMerge(op.bytes.value, rev, sameFile, sameFile && op.snapshot.value.local == Some(bytes), hooked);
      }
    }

    // -------------------------------------------------------------------------------------------
    // Callbacks

    method ReplyToWrite(op: Op, reply: Reply, hooked: Bytes)
      requires op.bytes.Some? || !reply.Wrote?
      modifies this
      ensures State() == OnWriteDone(old(State()), op, reply, hooked)
    {
      if live && !OperationCurrent(op) { return; }
      match reply {
        case Wrote(rev) => FinishOperation(op, rev, hooked);
        case Lost => FetchAsync(op, Reconcile, Target(op));
        case Refused(reason) => FetchAsync(op, ConflictRead(reason), Target(op));
        case _ => FinishNonsuccess(op, Failed, None);
      }
    }

    method ReplyToReconcile(op: Op, reply: Reply, hooked: Bytes)
      modifies this
      ensures State() == OnReconcile(old(State()), op, reply, hooked)
    {
      if live && !OperationCurrent(op) { return; }
      if !reply.Got? {
        FinishNonsuccess(op, Unknown, None);
        return;
      }
      var remote := Remote(reply.snap, false);
      match ReconcileUncertain(BaseBytes(op.base), op.bytes, reply.snap.bytes) {
        case Matches => FinishOperation(op, reply.snap.rev, hooked);
        case RetryAtBase =>
          var state := Conflict(Retry, BaseUnmoved, op.base, op.bytes, Some(remote));
          FinishNonsuccess(op, Unknown, Some(state));
        case Third =>
          FinishNonsuccess(op, InConflict, Some(SnapshotConflict(op, Changed, remote)));
      }
    }

    method ReplyToConflictRead(op: Op, reason: Reason, reply: Reply, hooked: Bytes)
      requires op.bytes.Some?
      modifies this
      ensures State() == OnConflictRead(old(State()), op, reason, reply, hooked)
    {
      if live && !OperationCurrent(op) { return; }
      if !reply.Got? && reason != Deleted {
        FinishNonsuccess(op, Failed, None);
        return;
      }
      var remote := if reply.Got? then Remote(reply.snap, false) else Remote(Snap([], Missing), true);
      if PriorLocal(op) == Some(remote.snap.bytes) {
        FinishOperation(op, remote.snap.rev, hooked);
      } else {
        FinishNonsuccess(op, InConflict, Some(SnapshotConflict(op, reason, remote)));
      }
    }

    method ReplyToInspect(op: Op, state: Option<Conflict>, reply: Reply, hooked: Bytes)
      requires op.bytes == (if state.Some? then state.value.local else None)
      requires op.base == (if state.Some? then state.value.base else None)
      modifies this
      ensures State() == OnInspect(old(State()), op, state, reply, hooked)
    {
      if !reply.Got? {
        FinishNonsuccess(op, Unknown, state);
        return;
      }
      var remote := Remote(reply.snap, false);
      match ReconcileUncertain(BaseBytes(op.base), op.bytes, reply.snap.bytes) {
        case Matches => FinishOperation(op, reply.snap.rev, hooked);
        case RetryAtBase =>
          FinishNonsuccess(op, Unknown, Some(state.value.(tag := Retry, remote := Some(remote))));
        case Third =>
          FinishNonsuccess(op, InConflict, Some(SnapshotConflict(op, Changed, remote)));
      }
    }

    method ReplyToMergeVerify(op: Op, reply: Reply)
      requires op.snapshot.Some?
      modifies this
      ensures State() == OnMergeVerify(old(State()), op, reply)
    {
      var snapshot := op.snapshot.value;
      if !live || !OperationCurrent(op) || !SameIdent(op.ident, ident) || snapshot.local != Some(bytes) {
        RefuseMerge(op, Failed, LiveChanged, None);
      } else if !reply.Got? {
        RefuseMerge(op, Unknown, Transport, None);
      } else if snapshot.remote.None? || reply.snap.rev != snapshot.remote.value.snap.rev {
        RefuseMerge(op, InConflict, Changed, Some(Remote(reply.snap, false)));
      } else {
        calls := calls + [Call(op, MergeWriteDone, Write(op.ident, op.bytes, Some(reply.snap.rev)))];
      }
    }

    method ReplyToMergeWrite(op: Op, reply: Reply, hooked: Bytes)
      requires op.bytes.Some? && op.snapshot.Some?
      modifies this
      ensures State() == OnMergeWriteDone(old(State()), op, reply, hooked)
    {
      match reply {
        case Wrote(rev) => FinishMerge(op, rev, hooked);
        case Lost => FetchAsync(op, MergeReconcile, op.ident);
        case Refused(reason) => FetchAsync(op, MergeConflictRead(reason), op.ident);
        case _ => RefuseMerge(op, Failed, ClientError, None);
      }
    }

    method ReplyToMergeReconcile(op: Op, reply: Reply, hooked: Bytes)
      requires op.bytes.Some? && op.snapshot.Some?
      modifies this
      ensures State() == OnMergeReconcile(old(State()), op, reply, hooked)
    {
      if reply.Got? && op.bytes == Some(reply.snap.bytes) {
        FinishMerge(op, reply.snap.rev, hooked);
      } else {
        RefuseMerge(op, Unknown, Transport,
                    if reply.Got? then Some(Remote(reply.snap, false)) else None);
      }
    }

    /** The reply to `call` runs its callback. */
    method Reply(call: Call, reply: Reply, hooked: Bytes)
      requires Good(State()) && call in calls && Fits(call, reply)
      modifies this
      ensures State() == OnReply(old(State()), call, reply, hooked)
      ensures Good(State())
    {
      ReplyKeepsGood(State(), call, reply, hooked);
      var op := call.op;
      match call.stage {
        case WriteDone => ReplyToWrite(op, reply, hooked);
        case Reconcile => ReplyToReconcile(op, reply, hooked);
        case ConflictRead(reason) => ReplyToConflictRead(op, reason, reply, hooked);
        case Inspect(state) => ReplyToInspect(op, state, reply, hooked);
        case MergeVerify => ReplyToMergeVerify(op, reply);
        case MergeWriteDone => ReplyToMergeWrite(op, reply, hooked);
        case MergeReconcile => ReplyToMergeReconcile(op, reply, hooked);
        case MergeConflictRead(reason) =>
          RefuseMerge(op, InConflict, reason,
                      if reply.Got? then Some(Remote(reply.snap, false)) else None);
      }
    }

    // -------------------------------------------------------------------------------------------
    // Commands

    /** Local pre-save work, then the snapshot; none without a BASE to save against. */
    method Capture(given: Option<Snap>, expected: Option<Rev>, prepared: Bytes) returns (op: Option<Op>)
      modifies this`bytes, this`modified
      ensures State() == Prepared(old(State()), prepared)
      ensures op == if FirstOf(given, base).Some? then Some(Captured(State(), given, expected, prepared)) else None
    {
      if prepared != bytes { modified := true; }
      bytes := prepared;
      var b := if given.Some? then given else base;
      if b.None? { return None; }
      op := Some(Op(0, ident, Some(bytes), b, if expected.Some? then expected else Some(b.value.rev),
                    None, None, None, false));
    }

    method QueueOrDispatchOperation(op: Op)
      modifies this
      ensures State() == QueueOrDispatch(old(State()), op)
    {
      if active.Some? {
        if SameRequest(op, active) {
          queued := None;
        } else if !SameRequest(op, queued) {
          queued := Some(op);
        }
      } else {
        var _ := DispatchOperation(op);
      }
    }

    method InspectUnknownSave()
      modifies this
      ensures State() == InspectUnknown(old(State()))
    {
      var state := conflict;
      var op := Op(0, ident, if state.Some? then state.value.local else None,
                   if state.Some? then state.value.base else None, None, None, None, None, false);
      generation := generation + 1;
      op := op.(generation := generation);
      active := Some(op);
      status := Saving;
      FetchAsync(op, Inspect(state), ident);
    }

    method ResolveReadyConflict(choice: Choice, saveAs: FileId)
      modifies this
      ensures State() == ResolveConflict(old(State()), choice, saveAs)
    {
      if conflict.None? || choice !in MenuChoices(conflict.value.reason) { return; }
      var snapshot := conflict.value;
      match choice {
        case Cancel =>
        case Merge => merges := merges + {snapshot};
        case KeepRemote =>
          if snapshot.local.None? { return; }
          var kept := if snapshot.remote.Some? && !snapshot.remote.value.deleted
                      then snapshot.remote.value.snap else Snap([], Missing);
          bytes := kept.bytes;
          RecordBase(kept.bytes, kept.rev);
          modified := false;
          status := Saved;
        case SaveAs =>
          if ident.Some? && saveAs.authority == ident.value.authority {
            var _ := DispatchOperation(Resolution(State(), snapshot, choice, saveAs));
          }
        case _ =>
          var _ := DispatchOperation(Resolution(State(), snapshot, choice, saveAs));
      }
    }

    method SaveBufferAsync(prepared: Bytes, choice: Choice, saveAs: FileId)
      modifies this
      ensures State() == SaveCommand(old(State()), prepared, choice, saveAs)
    {
      if ident.None? { return; }
      if status == InConflict {
        ResolveReadyConflict(choice, saveAs);
      } else if status == Unknown && conflict.Some? && conflict.value.tag == Retry {
        var state := conflict.value;
        var op := Capture(state.base,
                          if state.remote.Some? then Some(state.remote.value.snap.rev) else None, prepared);
        if op.Some? {
          var retry := op.value;
          if retry.bytes != state.local { retry := retry.(expected := BaseRev(state.base)); }
          QueueOrDispatchOperation(retry);
        }
      } else if status == Unknown {
        InspectUnknownSave();
      } else if active.Some? || modified || status == Failed {
        var op := Capture(None, None, prepared);
        if op.Some? { QueueOrDispatchOperation(op.value); }
      }
    }

    method ApplyMergeAsync(snapshot: Conflict, merged: Bytes)
      modifies this
      ensures State() == ApplyMergeCommand(old(State()), snapshot, merged)
    {
      if snapshot !in merges || active.Some? { return; }
      var op := Op(0, ident, Some(merged), snapshot.base, None, None, Some(snapshot), None, true);
      if Some(bytes) != snapshot.local {
        RefuseMerge(op, Failed, LiveChanged, None);
      } else {
        generation := generation + 1;
        op := op.(generation := generation);
        active := Some(op);
        modified := true;
        status := Saving;
        FetchAsync(op, MergeVerify, ident);
      }
    }
  }
}
