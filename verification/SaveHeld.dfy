/** Which pairs and revisions a buffer can mention: only ones it has held. */
module SaveHeld {
  import opened Common
  import opened SaveState
  import opened SaveControl

  /** The pairs a buffer holds now: its BASE, and the REMOTE of its conflict state. */
  function Recorded(c: Client): set<Snap> {
    (if c.base.Some? then {c.base.value} else {})
    + (if c.conflict.Some? && c.conflict.value.remote.Some? then {c.conflict.value.remote.value.snap} else {})
  }

  ghost predicate RevHeld(r: Rev, held: set<Snap>) {
    r.Missing? || exists s :: s in held && s.rev == r
  }

  ghost predicate ConflictHeld(k: Conflict, held: set<Snap>) {
    && (k.base.Some? ==> k.base.value in held)
    && (k.remote.Some? ==> k.remote.value.snap in held)
  }

  /** Every choice but Restore Base writes LOCAL. */
  ghost predicate WritesLocal(op: Op) {
    op.snapshot.Some? && !op.merge && op.choice != Some(RestoreBase) ==> op.bytes == op.snapshot.value.local
  }

  ghost predicate OpHeld(op: Op, held: set<Snap>) {
    && (op.base.Some? ==> op.base.value in held)
    && (op.expected.Some? ==> RevHeld(op.expected.value, held))
    && (op.snapshot.Some? ==> ConflictHeld(op.snapshot.value, held))
    && WritesLocal(op)
  }

  ghost predicate CallHeld(call: Call, held: set<Snap>) {
    && OpHeld(call.op, held)
    && (call.request.Write? && call.request.expected.Some? ==> RevHeld(call.request.expected.value, held))
    && (call.stage.Inspect? && call.stage.state.Some? ==> ConflictHeld(call.stage.state.value, held))
  }

  ghost predicate CallsHeld(calls: seq<Call>, held: set<Snap>) {
    forall call <- calls :: CallHeld(call, held)
  }

  ghost predicate FaceHeld(c: Client, held: set<Snap>) {
    && (c.base.Some? ==> c.base.value in held)
    && (c.conflict.Some? ==> ConflictHeld(c.conflict.value, held))
    && (c.active.Some? ==> OpHeld(c.active.value, held))
    && (c.queued.Some? ==> OpHeld(c.queued.value, held))
    && (forall k <- c.merges :: ConflictHeld(k, held))
  }

  /** Every revision and every pair buffer c mentions is one it has held. */
  ghost predicate Within(c: Client, held: set<Snap>) {
    FaceHeld(c, held) && CallsHeld(c.calls, held)
  }

  lemma OpGrows(op: Op, held: set<Snap>, more: set<Snap>)
    requires OpHeld(op, held) && held <= more
    ensures OpHeld(op, more)
  {
  }

  lemma WithinGrows(c: Client, held: set<Snap>, more: set<Snap>)
    requires Within(c, held) && held <= more
    ensures Within(c, more)
  {
    forall call <- c.calls ensures CallHeld(call, more) { OpGrows(call.op, held, more); }
  }

  lemma OneMoreHeld(calls: seq<Call>, call: Call, held: set<Snap>)
    requires CallsHeld(calls, held) && CallHeld(call, held)
    ensures CallsHeld(calls + [call], held)
  {
    forall x <- calls + [call] ensures CallHeld(x, held) { assert x in calls || x == call; }
  }

  lemma DispatchHeld(c: Client, op: Op, held: set<Snap>)
    requires Within(c, held) && OpHeld(op, held)
    ensures Within(Dispatch(c, op), held)
  {
    OneMoreHeld(c.calls, Dispatch(c, op).calls[|c.calls|], held);
  }

  lemma ConfirmWithin(c: Client, op: Op, rev: Rev, hooked: Bytes, held: set<Snap>)
    requires Within(c, held) && op.bytes.Some?
    requires SameIdent(op.ident, c.ident) ==> Snap(op.bytes.value, rev) in held
    ensures Within(Confirm(c, op, rev, hooked), held)
  {
  }

  lemma FinishSuccessWithin(c: Client, op: Op, rev: Rev, hooked: Bytes, held: set<Snap>)
    requires Within(c, held) && op.bytes.Some?
    requires c.queued.Some? ==> c.queued.value.snapshot.None?
    ensures var d := FinishSuccess(c, op, rev, hooked); Within(d, held + Recorded(d))
  {
    var d := FinishSuccess(c, op, rev, hooked);
    var more := held + Recorded(d);
    WithinGrows(c, held, more);
    var snap := Snap(op.bytes.value, rev);
    if c.live && Current(c, op) && op.choice != Some(SaveAs) {
      if d.base == Some(snap) || !SameIdent(op.ident, c.ident) {
        assert SameIdent(op.ident, c.ident) ==> snap in Recorded(d);
        ConfirmWithin(c, op, rev, hooked, more);
        if QueueFollows(c, op) && d.status.Saving? {
          DispatchHeld(Confirm(c, op, rev, hooked),
                       c.queued.value.(base := Some(snap), expected := Some(rev)), more);
        }
      }
    }
  }

  lemma MergeSuccessWithin(c: Client, op: Op, rev: Rev, hooked: Bytes, held: set<Snap>)
    requires Within(c, held) && op.bytes.Some? && op.snapshot.Some?
    ensures var d := MergeSuccess(c, op, rev, hooked); Within(d, held + Recorded(d))
  {
    WithinGrows(c, held, held + Recorded(MergeSuccess(c, op, rev, hooked)));
  }

  lemma NonSuccessWithin(c: Client, op: Op, status: Status, conflict: Option<Conflict>, held: set<Snap>)
    requires Within(c, held)
    requires conflict.Some? && conflict.value.base.Some? ==> conflict.value.base.value in held
    ensures var d := NonSuccess(c, op, status, conflict); Within(d, held + Recorded(d))
  {
    WithinGrows(c, held, held + Recorded(NonSuccess(c, op, status, conflict)));
  }

  lemma MergeRefusalWithin(c: Client, op: Op, status: Status, reason: Reason, remote: Option<Remote>,
                           held: set<Snap>)
    requires Within(c, held) && op.snapshot.Some? && ConflictHeld(op.snapshot.value, held)
    ensures var d := MergeRefusal(c, op, status, reason, remote); Within(d, held + Recorded(d))
  {
    WithinGrows(c, held, held + Recorded(MergeRefusal(c, op, status, reason, remote)));
  }

  lemma AskWithin(c: Client, op: Op, stage: Stage, file: Option<FileId>, held: set<Snap>)
    requires Within(c, held) && OpHeld(op, held)
    requires stage.Inspect? && stage.state.Some? ==> ConflictHeld(stage.state.value, held)
    ensures var d := Ask(c, op, stage, file); Within(d, held + Recorded(d))
  {
    var d := Ask(c, op, stage, file);
    OneMoreHeld(c.calls, Call(op, stage, Read(file)), held);
    WithinGrows(d, held, held + Recorded(d));
  }

  lemma DispatchWithin(c: Client, op: Op, held: set<Snap>)
    requires Within(c, held) && OpHeld(op, held)
    ensures var d := Dispatch(c, op); Within(d, held + Recorded(d))
  {
    DispatchHeld(c, op, held);
    WithinGrows(Dispatch(c, op), held, held + Recorded(Dispatch(c, op)));
  }

  lemma MergeVerifyWithin(c: Client, op: Op, reply: Reply, held: set<Snap>)
    requires Within(c, held) && OpHeld(op, held) && op.snapshot.Some?
    ensures var d := OnMergeVerify(c, op, reply); Within(d, held + Recorded(d))
  {
    var d := OnMergeVerify(c, op, reply);
    var remote := if reply.Got? then Some(Remote(reply.snap, false)) else None;
    MergeRefusalWithin(c, op, Failed, LiveChanged, None, held);
    MergeRefusalWithin(c, op, Unknown, Transport, None, held);
    MergeRefusalWithin(c, op, InConflict, Changed, remote, held);
    if |d.calls| > |c.calls| {
      WithinGrows(c, held, held + Recorded(d));
      assert reply.snap == op.snapshot.value.remote.value.snap
             || reply.snap.rev == op.snapshot.value.remote.value.snap.rev;
      OneMoreHeld(c.calls, d.calls[|c.calls|], held + Recorded(d));
    }
  }

  lemma WriteDoneWithin(c: Client, op: Op, reply: Reply, hooked: Bytes, held: set<Snap>)
    requires Shaped(c) && Within(c, held) && OpHeld(op, held)
    requires op.bytes.Some? || !reply.Wrote?
    ensures var d := OnWriteDone(c, op, reply, hooked); Within(d, held + Recorded(d))
  {
    WithinGrows(c, held, held + Recorded(c));
    match reply {
      case Wrote(rev) => FinishSuccessWithin(c, op, rev, hooked, held);
      case Lost => AskWithin(c, op, Reconcile, Target(op), held);
      case Refused(reason) => AskWithin(c, op, ConflictRead(reason), Target(op), held);
      case _ => NonSuccessWithin(c, op, Failed, None, held);
    }
  }

  lemma ConflictReadWithin(c: Client, op: Op, reason: Reason, reply: Reply, hooked: Bytes, held: set<Snap>)
    requires Shaped(c) && Within(c, held) && OpHeld(op, held) && op.bytes.Some?
    ensures var d := OnConflictRead(c, op, reason, reply, hooked); Within(d, held + Recorded(d))
  {
    WithinGrows(c, held, held + Recorded(c));
    match ConflictRemote(reason, reply) {
      case None => NonSuccessWithin(c, op, Failed, None, held);
      case Some(remote) =>
        if PriorLocal(op) == Some(remote.snap.bytes) {
          FinishSuccessWithin(c, op, remote.snap.rev, hooked, held);
        } else {
          NonSuccessWithin(c, op, InConflict, Some(SnapshotConflict(op, reason, remote)), held);
        }
    }
  }

  lemma MergeWriteDoneWithin(c: Client, op: Op, reply: Reply, hooked: Bytes, held: set<Snap>)
    requires Within(c, held) && OpHeld(op, held) && op.bytes.Some? && op.snapshot.Some?
    ensures var d := OnMergeWriteDone(c, op, reply, hooked); Within(d, held + Recorded(d))
  {
    match reply {
      case Wrote(rev) => MergeSuccessWithin(c, op, rev, hooked, held);
      case Lost => AskWithin(c, op, MergeReconcile, op.ident, held);
      case Refused(reason) => AskWithin(c, op, MergeConflictRead(reason), op.ident, held);
      case _ => MergeRefusalWithin(c, op, Failed, ClientError, None, held);
    }
  }

  lemma ReplyWithin(c: Client, call: Call, reply: Reply, hooked: Bytes, held: set<Snap>)
    requires Good(c) && call in c.calls && Fits(call, reply) && Within(c, held)
    ensures var d := OnReply(c, call, reply, hooked); Within(d, held + Recorded(d))
  {
    var op := call.op;
    assert CallHeld(call, held);
    match call.stage {
      case WriteDone => WriteDoneWithin(c, op, reply, hooked, held);
      case Reconcile => ReconcileWithin(c, op, reply, hooked, held);
      case ConflictRead(reason) => ConflictReadWithin(c, op, reason, reply, hooked, held);
      case Inspect(state) => InspectWithin(c, op, state, reply, hooked, held);
      case MergeVerify => MergeVerifyWithin(c, op, reply, held);
      case MergeWriteDone => MergeWriteDoneWithin(c, op, reply, hooked, held);
      case MergeReconcile =>
        if reply.Got? && op.bytes == Some(reply.snap.bytes) {
          MergeSuccessWithin(c, op, reply.snap.rev, hooked, held);
        } else {
          MergeRefusalWithin(c, op, Unknown, Transport,
                             if reply.Got? then Some(Remote(reply.snap, false)) else None, held);
        }
      case MergeConflictRead(reason) =>
        MergeRefusalWithin(c, op, InConflict, reason,
                           if reply.Got? then Some(Remote(reply.snap, false)) else None, held);
    }
  }

  lemma ReconcileWithin(c: Client, op: Op, reply: Reply, hooked: Bytes, held: set<Snap>)
    requires Shaped(c) && Within(c, held) && OpHeld(op, held)
    ensures var d := OnReconcile(c, op, reply, hooked); Within(d, held + Recorded(d))
  {
    WithinGrows(c, held, held + Recorded(c));
    if c.live && !Current(c, op) {
    } else if !reply.Got? {
      NonSuccessWithin(c, op, Unknown, None, held);
    } else {
      var remote := Remote(reply.snap, false);
      match ReconcileUncertain(BaseBytes(op.base), op.bytes, reply.snap.bytes) {
        case Matches => FinishSuccessWithin(c, op, reply.snap.rev, hooked, held);
        case RetryAtBase =>
          NonSuccessWithin(c, op, Unknown,
                           Some(Conflict(Retry, BaseUnmoved, op.base, op.bytes, Some(remote))), held);
        case Third =>
          NonSuccessWithin(c, op, InConflict, Some(SnapshotConflict(op, Changed, remote)), held);
      }
    }
  }

  lemma InspectWithin(c: Client, op: Op, state: Option<Conflict>, reply: Reply, hooked: Bytes,
                      held: set<Snap>)
    requires Shaped(c) && Within(c, held) && OpHeld(op, held)
    requires state.Some? ==> ConflictHeld(state.value, held)
    requires op.bytes == (if state.Some? then state.value.local else None)
    requires op.base == (if state.Some? then state.value.base else None)
    ensures var d := OnInspect(c, op, state, reply, hooked); Within(d, held + Recorded(d))
  {
    if !reply.Got? {
      NonSuccessWithin(c, op, Unknown, state, held);
    } else {
      var remote := Remote(reply.snap, false);
      match ReconcileUncertain(BaseBytes(op.base), op.bytes, reply.snap.bytes) {
        case Matches => FinishSuccessWithin(c, op, reply.snap.rev, hooked, held);
        case RetryAtBase =>
          NonSuccessWithin(c, op, Unknown, Some(state.value.(tag := Retry, remote := Some(remote))), held);
        case Third =>
          NonSuccessWithin(c, op, InConflict, Some(SnapshotConflict(op, Changed, remote)), held);
      }
    }
  }

  lemma QueuedWithin(c: Client, queued: Option<Op>, held: set<Snap>)
    requires Within(c, held) && (queued.Some? ==> OpHeld(queued.value, held))
    ensures Within(c.(queued := queued), held)
  {
  }

  lemma QueueOrDispatchWithin(c: Client, op: Op, held: set<Snap>)
    requires Within(c, held) && OpHeld(op, held)
    ensures var d := QueueOrDispatch(c, op); Within(d, held + Recorded(d))
  {
    var d := QueueOrDispatch(c, op);
    if c.active.None? {
      DispatchWithin(c, op, held);
    } else {
      QueuedWithin(c, None, held);
      QueuedWithin(c, Some(op), held);
      WithinGrows(d, held, held + Recorded(d));
    }
  }

  lemma RetryOperationHeld(c: Client, prepared: Bytes, held: set<Snap>)
    requires Within(c, held) && c.conflict.Some?
    ensures OpHeld(RetryOperation(c, prepared), held)
  {
    var state := c.conflict.value;
    assert state.remote.Some? ==> RevHeld(state.remote.value.snap.rev, held);
    assert state.base.Some? ==> RevHeld(state.base.value.rev, held);
    assert c.base.Some? ==> RevHeld(c.base.value.rev, held);
  }

  lemma ResolveConflictWithin(c: Client, choice: Choice, saveAs: FileId, held: set<Snap>)
    requires Within(c, held)
    ensures var d := ResolveConflict(c, choice, saveAs); Within(d, held + Recorded(d))
  {
    WithinGrows(c, held, held + Recorded(ResolveConflict(c, choice, saveAs)));
    if c.conflict.Some? && (choice.KeepLocal? || choice.RestoreBase? || choice.SaveAs?) {
      var snapshot := c.conflict.value;
      assert snapshot.remote.Some? ==> RevHeld(snapshot.remote.value.snap.rev, held);
      DispatchWithin(c, Resolution(c, snapshot, choice, saveAs), held);
    }
  }

  lemma InspectUnknownWithin(c: Client, held: set<Snap>)
    requires Within(c, held)
    ensures var d := InspectUnknown(c); Within(d, held + Recorded(d))
  {
    var d := InspectUnknown(c);
    AskWithin(c.(generation := c.generation + 1, active := d.active, status := Saving),
              d.active.value, Inspect(c.conflict), c.ident, held);
  }

  lemma CapturedHeld(c: Client, prepared: Bytes, held: set<Snap>)
    requires Within(c, held)
    ensures OpHeld(Captured(c, None, None, prepared), held)
  {
    assert c.base.Some? ==> RevHeld(c.base.value.rev, held);
  }

  lemma SaveCommandWithin(c: Client, prepared: Bytes, choice: Choice, saveAs: FileId, held: set<Snap>)
    requires Within(c, held)
    ensures var d := SaveCommand(c, prepared, choice, saveAs); Within(d, held + Recorded(d))
  {
    var p := Prepared(c, prepared);
    WithinGrows(p, held, held + Recorded(p));
    if c.ident.None? {
      WithinGrows(c, held, held + Recorded(c));
    } else if c.status.InConflict? {
      ResolveConflictWithin(c, choice, saveAs, held);
    } else if c.status.Unknown? && c.conflict.Some? && c.conflict.value.tag.Retry? {
      RetryOperationHeld(p, prepared, held);
      QueueOrDispatchWithin(p, RetryOperation(p, prepared), held);
    } else if c.status.Unknown? {
      InspectUnknownWithin(c, held);
    } else if c.active.Some? || c.modified || c.status.Failed? {
      CapturedHeld(p, prepared, held);
      QueueOrDispatchWithin(p, Captured(p, None, None, prepared), held);
    } else {
      WithinGrows(c, held, held + Recorded(c));
    }
  }

  lemma ApplyMergeWithin(c: Client, snapshot: Conflict, merged: Bytes, held: set<Snap>)
    requires Within(c, held)
    ensures var d := ApplyMergeCommand(c, snapshot, merged); Within(d, held + Recorded(d))
  {
    var d := ApplyMergeCommand(c, snapshot, merged);
    if snapshot in c.merges && c.active.None? {
      var op := Op(0, c.ident, Some(merged), snapshot.base, None, None, Some(snapshot), None, true);
      if snapshot.local != Some(c.bytes) {
        MergeRefusalWithin(c, op, Failed, LiveChanged, None, held);
      } else {
        AskWithin(c.(generation := c.generation + 1, active := d.active, modified := true, status := Saving),
                  d.active.value, MergeVerify, c.ident, held);
      }
    } else {
      WithinGrows(c, held, held + Recorded(c));
    }
  }

  lemma CommandWithin(c: Client, cmd: Command, held: set<Snap>)
    requires Within(c, held)
    ensures var d := OnCommand(c, cmd); Within(d, held + Recorded(d))
  {
    var d := OnCommand(c, cmd);
    if c.live && cmd.Save? {
      SaveCommandWithin(c, cmd.prepared, cmd.choice, cmd.saveAs, held);
    } else if c.live && cmd.ApplyMerge? {
      ApplyMergeWithin(c, cmd.snapshot, cmd.merged, held);
    } else {
      assert Within(d, held);
      WithinGrows(d, held, held + Recorded(d));
    }
  }

  lemma FaultWithin(c: Client, call: Call, held: set<Snap>)
    requires Good(c) && call in c.calls && Within(c, held)
    ensures var d := CallbackError(c, call.op); Within(d, held + Recorded(d))
  {
    assert CallHeld(call, held);
    if call.op.merge {
      MergeRefusalWithin(c, call.op, Unknown, ClientError, None, held);
    } else {
      NonSuccessWithin(c, call.op, Unknown,
                       Some(Conflict(Uncertain, ClientError, call.op.base, call.op.bytes, None)), held);
    }
  }

  lemma FinishSuccessGrows(c: Client, op: Op, rev: Rev, hooked: Bytes)
    requires op.bytes.Some?
    ensures c.calls <= FinishSuccess(c, op, rev, hooked).calls
  {
  }

  lemma InspectGrows(c: Client, op: Op, state: Option<Conflict>, reply: Reply, hooked: Bytes)
    requires op.bytes == (if state.Some? then state.value.local else None)
    requires op.base == (if state.Some? then state.value.base else None)
    ensures c.calls <= OnInspect(c, op, state, reply, hooked).calls
  {
    if reply.Got? && op.bytes.Some? { FinishSuccessGrows(c, op, reply.snap.rev, hooked); }
  }

  lemma ConflictReadGrows(c: Client, op: Op, reason: Reason, reply: Reply, hooked: Bytes)
    requires op.bytes.Some?
    ensures c.calls <= OnConflictRead(c, op, reason, reply, hooked).calls
  {
    var remote := ConflictRemote(reason, reply);
    if remote.Some? { FinishSuccessGrows(c, op, remote.value.snap.rev, hooked); }
  }

  lemma CallsGrow(c: Client, call: Call, reply: Reply, hooked: Bytes)
    requires CallShape(call) && Fits(call, reply)
    ensures c.calls <= OnReply(c, call, reply, hooked).calls
  {
    var op := call.op;
    match call.stage {
      case WriteDone => if reply.Wrote? { FinishSuccessGrows(c, op, reply.rev, hooked); }
      case Reconcile =>
        if reply.Got? && op.bytes.Some? { FinishSuccessGrows(c, op, reply.snap.rev, hooked); }
      case ConflictRead(reason) => ConflictReadGrows(c, op, reason, reply, hooked);
      case Inspect(state) => InspectGrows(c, op, state, reply, hooked);
      case MergeVerify =>
      case MergeWriteDone =>
      case MergeReconcile =>
      case MergeConflictRead(reason) =>
    }
  }

  lemma ResolveConflictRecords(c: Client, choice: Choice, saveAs: FileId, held: set<Snap>)
    requires Within(c, held)
    ensures var d := ResolveConflict(c, choice, saveAs);
            c.calls <= d.calls && Recorded(d) <= held + {Snap([], Missing)}
  {
  }

  lemma QueueOrDispatchRecords(c: Client, op: Op)
    ensures var d := QueueOrDispatch(c, op); c.calls <= d.calls && Recorded(d) == Recorded(c)
  {
  }

  lemma SaveCommandRecords(c: Client, prepared: Bytes, choice: Choice, saveAs: FileId, held: set<Snap>)
    requires Within(c, held)
    ensures var d := SaveCommand(c, prepared, choice, saveAs);
            c.calls <= d.calls && Recorded(d) <= held + {Snap([], Missing)}
  {
    var p := Prepared(c, prepared);
    if c.status.InConflict? {
      ResolveConflictRecords(c, choice, saveAs, held);
    } else if c.status.Unknown? && c.conflict.Some? && c.conflict.value.tag.Retry? {
      QueueOrDispatchRecords(p, RetryOperation(p, prepared));
    } else if !c.status.Unknown? {
      QueueOrDispatchRecords(p, Captured(p, None, None, prepared));
    }
  }

  /** A command adds requests and records nothing but what was held, or the missing state. */
  lemma CommandRecords(c: Client, cmd: Command, held: set<Snap>)
    requires Within(c, held)
    ensures var d := OnCommand(c, cmd);
            c.calls <= d.calls && Recorded(d) <= held + {Snap([], Missing)}
  {
    match cmd {
      case Save(prepared, choice, saveAs) => SaveCommandRecords(c, prepared, choice, saveAs, held);
      case _ =>
    }
  }

  lemma FaultRecords(c: Client, call: Call, held: set<Snap>)
    requires Good(c) && call in c.calls && Within(c, held)
    ensures var d := CallbackError(c, call.op); c.calls <= d.calls && Recorded(d) <= held
  {
    assert CallHeld(call, held);
  }

  /** Restore Base was refused, and the REMOTE then fetched equals LOCAL but not BASE: the client
      takes the conflict for convergent and confirms BASE's bytes at REMOTE's revision. */
  ghost predicate Misadopts(c: Client, call: Call, reply: Reply)
    requires CallShape(call)
  {
    var op := call.op;
    && call.stage.ConflictRead? && c.live && Current(c, op) && SameIdent(op.ident, c.ident)
    && op.choice == Some(RestoreBase)
    && var remote := ConflictRemote(call.stage.reason, reply);
    && remote.Some? && PriorLocal(op) == Some(remote.value.snap.bytes)
    && op.bytes != Some(remote.value.snap.bytes)
  }

  /** Where a pair that was not held before can come from. */
  ghost predicate NewlyHeld(c: Client, call: Call, reply: Reply, s: Snap)
    requires CallShape(call)
  {
    || (reply.Wrote? && call.op.bytes.Some? && s == Snap(call.op.bytes.value, reply.rev))
    || (reply.Got? && s == reply.snap)
    || s == Snap([], Missing)
    || (Misadopts(c, call, reply)
        && s == Snap(call.op.bytes.value, ConflictRemote(call.stage.reason, reply).value.snap.rev))
  }

  lemma FinishSuccessRecords(c: Client, op: Op, rev: Rev, hooked: Bytes, s: Snap)
    requires op.bytes.Some? && s in Recorded(FinishSuccess(c, op, rev, hooked))
    ensures s in Recorded(c)
            || (s == Snap(op.bytes.value, rev) && c.live && Current(c, op) && SameIdent(op.ident, c.ident)
                && op.choice != Some(SaveAs))
  {
  }

  lemma ConflictReadRecords(c: Client, call: Call, reply: Reply, hooked: Bytes, s: Snap)
    requires CallShape(call) && call.stage.ConflictRead? && WritesLocal(call.op)
    requires s in Recorded(OnConflictRead(c, call.op, call.stage.reason, reply, hooked))
    ensures s in Recorded(c) || NewlyHeld(c, call, reply, s)
  {
    var remote := ConflictRemote(call.stage.reason, reply);
    if remote.Some? && PriorLocal(call.op) == Some(remote.value.snap.bytes) && !(c.live && !Current(c, call.op)) {
      FinishSuccessRecords(c, call.op, remote.value.snap.rev, hooked, s);
    }
  }

  lemma ReplyRecords(c: Client, call: Call, reply: Reply, hooked: Bytes, held: set<Snap>, s: Snap)
    requires Good(c) && call in c.calls && Fits(call, reply) && Within(c, held)
    requires s in Recorded(OnReply(c, call, reply, hooked))
    ensures s in held || NewlyHeld(c, call, reply, s)
  {
    var op := call.op;
    assert CallHeld(call, held);
    assert forall x <- Recorded(c) :: x in held;
    match call.stage {
      case WriteDone => WriteDoneRecords(c, op, reply, hooked, s);
      case Reconcile => ReconcileRecords(c, op, reply, hooked, s);
      case ConflictRead(reason) => ConflictReadRecords(c, call, reply, hooked, s);
      case Inspect(state) => InspectRecords(c, op, state, reply, hooked, held, s);
      case MergeVerify => MergeRecords(c, call, reply, hooked, held, s);
      case MergeWriteDone => MergeRecords(c, call, reply, hooked, held, s);
      case MergeReconcile => MergeRecords(c, call, reply, hooked, held, s);
      case MergeConflictRead(reason) => MergeRecords(c, call, reply, hooked, held, s);
    }
  }

  lemma MergeRefusalRecords(c: Client, op: Op, status: Status, reason: Reason, remote: Option<Remote>,
                            held: set<Snap>, s: Snap)
    requires op.snapshot.Some? && OpHeld(op, held)
    requires s in Recorded(MergeRefusal(c, op, status, reason, remote))
    ensures s in Recorded(c) || s in held || (remote.Some? && s == remote.value.snap)
  {
  }

  lemma MergeSuccessRecords(c: Client, op: Op, rev: Rev, hooked: Bytes, s: Snap)
    requires op.snapshot.Some? && op.bytes.Some?
    requires s in Recorded(MergeSuccess(c, op, rev, hooked))
    ensures s in Recorded(c) || s == Snap(op.bytes.value, rev)
  {
  }

  lemma MergeVerifyRecords(c: Client, op: Op, reply: Reply, held: set<Snap>, s: Snap)
    requires op.snapshot.Some? && OpHeld(op, held)
    requires s in Recorded(OnMergeVerify(c, op, reply))
    ensures s in Recorded(c) || s in held || (reply.Got? && s == reply.snap)
  {
  }

  lemma MergeRecords(c: Client, call: Call, reply: Reply, hooked: Bytes, held: set<Snap>, s: Snap)
    requires CallShape(call) && Fits(call, reply) && MergeStage(call.stage) && OpHeld(call.op, held)
    requires forall x <- Recorded(c) :: x in held
    requires s in Recorded(OnReply(c, call, reply, hooked))
    ensures s in held || NewlyHeld(c, call, reply, s)
  {
    var op := call.op;
    var remote := if reply.Got? then Some(Remote(reply.snap, false)) else None;
    match call.stage {
      case MergeVerify => MergeVerifyRecords(c, op, reply, held, s);
      case MergeWriteDone =>
        match reply {
          case Wrote(rev) => MergeSuccessRecords(c, op, rev, hooked, s);
          case Broken => MergeRefusalRecords(c, op, Failed, ClientError, None, held, s);
          case _ =>
        }
      case MergeReconcile =>
        if reply.Got? && op.bytes == Some(reply.snap.bytes) {
          MergeSuccessRecords(c, op, reply.snap.rev, hooked, s);
        } else {
          MergeRefusalRecords(c, op, Unknown, Transport, remote, held, s);
        }
      case MergeConflictRead(reason) => MergeRefusalRecords(c, op, InConflict, reason, remote, held, s);
      case _ =>
    }
  }

  lemma WriteDoneRecords(c: Client, op: Op, reply: Reply, hooked: Bytes, s: Snap)
    requires op.bytes.Some? || !reply.Wrote?
    requires s in Recorded(OnWriteDone(c, op, reply, hooked))
    ensures s in Recorded(c) || (reply.Wrote? && s == Snap(op.bytes.value, reply.rev))
  {
    if reply.Wrote? { FinishSuccessRecords(c, op, reply.rev, hooked, s); }
  }

  lemma ReconcileRecords(c: Client, op: Op, reply: Reply, hooked: Bytes, s: Snap)
    requires s in Recorded(OnReconcile(c, op, reply, hooked))
    ensures s in Recorded(c) || (reply.Got? && s == reply.snap)
  {
    if reply.Got? && ReconcileUncertain(BaseBytes(op.base), op.bytes, reply.snap.bytes).Matches? {
      FinishSuccessRecords(c, op, reply.snap.rev, hooked, s);
    }
  }

  lemma InspectRecords(c: Client, op: Op, state: Option<Conflict>, reply: Reply, hooked: Bytes,
                       held: set<Snap>, s: Snap)
    requires op.bytes == (if state.Some? then state.value.local else None)
    requires op.base == (if state.Some? then state.value.base else None)
    requires state.Some? ==> ConflictHeld(state.value, held)
    requires forall x <- Recorded(c) :: x in held
    requires s in Recorded(OnInspect(c, op, state, reply, hooked))
    ensures s in held || (reply.Got? && s == reply.snap)
  {
    if reply.Got? && ReconcileUncertain(BaseBytes(op.base), op.bytes, reply.snap.bytes).Matches? {
      FinishSuccessRecords(c, op, reply.snap.rev, hooked, s);
    }
  }
}
