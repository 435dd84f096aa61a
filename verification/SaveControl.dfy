/** What every step of one buffer's save machine keeps: the control invariant, the text on a
    non-success, and the save state under a callback from a superseded operation. */
module SaveControl {
  import opened Common
  import opened SaveState

  /** An operation is active exactly while the status is Saving, a queued snapshot implies an active
      one, and only the newest generation is active. */
  ghost predicate Controlled(c: Client) {
    && (c.active.Some? <==> c.status.Saving?)
    && (c.queued.Some? ==> c.active.Some?)
    && (c.active.Some? ==> c.active.value.generation == c.generation)
  }

  ghost predicate CallsShaped(calls: seq<Call>, generation: nat) {
    forall call <- calls :: CallShape(call) && call.op.generation <= generation
  }

  /** Bookkeeping the control invariant rests on. */
  ghost predicate Shaped(c: Client) {
    && CallsShaped(c.calls, c.generation)
    && (c.queued.Some? ==> c.queued.value.choice.None? && !c.queued.value.merge
                           && c.queued.value.snapshot.None? && c.queued.value.bytes.Some?)
    && (c.status.InConflict? ==> c.conflict.Some?)
    && (c.active.Some? && c.active.value.choice == Some(SaveAs) ==> c.conflict.Some?)
  }

  /** An unmodified buffer shows exactly BASE. */
  ghost predicate CleanShowsBase(c: Client) {
    !c.modified ==> BaseBytes(c.base) == Some(c.bytes)
  }

  ghost predicate Good(c: Client) { Controlled(c) && Shaped(c) && CleanShowsBase(c) }

  lemma VisitedIsGood(file: FileId, base: Snap)
    ensures Good(Visited(file, base))
  {
  }

  lemma OneMoreCall(calls: seq<Call>, call: Call, generation: nat, next: nat)
    requires CallsShaped(calls, generation) && generation <= next
    requires CallShape(call) && call.op.generation <= next
    ensures CallsShaped(calls + [call], next)
  {
    forall x <- calls + [call] ensures CallShape(x) && x.op.generation <= next {
      assert x in calls || x == call;
    }
  }

  lemma DispatchKeeps(c: Client, op: Op)
    requires Shaped(c) && !op.merge && c.queued.None?
    requires op.choice == Some(SaveAs) ==> c.conflict.Some?
    ensures Good(Dispatch(c, op))
  {
    OneMoreCall(c.calls, Dispatch(c, op).calls[|c.calls|], c.generation, c.generation + 1);
  }

  lemma AskKeeps(c: Client, op: Op, stage: Stage, file: Option<FileId>)
    requires Good(c) && op.generation <= c.generation
    requires CallShape(Call(op, stage, Read(file)))
    ensures Good(Ask(c, op, stage, file))
  {
    OneMoreCall(c.calls, Call(op, stage, Read(file)), c.generation, c.generation);
  }

  lemma NonSuccessKeeps(c: Client, op: Op, status: Status, conflict: Option<Conflict>)
    requires Good(c) && !status.Saving? && (status.InConflict? ==> conflict.Some?)
    ensures Good(NonSuccess(c, op, status, conflict))
  {
  }

  lemma MergeRefusalKeeps(c: Client, op: Op, status: Status, reason: Reason, remote: Option<Remote>)
    requires Good(c) && !status.Saving? && op.snapshot.Some?
    ensures Good(MergeRefusal(c, op, status, reason, remote))
  {
  }

  lemma FinishSuccessKeeps(c: Client, op: Op, rev: Rev, hooked: Bytes)
    requires Good(c) && op.bytes.Some?
    ensures Good(FinishSuccess(c, op, rev, hooked))
  {
    if c.live && Current(c, op) && QueueFollows(c, op) {
      DispatchKeeps(Confirm(c, op, rev, hooked),
                    c.queued.value.(base := Some(Snap(op.bytes.value, rev)), expected := Some(rev)));
    }
  }

  lemma MergeSuccessKeeps(c: Client, op: Op, rev: Rev, hooked: Bytes)
    requires Good(c) && op.bytes.Some? && op.snapshot.Some?
    ensures Good(MergeSuccess(c, op, rev, hooked))
  {
  }

  lemma WriteDoneKeeps(c: Client, call: Call, reply: Reply, hooked: Bytes)
    requires Good(c) && call in c.calls && Fits(call, reply) && call.stage.WriteDone?
    ensures Good(OnWriteDone(c, call.op, reply, hooked))
  {
    match reply {
      case Wrote(rev) => FinishSuccessKeeps(c, call.op, rev, hooked);
      case Lost => AskKeeps(c, call.op, Reconcile, Target(call.op));
      case Refused(reason) =>
        if Current(c, call.op) || !c.live {
          AskKeeps(c, call.op, ConflictRead(reason), Target(call.op));
        }
      case _ => NonSuccessKeeps(c, call.op, Failed, None);
    }
  }

  lemma ReconcileKeeps(c: Client, op: Op, reply: Reply, hooked: Bytes)
    requires Good(c)
    ensures Good(OnReconcile(c, op, reply, hooked))
  {
    if reply.Got? && ReconcileUncertain(BaseBytes(op.base), op.bytes, reply.snap.bytes).Matches? {
      FinishSuccessKeeps(c, op, reply.snap.rev, hooked);
    }
  }

  lemma ConflictReadKeeps(c: Client, op: Op, reason: Reason, reply: Reply, hooked: Bytes)
    requires Good(c) && op.bytes.Some?
    ensures Good(OnConflictRead(c, op, reason, reply, hooked))
  {
    var remote := ConflictRemote(reason, reply);
    if remote.Some? { FinishSuccessKeeps(c, op, remote.value.snap.rev, hooked); }
  }

  lemma InspectKeeps(c: Client, op: Op, state: Option<Conflict>, reply: Reply, hooked: Bytes)
    requires Good(c)
    requires op.bytes == (if state.Some? then state.value.local else None)
    requires op.base == (if state.Some? then state.value.base else None)
    ensures Good(OnInspect(c, op, state, reply, hooked))
  {
    if reply.Got? && ReconcileUncertain(BaseBytes(op.base), op.bytes, reply.snap.bytes).Matches? {
      FinishSuccessKeeps(c, op, reply.snap.rev, hooked);
    }
  }

  lemma MergeWriteDoneKeeps(c: Client, op: Op, reply: Reply, hooked: Bytes)
    requires Good(c) && 0 < op.generation <= c.generation
    requires op.merge && op.snapshot.Some? && op.bytes.Some?
    ensures Good(OnMergeWriteDone(c, op, reply, hooked))
  {
    match reply {
      case Wrote(rev) => MergeSuccessKeeps(c, op, rev, hooked);
      case Lost => AskKeeps(c, op, MergeReconcile, op.ident);
      case Refused(reason) => AskKeeps(c, op, MergeConflictRead(reason), op.ident);
      case _ => MergeRefusalKeeps(c, op, Failed, ClientError, None);
    }
  }

  lemma MergeReconcileKeeps(c: Client, op: Op, reply: Reply, hooked: Bytes)
    requires Good(c) && op.snapshot.Some? && op.bytes.Some?
    ensures Good(OnMergeReconcile(c, op, reply, hooked))
  {
    if reply.Got? { MergeSuccessKeeps(c, op, reply.snap.rev, hooked); }
  }

  /** Every callback, whatever the reply and whenever it comes, keeps the invariants. */
  lemma ReplyKeepsGood(c: Client, call: Call, reply: Reply, hooked: Bytes)
    requires Good(c) && call in c.calls && Fits(call, reply)
    ensures Good(OnReply(c, call, reply, hooked))
  {
    var op := call.op;
    match call.stage {
      case WriteDone => WriteDoneKeeps(c, call, reply, hooked);
      case Reconcile => ReconcileKeeps(c, op, reply, hooked);
      case ConflictRead(reason) => ConflictReadKeeps(c, op, reason, reply, hooked);
      case Inspect(state) => InspectKeeps(c, op, state, reply, hooked);
      case MergeVerify => MergeVerifyKeeps(c, op, reply);
      case MergeWriteDone => MergeWriteDoneKeeps(c, op, reply, hooked);
      case MergeReconcile => MergeReconcileKeeps(c, op, reply, hooked);
      case MergeConflictRead(reason) =>
        MergeRefusalKeeps(c, op, InConflict, reason,
                          if reply.Got? then Some(Remote(reply.snap, false)) else None);
    }
  }

  lemma MergeVerifyKeeps(c: Client, op: Op, reply: Reply)
    requires Good(c) && op.merge && op.snapshot.Some? && op.bytes.Some?
    requires 0 < op.generation <= c.generation
    ensures Good(OnMergeVerify(c, op, reply))
  {
    var d := OnMergeVerify(c, op, reply);
    if |d.calls| > |c.calls| { OneMoreCall(c.calls, d.calls[|c.calls|], c.generation, c.generation); }
  }

  /** An error before the callback takes effect. */
  lemma FaultKeepsGood(c: Client, call: Call)
    requires Good(c) && call in c.calls
    ensures Good(CallbackError(c, call.op))
  {
  }

  /** A callback of op stopped somewhere before it set the status: it may have released its operation. */
  ghost predicate Midway(d: Client, op: Op) {
    && d.live && d.status.Saving? && Shaped(d) && 0 < op.generation == d.generation
    && (op.merge ==> op.snapshot.Some?)
    && (d.active == Some(op) || (d.active.None? && d.queued.None?))
  }

  /** The error handler brings such a callback to an end if and only if the operation was not released yet;
      otherwise it does nothing, and the buffer is left saving with no operation. */
  lemma FaultEndsExactly(d: Client, op: Op)
    requires Midway(d, op)
    ensures Good(CallbackError(d, op)) <==> d.active == Some(op)
    ensures d.active.None? ==> CallbackError(d, op) == d
  {
  }

  /** The next save then starts afresh, expecting BASE's revision, if and only if the buffer is modified and has a BASE;
      otherwise the buffer goes on saving nothing. */
  lemma StuckSaveRestartsExactly(d: Client, op: Op, prepared: Bytes, choice: Choice, saveAs: FileId)
    requires Midway(d, op) && d.active.None? && d.ident.Some?
    ensures var e := SaveCommand(d, prepared, choice, saveAs);
      && (Good(e) <==> d.modified && d.base.Some?)
      && (Good(e) ==>
            && |e.calls| == |d.calls| + 1
            && e.calls[|d.calls|].request == Write(d.ident, Some(prepared), Some(d.base.value.rev)))
      && (!Good(e) ==> e.status.Saving? && e.active.None? && e.calls == d.calls)
  {
    var p := Prepared(d, prepared);
    if d.modified && d.base.Some? {
      DispatchKeeps(p, Captured(p, None, None, prepared));
    }
  }

  lemma QueueOrDispatchKeeps(c: Client, op: Op)
    requires Good(c) && op.bytes.Some? && op.choice.None? && !op.merge && op.snapshot.None?
    ensures Good(QueueOrDispatch(c, op))
  {
    if c.active.None? { DispatchKeeps(c, op); }
  }

  lemma ResolveConflictKeeps(c: Client, choice: Choice, saveAs: FileId)
    requires Good(c) && c.status.InConflict?
    ensures Good(ResolveConflict(c, choice, saveAs))
  {
    if choice.KeepLocal? || choice.RestoreBase? || choice.SaveAs? {
      DispatchKeeps(c, Resolution(c, c.conflict.value, choice, saveAs));
    }
  }

  lemma SaveCommandKeeps(c: Client, prepared: Bytes, choice: Choice, saveAs: FileId)
    requires Good(c)
    ensures Good(SaveCommand(c, prepared, choice, saveAs))
  {
    var d := Prepared(c, prepared);
    if c.ident.None? {
    } else if c.status.InConflict? {
      ResolveConflictKeeps(c, choice, saveAs);
    } else if c.status.Unknown? && c.conflict.Some? && c.conflict.value.tag.Retry? {
      QueueOrDispatchKeeps(d, RetryOperation(d, prepared));
    } else if c.status.Unknown? {
      OneMoreCall(c.calls, InspectUnknown(c).calls[|c.calls|], c.generation, c.generation + 1);
    } else if c.active.Some? || c.modified || c.status.Failed? {
      QueueOrDispatchKeeps(d, Captured(d, None, None, prepared));
    }
  }

  lemma ApplyMergeKeeps(c: Client, snapshot: Conflict, merged: Bytes)
    requires Good(c)
    ensures Good(ApplyMergeCommand(c, snapshot, merged))
  {
    var d := ApplyMergeCommand(c, snapshot, merged);
    if |d.calls| > |c.calls| { OneMoreCall(c.calls, d.calls[|c.calls|], c.generation, d.generation); }
  }

  /** Every command keeps the invariants. */
  lemma CommandKeepsGood(c: Client, cmd: Command)
    requires Good(c)
    ensures Good(OnCommand(c, cmd))
  {
    match cmd {
      case Save(prepared, choice, saveAs) => SaveCommandKeeps(c, prepared, choice, saveAs);
      case ApplyMerge(snapshot, merged) => ApplyMergeKeeps(c, snapshot, merged);
      case _ =>
    }
  }

  /** Everything about a buffer except the log of requests it has made. */
  function Face(c: Client): Client { c.(calls := []) }

  /** A reply to an operation that is no longer the active generation changes nothing, and starts no
      write. */
  lemma StaleReplyChangesNothing(c: Client, call: Call, reply: Reply, hooked: Bytes)
    requires Good(c) && call in c.calls && Fits(call, reply)
    requires !Current(c, call.op)
    ensures Face(OnReply(c, call, reply, hooked)) == Face(c)
    ensures forall k | |c.calls| <= k < |OnReply(c, call, reply, hooked).calls| ::
              OnReply(c, call, reply, hooked).calls[k].request.Read?
  {
  }

  /** The save was confirmed: d says so, or has already begun the queued save that follows. */
  predicate Confirmed(c: Client, d: Client) {
    d.status.Saved? || d.status.SavedNewer? || d.generation != c.generation
  }

  /** The text and BASE of c are untouched in d, which is idle, modified and has nothing queued. */
  predicate TextKept(c: Client, d: Client) {
    && d.bytes == c.bytes && d.base == c.base && d.modified
    && d.active.None? && d.queued.None? && d.generation == c.generation && d.calls == c.calls
  }

  /** How any terminal step can end. */
  predicate Ended(c: Client, d: Client) { Confirmed(c, d) || TextKept(c, d) || d == c }

  lemma FinishSuccessEnds(c: Client, op: Op, rev: Rev, hooked: Bytes)
    requires op.bytes.Some?
    ensures Ended(c, FinishSuccess(c, op, rev, hooked))
  {
  }

  lemma MergeSuccessEnds(c: Client, op: Op, rev: Rev, hooked: Bytes)
    requires op.bytes.Some? && op.snapshot.Some?
    ensures Ended(c, MergeSuccess(c, op, rev, hooked))
  {
  }

  /** How a callback can leave the buffer. */
  ghost predicate Settled(c: Client, d: Client) {
    Confirmed(c, d) || TextKept(c, d) || Face(d) == Face(c)
  }

  lemma WriteDoneSettles(c: Client, op: Op, reply: Reply, hooked: Bytes)
    requires op.bytes.Some? || !reply.Wrote?
    ensures Settled(c, OnWriteDone(c, op, reply, hooked))
  {
    if reply.Wrote? { FinishSuccessEnds(c, op, reply.rev, hooked); }
  }

  lemma ReconcileSettles(c: Client, op: Op, reply: Reply, hooked: Bytes)
    ensures Settled(c, OnReconcile(c, op, reply, hooked))
  {
    if reply.Got? && ReconcileUncertain(BaseBytes(op.base), op.bytes, reply.snap.bytes).Matches? {
      FinishSuccessEnds(c, op, reply.snap.rev, hooked);
    }
  }

  lemma ConflictReadSettles(c: Client, op: Op, reason: Reason, reply: Reply, hooked: Bytes)
    requires op.bytes.Some?
    ensures Settled(c, OnConflictRead(c, op, reason, reply, hooked))
  {
    var remote := ConflictRemote(reason, reply);
    if remote.Some? { FinishSuccessEnds(c, op, remote.value.snap.rev, hooked); }
  }

  lemma InspectSettles(c: Client, op: Op, state: Option<Conflict>, reply: Reply, hooked: Bytes)
    requires op.bytes == (if state.Some? then state.value.local else None)
    requires op.base == (if state.Some? then state.value.base else None)
    ensures Settled(c, OnInspect(c, op, state, reply, hooked))
  {
    if reply.Got? && ReconcileUncertain(BaseBytes(op.base), op.bytes, reply.snap.bytes).Matches? {
      FinishSuccessEnds(c, op, reply.snap.rev, hooked);
    }
  }

  lemma MergeVerifySettles(c: Client, op: Op, reply: Reply)
    requires op.snapshot.Some?
    ensures Settled(c, OnMergeVerify(c, op, reply))
  {
  }

  lemma MergeWriteDoneSettles(c: Client, op: Op, reply: Reply, hooked: Bytes)
    requires op.bytes.Some? && op.snapshot.Some?
    ensures Settled(c, OnMergeWriteDone(c, op, reply, hooked))
  {
    if reply.Wrote? { MergeSuccessEnds(c, op, reply.rev, hooked); }
  }

  lemma MergeReconcileSettles(c: Client, op: Op, reply: Reply, hooked: Bytes)
    requires op.bytes.Some? && op.snapshot.Some?
    ensures Settled(c, OnMergeReconcile(c, op, reply, hooked))
  {
    if reply.Got? { MergeSuccessEnds(c, op, reply.snap.rev, hooked); }
  }

  lemma ReplySettles(c: Client, call: Call, reply: Reply, hooked: Bytes)
    requires CallShape(call) && Fits(call, reply)
    ensures Settled(c, OnReply(c, call, reply, hooked))
  {
    var op := call.op;
    match call.stage {
      case WriteDone => WriteDoneSettles(c, op, reply, hooked);
      case Reconcile => ReconcileSettles(c, op, reply, hooked);
      case ConflictRead(reason) => ConflictReadSettles(c, op, reason, reply, hooked);
      case Inspect(state) => InspectSettles(c, op, state, reply, hooked);
      case MergeVerify => MergeVerifySettles(c, op, reply);
      case MergeWriteDone => MergeWriteDoneSettles(c, op, reply, hooked);
      case MergeReconcile => MergeReconcileSettles(c, op, reply, hooked);
      case MergeConflictRead(reason) =>
    }
  }

  /** BASE and the text only move on a success.  A reply that leaves the operation active, because a read has
      to follow, changes nothing but the requests made; every other end of an operation keeps the text and BASE,
      marks the buffer modified and empties the queue. */
  lemma NonSuccessKeepsText(c: Client, call: Call, reply: Reply, hooked: Bytes)
    requires Good(c) && call in c.calls && Fits(call, reply)
    requires c.active.Some?
    ensures var d := OnReply(c, call, reply, hooked);
            Confirmed(c, d) || if d.status.Saving? then Face(d) == Face(c) else TextKept(c, d)
  {
    ReplyKeepsGood(c, call, reply, hooked);
    ReplySettles(c, call, reply, hooked);
    SettledWhileActive(c, OnReply(c, call, reply, hooked));
  }

  lemma SettledWhileActive(c: Client, d: Client)
    requires Controlled(c) && Controlled(d) && c.active.Some? && Settled(c, d)
    ensures Confirmed(c, d) || if d.status.Saving? then Face(d) == Face(c) else TextKept(c, d)
  {
  }
}
