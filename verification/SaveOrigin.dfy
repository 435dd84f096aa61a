/** Which file a recorded revision is a version of.  A buffer that is not renamed records versions of its own file
    only, except when the refusal or the loss of a Save As is read back from the target. */
module SaveOrigin {
  import opened Common
  import opened SaveState
  import opened SaveControl
  import opened SaveHeld
  import opened SaveStore

  // ---------------------------------------------------------------------------------------------
  // Where requests go

  /** Only a Save As is aimed at another file than the buffer's. */
  predicate AimedOp(op: Op) { op.target.Some? ==> op.choice == Some(SaveAs) && !op.merge }

  /** A request concerns its operation's target. */
  predicate AimedCall(call: Call) {
    AimedOp(call.op) && call.request.file == Target(call.op) && (call.stage.Inspect? ==> call.op.target.None?)
  }

  ghost predicate Aimed(c: Client) {
    && (forall call <- c.calls :: AimedCall(call))
    && (c.active.Some? ==> AimedOp(c.active.value))
    && (c.queued.Some? ==> c.queued.value.target.None?)
  }

  lemma VisitedAims(file: FileId, base: Snap)
    ensures Aimed(Visited(file, base))
  {
  }

  lemma OneMoreAimed(calls: seq<Call>, call: Call)
    requires (forall x <- calls :: AimedCall(x)) && AimedCall(call)
    ensures forall x <- calls + [call] :: AimedCall(x)
  {
  }

  lemma DispatchAims(c: Client, op: Op)
    requires Aimed(c) && AimedOp(op)
    ensures Aimed(Dispatch(c, op))
  {
    OneMoreAimed(c.calls, Dispatch(c, op).calls[|c.calls|]);
  }

  lemma AskAims(c: Client, op: Op, stage: Stage, file: Option<FileId>)
    requires Aimed(c) && AimedCall(Call(op, stage, Read(file)))
    ensures Aimed(Ask(c, op, stage, file))
  {
    OneMoreAimed(c.calls, Call(op, stage, Read(file)));
  }

  lemma FinishSuccessAims(c: Client, op: Op, rev: Rev, hooked: Bytes)
    requires Aimed(c) && op.bytes.Some?
    ensures Aimed(FinishSuccess(c, op, rev, hooked))
  {
    if c.live && Current(c, op) && QueueFollows(c, op) {
      DispatchAims(Confirm(c, op, rev, hooked),
                   c.queued.value.(base := Some(Snap(op.bytes.value, rev)), expected := Some(rev)));
    }
  }

  lemma WriteDoneAims(c: Client, op: Op, reply: Reply, hooked: Bytes)
    requires Aimed(c) && AimedOp(op) && (op.bytes.Some? || !reply.Wrote?)
    ensures Aimed(OnWriteDone(c, op, reply, hooked))
  {
    match reply {
      case Wrote(rev) => FinishSuccessAims(c, op, rev, hooked);
      case Lost => AskAims(c, op, Reconcile, Target(op));
      case Refused(reason) => AskAims(c, op, ConflictRead(reason), Target(op));
      case _ =>
    }
  }

  lemma ReconcileAims(c: Client, op: Op, reply: Reply, hooked: Bytes)
    requires Aimed(c)
    ensures Aimed(OnReconcile(c, op, reply, hooked))
  {
    if reply.Got? && op.bytes.Some? { FinishSuccessAims(c, op, reply.snap.rev, hooked); }
  }

  lemma ConflictReadAims(c: Client, op: Op, reason: Reason, reply: Reply, hooked: Bytes)
    requires Aimed(c) && op.bytes.Some?
    ensures Aimed(OnConflictRead(c, op, reason, reply, hooked))
  {
    var remote := ConflictRemote(reason, reply);
    if remote.Some? { FinishSuccessAims(c, op, remote.value.snap.rev, hooked); }
  }

  lemma InspectAims(c: Client, op: Op, state: Option<Conflict>, reply: Reply, hooked: Bytes)
    requires Aimed(c)
    requires op.bytes == (if state.Some? then state.value.local else None)
    requires op.base == (if state.Some? then state.value.base else None)
    ensures Aimed(OnInspect(c, op, state, reply, hooked))
  {
    if reply.Got? && op.bytes.Some? { FinishSuccessAims(c, op, reply.snap.rev, hooked); }
  }

  lemma MergeVerifyAims(c: Client, op: Op, reply: Reply)
    requires Aimed(c) && AimedOp(op) && op.merge && op.snapshot.Some?
    ensures Aimed(OnMergeVerify(c, op, reply))
  {
    var d := OnMergeVerify(c, op, reply);
    if |d.calls| > |c.calls| { OneMoreAimed(c.calls, d.calls[|c.calls|]); }
  }

  lemma MergeWriteDoneAims(c: Client, op: Op, reply: Reply, hooked: Bytes)
    requires Aimed(c) && AimedOp(op) && op.merge && op.snapshot.Some? && op.bytes.Some?
    ensures Aimed(OnMergeWriteDone(c, op, reply, hooked))
  {
    match reply {
      case Lost => AskAims(c, op, MergeReconcile, op.ident);
      case Refused(reason) => AskAims(c, op, MergeConflictRead(reason), op.ident);
      case _ =>
    }
  }

  lemma ReplyAims(c: Client, call: Call, reply: Reply, hooked: Bytes)
    requires Good(c) && call in c.calls && Fits(call, reply) && Aimed(c)
    ensures Aimed(OnReply(c, call, reply, hooked))
  {
    var op := call.op;
    assert AimedCall(call);
    match call.stage {
      case WriteDone => WriteDoneAims(c, op, reply, hooked);
      case Reconcile => ReconcileAims(c, op, reply, hooked);
      case ConflictRead(reason) => ConflictReadAims(c, op, reason, reply, hooked);
      case Inspect(state) => InspectAims(c, op, state, reply, hooked);
      case MergeVerify => MergeVerifyAims(c, op, reply);
      case MergeWriteDone => MergeWriteDoneAims(c, op, reply, hooked);
      case MergeReconcile =>
      case MergeConflictRead(reason) =>
    }
  }

  lemma QueueOrDispatchAims(c: Client, op: Op)
    requires Aimed(c) && op.target.None?
    ensures Aimed(QueueOrDispatch(c, op))
  {
    if c.active.None? { DispatchAims(c, op); }
  }

  lemma ResolveConflictAims(c: Client, choice: Choice, saveAs: FileId)
    requires Aimed(c)
    ensures Aimed(ResolveConflict(c, choice, saveAs))
  {
    if c.conflict.Some? && (choice.KeepLocal? || choice.RestoreBase? || choice.SaveAs?) {
      DispatchAims(c, Resolution(c, c.conflict.value, choice, saveAs));
    }
  }

  lemma InspectUnknownAims(c: Client)
    requires Aimed(c)
    ensures Aimed(InspectUnknown(c))
  {
    OneMoreAimed(c.calls, InspectUnknown(c).calls[|c.calls|]);
  }

  lemma PreparedAims(c: Client, prepared: Bytes)
    requires Aimed(c)
    ensures Aimed(Prepared(c, prepared))
  {
  }

  lemma SaveCommandAims(c: Client, prepared: Bytes, choice: Choice, saveAs: FileId)
    requires Aimed(c)
    ensures Aimed(SaveCommand(c, prepared, choice, saveAs))
  {
    var p := Prepared(c, prepared);
    PreparedAims(c, prepared);
    if c.ident.None? {
    } else if c.status.InConflict? {
      ResolveConflictAims(c, choice, saveAs);
    } else if c.status.Unknown? && c.conflict.Some? && c.conflict.value.tag.Retry? {
      QueueOrDispatchAims(p, RetryOperation(p, prepared));
    } else if c.status.Unknown? {
      InspectUnknownAims(c);
    } else {
      QueueOrDispatchAims(p, Captured(p, None, None, prepared));
    }
  }

  lemma ApplyMergeAims(c: Client, snapshot: Conflict, merged: Bytes)
    requires Aimed(c)
    ensures Aimed(ApplyMergeCommand(c, snapshot, merged))
  {
    var d := ApplyMergeCommand(c, snapshot, merged);
    if |d.calls| > |c.calls| { OneMoreAimed(c.calls, d.calls[|c.calls|]); }
  }

  lemma CommandAims(c: Client, cmd: Command)
    requires Aimed(c)
    ensures Aimed(OnCommand(c, cmd))
  {
    match cmd {
      case Save(prepared, choice, saveAs) => SaveCommandAims(c, prepared, choice, saveAs);
      case ApplyMerge(snapshot, merged) => ApplyMergeAims(c, snapshot, merged);
      case _ =>
    }
  }

  // ---------------------------------------------------------------------------------------------
  // Which file an operation belongs to, without renames

  /** Every operation was captured for the file the buffer still visits. */
  ghost predicate Home(c: Client) {
    && (forall call <- c.calls :: call.op.ident == c.ident)
    && (c.active.Some? ==> c.active.value.ident == c.ident)
    && (c.queued.Some? ==> c.queued.value.ident == c.ident)
  }

  /** New requests are of the operation answered, or of the one that was waiting. */
  lemma ReplyStaysHome(c: Client, call: Call, reply: Reply, hooked: Bytes)
    requires Good(c) && call in c.calls && Fits(call, reply) && Home(c)
    ensures Home(OnReply(c, call, reply, hooked)) && OnReply(c, call, reply, hooked).ident == c.ident
  {
    assert CallShape(call);
    ReplyAddsOne(c, call, reply, hooked);
    AddedStaysHome(c, call.op, OnReply(c, call, reply, hooked));
  }

  lemma AddedStaysHome(c: Client, op: Op, d: Client)
    requires Home(c) && op.ident == c.ident && Added(c, op, d)
    ensures Home(d)
  {
    forall call <- d.calls ensures call.op.ident == d.ident {
      assert call in c.calls || call == d.calls[|c.calls|];
    }
  }

  lemma FinishSuccessAddsOne(c: Client, op: Op, rev: Rev, hooked: Bytes)
    requires op.bytes.Some?
    ensures Added(c, op, FinishSuccess(c, op, rev, hooked))
  {
  }

  /** d has at most one request more than c, of an operation with the identity of `op` or of c's queued one; and what
      is active or queued in d was so in c or is that operation. */
  ghost predicate Added(c: Client, op: Op, d: Client) {
    && d.ident == c.ident && c.calls <= d.calls && |d.calls| <= |c.calls| + 1
    && (|d.calls| > |c.calls| ==> Known(c, op, d.calls[|c.calls|].op.ident))
    && (d.active.Some? && d.active != c.active ==> Known(c, op, d.active.value.ident))
    && (d.queued.Some? ==> d.queued == c.queued)
  }

  predicate Known(c: Client, op: Op, ident: Option<FileId>) {
    ident == op.ident || (c.queued.Some? && ident == c.queued.value.ident)
  }

  lemma ConflictReadAddsOne(c: Client, op: Op, reason: Reason, reply: Reply, hooked: Bytes)
    requires op.bytes.Some?
    ensures Added(c, op, OnConflictRead(c, op, reason, reply, hooked))
  {
    var remote := ConflictRemote(reason, reply);
    if remote.Some? { FinishSuccessAddsOne(c, op, remote.value.snap.rev, hooked); }
  }

  lemma ReconcileAddsOne(c: Client, op: Op, reply: Reply, hooked: Bytes)
    ensures Added(c, op, OnReconcile(c, op, reply, hooked))
  {
    if reply.Got? && op.bytes.Some? { FinishSuccessAddsOne(c, op, reply.snap.rev, hooked); }
  }

  lemma InspectAddsOne(c: Client, op: Op, state: Option<Conflict>, reply: Reply, hooked: Bytes)
    requires op.bytes == (if state.Some? then state.value.local else None)
    requires op.base == (if state.Some? then state.value.base else None)
    ensures Added(c, op, OnInspect(c, op, state, reply, hooked))
  {
    if reply.Got? && op.bytes.Some? { FinishSuccessAddsOne(c, op, reply.snap.rev, hooked); }
  }

  lemma WriteDoneAddsOne(c: Client, op: Op, reply: Reply, hooked: Bytes)
    requires op.bytes.Some? || !reply.Wrote?
    ensures Added(c, op, OnWriteDone(c, op, reply, hooked))
  {
    if reply.Wrote? { FinishSuccessAddsOne(c, op, reply.rev, hooked); }
  }

  lemma ReplyAddsOne(c: Client, call: Call, reply: Reply, hooked: Bytes)
    requires CallShape(call) && Fits(call, reply)
    ensures Added(c, call.op, OnReply(c, call, reply, hooked))
  {
    var op := call.op;
    match call.stage {
      case WriteDone => WriteDoneAddsOne(c, op, reply, hooked);
      case Reconcile => ReconcileAddsOne(c, op, reply, hooked);
      case ConflictRead(reason) => ConflictReadAddsOne(c, op, reason, reply, hooked);
      case Inspect(state) => InspectAddsOne(c, op, state, reply, hooked);
      case MergeVerify => MergeVerifyAddsOne(c, op, reply);
      case MergeWriteDone => MergeWriteDoneAddsOne(c, op, reply, hooked);
      case MergeReconcile =>
      case MergeConflictRead(reason) =>
    }
  }

  lemma MergeVerifyAddsOne(c: Client, op: Op, reply: Reply)
    requires op.snapshot.Some?
    ensures Added(c, op, OnMergeVerify(c, op, reply))
  {
  }

  lemma MergeWriteDoneAddsOne(c: Client, op: Op, reply: Reply, hooked: Bytes)
    requires op.bytes.Some? && op.snapshot.Some?
    ensures Added(c, op, OnMergeWriteDone(c, op, reply, hooked))
  {
  }

  lemma CommandStaysHome(c: Client, cmd: Command)
    requires Home(c) && !cmd.Rename?
    ensures Home(OnCommand(c, cmd)) && OnCommand(c, cmd).ident == c.ident
  {
    match cmd {
      case Save(prepared, choice, saveAs) => SaveCommandStaysHome(c, prepared, choice, saveAs);
      case _ =>
    }
  }

  lemma ResolveConflictStaysHome(c: Client, choice: Choice, saveAs: FileId)
    requires Home(c)
    ensures Home(ResolveConflict(c, choice, saveAs)) && ResolveConflict(c, choice, saveAs).ident == c.ident
  {
  }

  lemma QueueOrDispatchStaysHome(c: Client, op: Op)
    requires Home(c) && op.ident == c.ident
    ensures Home(QueueOrDispatch(c, op)) && QueueOrDispatch(c, op).ident == c.ident
  {
  }

  lemma SaveCommandStaysHome(c: Client, prepared: Bytes, choice: Choice, saveAs: FileId)
    requires Home(c)
    ensures Home(SaveCommand(c, prepared, choice, saveAs)) && SaveCommand(c, prepared, choice, saveAs).ident == c.ident
  {
    var p := Prepared(c, prepared);
    if c.ident.None? {
    } else if c.status.InConflict? {
      ResolveConflictStaysHome(c, choice, saveAs);
    } else if c.status.Unknown? && c.conflict.Some? && c.conflict.value.tag.Retry? {
      QueueOrDispatchStaysHome(p, RetryOperation(p, prepared));
    } else if c.status.Unknown? {
      assert Home(InspectUnknown(c));
    } else {
      QueueOrDispatchStaysHome(p, Captured(p, None, None, prepared));
    }
  }

  // ---------------------------------------------------------------------------------------------
  // The system

  /** The reply's revision is a version of the file that was asked about. */
  predicate From(w: World, t: Ticket, reply: Reply)
    requires Asked(w, t.cid, t.index)
  {
    var file := CallOf(w, t.cid, t.index).request.file;
    && (reply.Wrote? ==> VersionOf(w, file, reply.rev))
    && (reply.Got? ==> VersionOf(w, file, reply.snap.rev))
  }

  predicate VersionOf(w: World, file: Option<FileId>, rev: Rev) {
    rev.Present? && rev.id in w.issued && Some(w.issued[rev.id].file) == file
  }

  ghost predicate Marked(w: World) {
    && (forall t, r | (t, r) in w.replies :: Asked(w, t.cid, t.index) && From(w, t, r))
    && (forall t <- w.served :: Asked(w, t.cid, t.index))
    && (forall cid <- w.clients :: Aimed(w.clients[cid]))
  }

  ghost predicate Tracked(w: World) { Inv(w) && Marked(w) }

  lemma SetClientKeepsMarked(w: World, cid: nat, d: Client)
    requires Marked(w) && Aimed(d) && (cid in w.clients ==> w.clients[cid].calls <= d.calls)
    ensures Marked(SetClient(w, cid, d))
  {
    var v := SetClient(w, cid, d);
    forall t, r | (t, r) in v.replies ensures Asked(v, t.cid, t.index) && From(v, t, r) {
      assert Asked(w, t.cid, t.index) && From(w, t, r);
      assert CallOf(v, t.cid, t.index) == CallOf(w, t.cid, t.index);
    }
  }

  predicate OfBuffer(e: Event) { e.Open? || e.Do? || e.Fault? || e.Deliver? }

  lemma ClientStepKeepsTracked(w: World, e: Event)
    requires Tracked(w) && Enabled(w, e) && OfBuffer(e)
    ensures Tracked(Apply(w, e))
  {
    StepKeepsInv(w, e);
    match e {
      case Open(cid, file, base) =>
        VisitedAims(file, base);
        SetClientKeepsMarked(w, cid, Visited(file, base));
      case Do(cid, cmd) =>
        CommandAims(w.clients[cid], cmd);
        CommandRecords(w.clients[cid], cmd, w.held[cid]);
        SetClientKeepsMarked(w, cid, OnCommand(w.clients[cid], cmd));
      case Fault(cid, index) =>
        SetClientKeepsMarked(w, cid, CallbackError(w.clients[cid], CallOf(w, cid, index).op));
      case Deliver(cid, index, reply, hooked) =>
        var c, call := w.clients[cid], CallOf(w, cid, index);
        ReplyAims(c, call, reply, hooked);
        CallsGrow(c, call, reply, hooked);
        SetClientKeepsMarked(w, cid, OnReply(c, call, reply, hooked));
      case _ =>
    }
  }

  /** The server only adds versions and replies. */
  ghost predicate Served(w: World, v: World) {
    && v.clients == w.clients && v.held == w.held
    && (forall id <- w.issued :: id in v.issued && v.issued[id] == w.issued[id])
  }

  lemma ServedKeepsFrom(w: World, v: World, t: Ticket, reply: Reply)
    requires Served(w, v) && Asked(w, t.cid, t.index) && From(w, t, reply)
    ensures Asked(v, t.cid, t.index) && From(v, t, reply)
  {
  }

  lemma PutServes(w: World, file: FileId, bytes: Bytes)
    requires StoreOk(w)
    ensures Served(w, Put(w, file, bytes))
  {
  }

  lemma ServerStepServes(w: World, e: Event)
    requires StoreOk(w) && Enabled(w, e) && !OfBuffer(e)
    ensures Served(w, Apply(w, e))
  {
    match e {
      case ServeWrite(cid, index, _) =>
        PutServes(w, CallOf(w, cid, index).request.file.value, CallOf(w, cid, index).request.bytes.value);
      case Outside(file, content) => if content.Some? { PutServes(w, file, content.value); }
      case _ =>
    }
  }

  lemma ServerStepTickets(w: World, e: Event)
    requires Enabled(w, e) && !OfBuffer(e)
    ensures forall t <- Apply(w, e).served :: t in w.served || Asked(w, t.cid, t.index)
  {
  }

  /** Every reply the server sends names a version of the file asked about. */
  lemma ServerRepliesFrom(w: World, e: Event, t: Ticket, reply: Reply)
    requires Inv(w) && Enabled(w, e) && !OfBuffer(e)
    requires (t, reply) in Apply(w, e).replies && (t, reply) !in w.replies
    ensures Asked(w, t.cid, t.index) && From(w, t, reply)
  {
  }

  lemma ServerStepKeepsTracked(w: World, e: Event)
    requires Tracked(w) && Enabled(w, e) && !OfBuffer(e)
    ensures Tracked(Apply(w, e))
  {
    var v := Apply(w, e);
    StepKeepsInv(w, e);
    ServerStepServes(w, e);
    ServerStepTickets(w, e);
    forall t, r | (t, r) in v.replies ensures Asked(v, t.cid, t.index) && From(v, t, r) {
      if (t, r) !in w.replies { ServerRepliesFrom(w, e, t, r); }
      ServedKeepsFrom(w, v, t, r);
    }
  }

  lemma {:induction false} RunKeepsTracked(es: seq<Event>, ws: seq<World>, n: nat)
    requires Runs(es, ws) && n <= |es|
    ensures Tracked(ws[n])
  {
    if n == 0 {
      InitInv();
    } else {
      RunKeepsTracked(es, ws, n - 1);
      var e := es[n - 1];
      if OfBuffer(e) {
        ClientStepKeepsTracked(ws[n - 1], e);
      } else {
        ServerStepKeepsTracked(ws[n - 1], e);
      }
    }
  }

  // ---------------------------------------------------------------------------------------------
  // Own versions and adopted ones

  /** The revision, if there is one, is of the buffer's own file. */
  predicate OwnSnap(w: World, ident: Option<FileId>, s: Snap) { s.rev.Present? ==> VersionOf(w, ident, s.rev) }

  /** Everything the buffer has ever recorded as BASE or REMOTE is of its own file. */
  ghost predicate AllOwn(w: World, cid: nat)
    requires cid in w.clients
  {
    forall s <- HeldBy(w, cid) :: OwnSnap(w, w.clients[cid].ident, s)
  }

  /** The read after a refused or a lost write records its answer as REMOTE. */
  predicate RecordsRemote(c: Client, call: Call, reply: Reply) {
    && c.live && Current(c, call.op) && reply.Got?
    && match call.stage
       case ConflictRead(_) => PriorLocal(call.op) != Some(reply.snap.bytes)
       case Reconcile => call.op.bytes != Some(reply.snap.bytes)
       case _ => false
  }

  /** It does, and the write was aimed at another file: a Save As. */
  predicate Adopts(c: Client, call: Call, reply: Reply) { RecordsRemote(c, call, reply) && Target(call.op) != c.ident }

  lemma RemoteRecorded(c: Client, call: Call, reply: Reply, hooked: Bytes)
    requires CallShape(call) && Fits(call, reply) && RecordsRemote(c, call, reply)
    ensures var d := OnReply(c, call, reply, hooked);
            && d.ident == c.ident && reply.snap in Recorded(d)
            && d.conflict.Some? && d.conflict.value.remote == Some(Remote(reply.snap, false))
  {
  }

  /** A REMOTE recorded after a refused or lost write is a version of the buffer's own file if and only if that is
      where the write was aimed, whatever became of the buffer's name since. */
  lemma RemoteIsOwnExactly(w: World, cid: nat, index: nat, reply: Reply, hooked: Bytes)
    requires Tracked(w) && Enabled(w, Deliver(cid, index, reply, hooked))
    requires RecordsRemote(w.clients[cid], CallOf(w, cid, index), reply)
    ensures var c := w.clients[cid];
            var v := Apply(w, Deliver(cid, index, reply, hooked));
            && v.clients[cid].conflict.Some?
            && v.clients[cid].conflict.value.remote == Some(Remote(reply.snap, false)) && reply.snap in v.held[cid]
            && (OwnSnap(v, v.clients[cid].ident, reply.snap) <==> Target(CallOf(w, cid, index).op) == c.ident)
  {
    var c, call := w.clients[cid], CallOf(w, cid, index);
    RemoteRecorded(c, call, reply, hooked);
    assert AimedCall(call) && From(w, Ticket(cid, index), reply);
  }

  /** What a reply records without adopting is of the buffer's own file. */
  lemma OwnUnlessAdopted(w: World, cid: nat, index: nat, reply: Reply, hooked: Bytes, s: Snap)
    requires Tracked(w) && Enabled(w, Deliver(cid, index, reply, hooked)) && Home(w.clients[cid]) && AllOwn(w, cid)
    requires !Adopts(w.clients[cid], CallOf(w, cid, index), reply)
    requires s in Recorded(OnReply(w.clients[cid], CallOf(w, cid, index), reply, hooked))
    ensures OwnSnap(w, w.clients[cid].ident, s)
  {
    var c, call := w.clients[cid], CallOf(w, cid, index);
    assert AimedCall(call) && call.op.ident == c.ident;
    assert reply.Lost? || From(w, Ticket(cid, index), reply);
    ReplyRecords(c, call, reply, hooked, w.held[cid], s);
    if s !in w.held[cid] {
      assert forall x <- Recorded(c) :: x in w.held[cid];
      NewIsOwn(c, call, reply, hooked, s);
    }
  }

  /** A pair newly recorded, and not adopted, comes from the operation's own file. */
  lemma NewIsOwn(c: Client, call: Call, reply: Reply, hooked: Bytes, s: Snap)
    requires CallShape(call) && Fits(call, reply) && AimedCall(call) && call.op.ident == c.ident
    requires !Adopts(c, call, reply) && NewlyHeld(c, call, reply, s) && s !in Recorded(c)
    requires s in Recorded(OnReply(c, call, reply, hooked))
    ensures s.rev.Present? ==> Target(call.op) == c.ident && (reply.Wrote? || reply.Got?)
    ensures s.rev.Present? ==> s.rev == if reply.Wrote? then reply.rev else reply.snap.rev
  {
    var op := call.op;
    if op.target.Some? && s.rev.Present? {
      match call.stage {
        case WriteDone => WriteDoneTarget(c, op, reply, hooked, s);
        case Reconcile => ReconcileTarget(c, op, reply, hooked, s);
        case ConflictRead(reason) => ConflictReadTarget(c, call, reply, hooked, s);
        case _ =>
      }
    }
  }

  /** A confirmed Save As records nothing. */
  lemma SaveAsRecordsNothing(c: Client, op: Op, rev: Rev, hooked: Bytes, s: Snap)
    requires op.bytes.Some? && op.choice == Some(SaveAs) && s in Recorded(FinishSuccess(c, op, rev, hooked))
    ensures s in Recorded(c)
  {
  }

  lemma WriteDoneTarget(c: Client, op: Op, reply: Reply, hooked: Bytes, s: Snap)
    requires (op.bytes.Some? || !reply.Wrote?) && op.choice == Some(SaveAs)
    requires s in Recorded(OnWriteDone(c, op, reply, hooked))
    ensures s in Recorded(c)
  {
    if reply.Wrote? { SaveAsRecordsNothing(c, op, reply.rev, hooked, s); }
  }

  lemma ReconcileTarget(c: Client, op: Op, reply: Reply, hooked: Bytes, s: Snap)
    requires op.choice == Some(SaveAs) && s in Recorded(OnReconcile(c, op, reply, hooked))
    ensures s in Recorded(c) || (c.live && Current(c, op) && reply.Got? && s == reply.snap && op.bytes != Some(s.bytes))
  {
    if reply.Got? && op.bytes == Some(reply.snap.bytes) { SaveAsRecordsNothing(c, op, reply.snap.rev, hooked, s); }
  }

  lemma ConflictReadTarget(c: Client, call: Call, reply: Reply, hooked: Bytes, s: Snap)
    requires CallShape(call) && call.stage.ConflictRead? && call.op.choice == Some(SaveAs) && s.rev.Present?
    requires s in Recorded(OnConflictRead(c, call.op, call.stage.reason, reply, hooked))
    ensures s in Recorded(c)
            || (c.live && Current(c, call.op) && reply.Got? && s == reply.snap && PriorLocal(call.op) != Some(s.bytes))
  {
    var remote := ConflictRemote(call.stage.reason, reply);
    if remote.Some? && PriorLocal(call.op) == Some(remote.value.snap.bytes) {
      SaveAsRecordsNothing(c, call.op, remote.value.snap.rev, hooked, s);
    }
  }

  // ---------------------------------------------------------------------------------------------
  // Over runs

  predicate Renames(e: Event, cid: nat) { e.Do? && e.cid == cid && e.cmd.Rename? }

  ghost predicate AdoptsAt(w: World, e: Event, cid: nat)
    requires Enabled(w, e)
  {
    e.Deliver? && e.cid == cid && Adopts(w.clients[cid], CallOf(w, cid, e.index), e.reply)
  }

  /** The buffer, if it exists, was never renamed, and everything it recorded is of its own file. */
  ghost predicate OwnSoFar(w: World, cid: nat) { cid in w.clients ==> Home(w.clients[cid]) && AllOwn(w, cid) }

  ghost predicate HomeSoFar(w: World, cid: nat) { cid in w.clients ==> Home(w.clients[cid]) }

  /** What a step does to buffer `cid` when it is a step of that buffer, and when it is not. */
  ghost predicate Becomes(w: World, v: World, cid: nat, d: Client) {
    && cid in v.clients && v.clients[cid] == d && v.issued == w.issued
    && cid in v.held && v.held[cid] == HeldBy(w, cid) + Recorded(d)
  }

  ghost predicate Untouched(w: World, v: World, cid: nat) {
    && (cid in w.clients <==> cid in v.clients) && (cid in w.clients ==> v.clients[cid] == w.clients[cid])
    && HeldBy(v, cid) == HeldBy(w, cid)
    && (forall id <- w.issued :: id in v.issued && v.issued[id] == w.issued[id])
  }

  /** How a step that does not rename buffer `cid` can change it. */
  ghost predicate Moves(w: World, v: World, cid: nat) {
    || Untouched(w, v, cid)
    || (cid in v.clients && Becomes(w, v, cid, v.clients[cid])
        && (cid in w.clients ==> v.clients[cid].ident == w.clients[cid].ident))
  }

  /** The buffer after a step of its own. */
  function Next(w: World, e: Event): Client
    requires Enabled(w, e) && OfBuffer(e)
  {
    match e
    case Open(_, file, base) => Visited(file, base)
    case Do(cid, cmd) => OnCommand(w.clients[cid], cmd)
    case Fault(cid, index) => CallbackError(w.clients[cid], CallOf(w, cid, index).op)
    case Deliver(cid, index, reply, hooked) => OnReply(w.clients[cid], CallOf(w, cid, index), reply, hooked)
  }

  lemma NextIs(w: World, e: Event)
    requires Enabled(w, e) && OfBuffer(e)
    ensures Apply(w, e) == SetClient(w, e.cid, Next(w, e))
  {
  }

  lemma SetClientMoves(w: World, x: nat, d: Client, cid: nat)
    ensures if x == cid then Becomes(w, SetClient(w, x, d), cid, d) else Untouched(w, SetClient(w, x, d), cid)
  {
  }

  lemma NextStaysHome(w: World, e: Event)
    requires Inv(w) && Enabled(w, e) && OfBuffer(e) && !Renames(e, e.cid) && HomeSoFar(w, e.cid)
    ensures Home(Next(w, e)) && (e.cid in w.clients ==> Next(w, e).ident == w.clients[e.cid].ident)
  {
    match e {
      case Do(cid, cmd) => CommandStaysHome(w.clients[cid], cmd);
      case Deliver(cid, index, reply, hooked) => ReplyStaysHome(w.clients[cid], CallOf(w, cid, index), reply, hooked);
      case _ =>
    }
  }

  lemma StepMoves(w: World, e: Event, cid: nat)
    requires Inv(w) && Enabled(w, e) && !Renames(e, cid) && HomeSoFar(w, cid)
    ensures Moves(w, Apply(w, e), cid) && HomeSoFar(Apply(w, e), cid)
  {
    if OfBuffer(e) {
      NextIs(w, e);
      SetClientMoves(w, e.cid, Next(w, e), cid);
      if e.cid == cid { NextStaysHome(w, e); }
    } else {
      ServerStepServes(w, e);
    }
  }

  lemma UntouchedStaysOwn(w: World, v: World, cid: nat)
    requires Untouched(w, v, cid) && OwnSoFar(w, cid)
    ensures OwnSoFar(v, cid)
  {
  }

  /** What a step of the buffer newly records. */
  lemma NextRecordsOwn(w: World, e: Event, s: Snap)
    requires Tracked(w) && Enabled(w, e) && OfBuffer(e) && !Renames(e, e.cid)
    requires OwnSoFar(w, e.cid) && !AdoptsAt(w, e, e.cid) && s in Recorded(Next(w, e))
    ensures OwnSnap(w, if e.Open? then Some(e.file) else w.clients[e.cid].ident, s)
  {
    match e {
      case Open(_, file, base) =>
      case Do(cid, cmd) => CommandRecords(w.clients[cid], cmd, w.held[cid]);
      case Fault(cid, index) => FaultRecords(w.clients[cid], CallOf(w, cid, index), w.held[cid]);
      case Deliver(cid, index, reply, hooked) => OwnUnlessAdopted(w, cid, index, reply, hooked, s);
    }
  }

  lemma SetClientStaysOwn(w: World, cid: nat, d: Client)
    requires OwnSoFar(w, cid) && Home(d) && w.clients.Keys == w.held.Keys
    requires cid in w.clients ==> d.ident == w.clients[cid].ident
    requires forall s <- Recorded(d) :: OwnSnap(w, d.ident, s)
    ensures OwnSoFar(SetClient(w, cid, d), cid)
  {
  }

  lemma StepKeepsOwn(w: World, e: Event, cid: nat)
    requires Tracked(w) && Enabled(w, e) && !Renames(e, cid) && OwnSoFar(w, cid) && !AdoptsAt(w, e, cid)
    ensures OwnSoFar(Apply(w, e), cid)
  {
    if !OfBuffer(e) {
      ServerStepServes(w, e);
      UntouchedStaysOwn(w, Apply(w, e), cid);
    } else {
      NextIs(w, e);
      if e.cid == cid {
        OwnStep(w, e);
      } else {
        SetClientMoves(w, e.cid, Next(w, e), cid);
        UntouchedStaysOwn(w, Apply(w, e), cid);
      }
    }
  }

  lemma OwnStep(w: World, e: Event)
    requires Tracked(w) && Enabled(w, e) && OfBuffer(e) && !Renames(e, e.cid)
    requires OwnSoFar(w, e.cid) && !AdoptsAt(w, e, e.cid)
    ensures OwnSoFar(SetClient(w, e.cid, Next(w, e)), e.cid)
  {
    var d := Next(w, e);
    NextStaysHome(w, e);
    forall s <- Recorded(d) ensures OwnSnap(w, d.ident, s) { NextRecordsOwn(w, e, s); }
    SetClientStaysOwn(w, e.cid, d);
  }

  /** Once something of another file has been recorded, it has been. */
  lemma ForeignStays(w: World, e: Event, cid: nat)
    requires Tracked(w) && Enabled(w, e) && !Renames(e, cid) && HomeSoFar(w, cid)
    requires cid in w.clients && !AllOwn(w, cid)
    ensures cid in Apply(w, e).clients && !AllOwn(Apply(w, e), cid)
  {
    var v := Apply(w, e);
    var s :| s in HeldBy(w, cid) && !OwnSnap(w, w.clients[cid].ident, s);
    StepMoves(w, e, cid);
    assert s.rev.Present? && s.rev.id in w.issued;
    assert s in HeldBy(v, cid) && !OwnSnap(v, v.clients[cid].ident, s);
  }

  lemma AdoptionIsForeign(w: World, e: Event, cid: nat)
    requires Tracked(w) && Enabled(w, e) && AdoptsAt(w, e, cid)
    ensures cid in Apply(w, e).clients && !AllOwn(Apply(w, e), cid)
  {
    RemoteIsOwnExactly(w, cid, e.index, e.reply, e.hooked);
  }

  lemma {:induction false} RunOwn(es: seq<Event>, ws: seq<World>, cid: nat, n: nat)
    requires Runs(es, ws) && n <= |es| && forall i | 0 <= i < n :: !Renames(es[i], cid) && !AdoptsAt(ws[i], es[i], cid)
    ensures OwnSoFar(ws[n], cid)
  {
    if n > 0 {
      RunOwn(es, ws, cid, n - 1);
      RunKeepsTracked(es, ws, n - 1);
      StepKeepsOwn(ws[n - 1], es[n - 1], cid);
    }
  }

  lemma {:induction false} RunHome(es: seq<Event>, ws: seq<World>, cid: nat, n: nat)
    requires Runs(es, ws) && n <= |es| && forall i | 0 <= i < n :: !Renames(es[i], cid)
    ensures HomeSoFar(ws[n], cid)
  {
    if n > 0 {
      RunHome(es, ws, cid, n - 1);
      RunKeepsTracked(es, ws, n - 1);
      StepMoves(ws[n - 1], es[n - 1], cid);
    }
  }

  lemma {:induction false} RunForeign(es: seq<Event>, ws: seq<World>, cid: nat, i: nat, n: nat)
    requires Runs(es, ws) && i < n <= |es| && AdoptsAt(ws[i], es[i], cid)
    requires forall j | 0 <= j < n :: !Renames(es[j], cid)
    ensures cid in ws[n].clients && !AllOwn(ws[n], cid)
  {
    RunKeepsTracked(es, ws, n - 1);
    if i == n - 1 {
      AdoptionIsForeign(ws[i], es[i], cid);
    } else {
      RunForeign(es, ws, cid, i, n - 1);
      RunHome(es, ws, cid, n - 1);
      ForeignStays(ws[n - 1], es[n - 1], cid);
    }
  }

  /** In every run that does not rename a buffer, everything it ever recorded as BASE or REMOTE is a version of its
      own file, if and only if no refused or lost Save As was read back into it. */
  lemma OwnExactly(es: seq<Event>, ws: seq<World>, cid: nat)
    requires Runs(es, ws) && cid in ws[|es|].clients && forall i | 0 <= i < |es| :: !Renames(es[i], cid)
    ensures AllOwn(ws[|es|], cid) <==> forall i | 0 <= i < |es| :: !AdoptsAt(ws[i], es[i], cid)
  {
    if forall i | 0 <= i < |es| :: !AdoptsAt(ws[i], es[i], cid) {
      RunOwn(es, ws, cid, |es|);
    } else {
      var i :| 0 <= i < |es| && AdoptsAt(ws[i], es[i], cid);
      RunForeign(es, ws, cid, i, |es|);
    }
  }
}
