/** The state of one buffer's asynchronous saves, as a value, and what each command and each callback
    does to it.  SaveBuffer.dfy proves the step-by-step code against these functions; the properties
    are proved here and in SaveStore.dfy.

    Buffer text is taken as its UTF-8 bytes.  The order of the branches is the source's. */
module SaveState {
  import opened Common

  datatype FileId = FileId(authority: string, path: string)

  /** What a revision token says: the server minted `id` for exactly one version of one file, or
      the path held no file. */
  datatype Rev = Present(id: nat) | Missing

  /** A BASE or a REMOTE: bytes paired with the revision they were received with. */
  datatype Snap = Snap(bytes: Bytes, rev: Rev)

  /** A fetched REMOTE; `deleted` when the path was gone. */
  datatype Remote = Remote(snap: Snap, deleted: bool)

  datatype Reason =
    | Changed | Deleted | Appeared | TypeChanged          // kinds a server refusal names
    | LiveChanged | Transport | ClientError | BaseUnmoved // reasons the client records itself

  datatype Tag = NoTag | Retry | Uncertain

  /** `relay-conflict--state`.  Either byte field may be absent: see InspectUnknown. */
  datatype Conflict = Conflict(tag: Tag, reason: Reason, base: Option<Snap>, local: Option<Bytes>,
                               remote: Option<Remote>)

  datatype Choice = KeepLocal | KeepRemote | RestoreBase | Merge | SaveAs | Cancel

  datatype Status = Idle | Saving | Saved | SavedNewer | InConflict | Unknown | Failed

  /** A captured operation.  `generation` is 0 until it is dispatched. */
  datatype Op = Op(generation: nat, ident: Option<FileId>, bytes: Option<Bytes>, base: Option<Snap>,
                   expected: Option<Rev>, choice: Option<Choice>, snapshot: Option<Conflict>,
                   target: Option<FileId>, merge: bool)

  datatype Request =
    | Write(file: Option<FileId>, bytes: Option<Bytes>, expected: Option<Rev>)
    | Read(file: Option<FileId>)

  /** Which callback a reply runs. */
  datatype Stage =
    | WriteDone | Reconcile | ConflictRead(reason: Reason) | Inspect(state: Option<Conflict>)
    | MergeVerify | MergeWriteDone | MergeReconcile | MergeConflictRead(reason: Reason)

  /** One request handed to the transport together with its callback. */
  datatype Call = Call(op: Op, stage: Stage, request: Request)

  datatype Reply =
    | Wrote(rev: Rev)          // conditional write confirmed
    | Got(snap: Snap)          // read answered
    | Refused(reason: Reason)  // conflict, or an error code the client maps to one
    | Broken                   // any other server error
    | Lost                     // transport failure or timeout: the outcome is unknown

  datatype Client = Client(live: bool, ident: Option<FileId>, bytes: Bytes, modified: bool,
                           base: Option<Snap>, conflict: Option<Conflict>, active: Option<Op>,
                           queued: Option<Op>, generation: nat, status: Status,
                           merges: set<Conflict>, calls: seq<Call>)

  // ---------------------------------------------------------------------------------------------
  // Helpers that only look

  predicate SameIdent(a: Option<FileId>, b: Option<FileId>) { a.Some? && a == b }

  predicate SameRequest(a: Op, b: Option<Op>) {
    b.Some? && SameIdent(a.ident, b.value.ident) && a.bytes == b.value.bytes
  }

  predicate Current(c: Client, op: Op) {
    c.active == Some(op) && op.generation == c.generation
  }

  function Target(op: Op): Option<FileId> { if op.target.Some? then op.target else op.ident }

  function BaseBytes(base: Option<Snap>): Option<Bytes> {
    if base.Some? then Some(base.value.bytes) else None
  }

  function BaseRev(base: Option<Snap>): Option<Rev> {
    if base.Some? then Some(base.value.rev) else None
  }

  function FirstOf<T>(a: Option<T>, b: Option<T>): Option<T> { if a.Some? then a else b }

  function PriorBase(op: Op): Option<Snap> {
    FirstOf(if op.snapshot.Some? then op.snapshot.value.base else None, op.base)
  }

  function PriorLocal(op: Op): Option<Bytes> {
    FirstOf(if op.snapshot.Some? then op.snapshot.value.local else None, op.bytes)
  }

  /** `relay-save--snapshot-conflict`. */
  function SnapshotConflict(op: Op, reason: Reason, remote: Remote): Conflict {
    Conflict(NoTag, reason, PriorBase(op), PriorLocal(op), Some(remote))
  }

  datatype Outcome = Matches | RetryAtBase | Third

  /** `relay-conflict--reconcile-uncertain`. */
  function ReconcileUncertain(base: Option<Bytes>, local: Option<Bytes>, remote: Bytes): Outcome {
    if local == Some(remote) then Matches
    else if base == Some(remote) then RetryAtBase
    else Third
  }

  function MenuChoices(reason: Reason): set<Choice> {
    if reason.TypeChanged? then {SaveAs, Cancel}
    else {KeepLocal, KeepRemote, RestoreBase, Merge, SaveAs, Cancel}
  }

  // ---------------------------------------------------------------------------------------------
  // Terminal steps

  /** `relay-save--finish-nonsuccess`. */
  function NonSuccess(c: Client, op: Op, status: Status, conflict: Option<Conflict>): Client {
    if !c.live || !Current(c, op) then c
    else c.(active := None, queued := None, conflict := FirstOf(conflict, c.conflict),
            modified := true, status := status)
  }

  /** `relay-save--merge-refusal`, which also rebuilds the conflict state from the live buffer. */
  function MergeRefusal(c: Client, op: Op, status: Status, reason: Reason,
                        remote: Option<Remote>): Client
    requires op.snapshot.Some?
  {
    if !c.live || !(op.generation == 0 || Current(c, op)) then c
    else
      var snapshot := op.snapshot.value;
      c.(active := None, queued := None, modified := true, status := status,
         conflict := Some(Conflict(NoTag, reason, snapshot.base, Some(c.bytes),
                                   FirstOf(remote, snapshot.remote))))
  }

  /** `relay-save--callback-error`. */
  function CallbackError(c: Client, op: Op): Client
    requires op.merge ==> op.snapshot.Some?
  {
    if op.merge then MergeRefusal(c, op, Unknown, ClientError, None)
    else NonSuccess(c, op, Unknown, Some(Conflict(Uncertain, ClientError, op.base, op.bytes, None)))
  }

  /** `relay-save--dispatch`. */
  function Dispatch(c: Client, op0: Op): Client {
    var op := op0.(generation := c.generation + 1);
    c.(generation := c.generation + 1, active := Some(op), status := Saving, modified := true,
       calls := c.calls + [Call(op, WriteDone, Write(Target(op), op.bytes, op.expected))])
  }

  /** Restore Base confirmed while the buffer still shows LOCAL: BASE's text is installed. */
  function InstallBase(c: Client, op: Op, rev: Rev, hooked: Bytes): Client
    requires op.bytes.Some?
  {
    var bytes := op.bytes.value;
    c.(active := None, queued := None, bytes := hooked, base := Some(Snap(bytes, rev)),
       conflict := None, modified := hooked != bytes,
       status := if hooked == bytes then Saved else SavedNewer)
  }

  /** An ordinary confirmation, up to the point where the queue is looked at. */
  function Confirm(c: Client, op: Op, rev: Rev, hooked: Bytes): Client
    requires op.bytes.Some?
  {
    var bytes := op.bytes.value;
    var sameFile := SameIdent(op.ident, c.ident);
    var d := c.(active := None, queued := None, modified := true, status := SavedNewer);
    var e := if sameFile then d.(base := Some(Snap(bytes, rev)), conflict := None) else d;
    if sameFile && c.bytes == bytes
    then e.(bytes := hooked, modified := hooked != bytes,
            status := if hooked == bytes then Saved else SavedNewer)
    else e
  }

  predicate QueueFollows(c: Client, op: Op) {
    c.queued.Some? && SameIdent(op.ident, c.ident) && SameIdent(op.ident, c.queued.value.ident)
  }

  /** `relay-save--finish-success`.  `hooked` is the buffer's text after `after-save-hook`. */
  function FinishSuccess(c: Client, op: Op, rev: Rev, hooked: Bytes): Client
    requires op.bytes.Some?
  {
    if !c.live || !Current(c, op) then c
    else if op.choice == Some(SaveAs) then
      c.(active := None, queued := None, modified := true, status := InConflict)
    else if op.choice == Some(RestoreBase) && SameIdent(op.ident, c.ident)
            && op.snapshot.Some? && op.snapshot.value.local == Some(c.bytes) then
      InstallBase(c, op, rev, hooked)
    else if QueueFollows(c, op) then
      Dispatch(Confirm(c, op, rev, hooked),
               c.queued.value.(base := Some(Snap(op.bytes.value, rev)), expected := Some(rev)))
    else
      Confirm(c, op, rev, hooked)
  }

  /** `relay-save--merge-success`. */
  function MergeSuccess(c: Client, op: Op, rev: Rev, hooked: Bytes): Client
    requires op.bytes.Some? && op.snapshot.Some?
  {
    if !c.live || !Current(c, op) then c
    else
      var merged := op.bytes.value;
      var sameFile := SameIdent(op.ident, c.ident);
      var installable := sameFile && op.snapshot.value.local == Some(c.bytes);
      var d := c.(active := None, queued := None);
      var e := if sameFile then d.(base := Some(Snap(merged, rev)), conflict := None) else d;
      if installable then
        e.(bytes := hooked, modified := hooked != merged,
           status := if hooked == merged then Saved else SavedNewer)
      else
        e.(modified := true, status := SavedNewer)
  }

  // ---------------------------------------------------------------------------------------------
  // Callbacks

  function Ask(c: Client, op: Op, stage: Stage, file: Option<FileId>): Client {
    c.(calls := c.calls + [Call(op, stage, Read(file))])
  }

  /** `relay-save--write-done`. */
  function OnWriteDone(c: Client, op: Op, reply: Reply, hooked: Bytes): Client
    requires op.bytes.Some? || !reply.Wrote?
  {
    if c.live && !Current(c, op) then c
    else match reply
      case Wrote(rev) => FinishSuccess(c, op, rev, hooked)
      case Lost => Ask(c, op, Reconcile, Target(op))
      case Refused(reason) => Ask(c, op, ConflictRead(reason), Target(op))
      case _ => NonSuccess(c, op, Failed, None)
  }

  /** The callback of `relay-save--reconcile-transport`. */
  function OnReconcile(c: Client, op: Op, reply: Reply, hooked: Bytes): Client {
    if c.live && !Current(c, op) then c
    else if !reply.Got? then NonSuccess(c, op, Unknown, None)
    else
      var remote := Remote(reply.snap, false);
      match ReconcileUncertain(BaseBytes(op.base), op.bytes, reply.snap.bytes)
      case Matches => FinishSuccess(c, op, reply.snap.rev, hooked)
      case RetryAtBase =>
        NonSuccess(c, op, Unknown,
                   Some(Conflict(Retry, BaseUnmoved, op.base, op.bytes, Some(remote))))
      case Third => NonSuccess(c, op, InConflict, Some(SnapshotConflict(op, Changed, remote)))
  }

  /** What `relay-save--handle-conflict` takes for REMOTE; none when the read failed and the
      refusal was not a deletion. */
  function ConflictRemote(reason: Reason, reply: Reply): Option<Remote> {
    if reply.Got? then Some(Remote(reply.snap, false))
    else if reason.Deleted? then Some(Remote(Snap([], Missing), true))
    else None
  }

  /** The callback of `relay-save--handle-conflict`.  A REMOTE equal to the LOCAL of the conflict is
      accepted as convergent. */
  function OnConflictRead(c: Client, op: Op, reason: Reason, reply: Reply, hooked: Bytes): Client
    requires op.bytes.Some?
  {
    if c.live && !Current(c, op) then c
    else match ConflictRemote(reason, reply)
      case None => NonSuccess(c, op, Failed, None)
      case Some(remote) =>
        if PriorLocal(op) == Some(remote.snap.bytes) then FinishSuccess(c, op, remote.snap.rev, hooked)
        else NonSuccess(c, op, InConflict, Some(SnapshotConflict(op, reason, remote)))
  }

  /** The callback of `relay-save--inspect-unknown`, holding the conflict state it started from. */
  function OnInspect(c: Client, op: Op, state: Option<Conflict>, reply: Reply, hooked: Bytes): Client
    requires op.bytes == (if state.Some? then state.value.local else None)
    requires op.base == (if state.Some? then state.value.base else None)
  {
    if !reply.Got? then NonSuccess(c, op, Unknown, state)
    else
      var remote := Remote(reply.snap, false);
      match ReconcileUncertain(BaseBytes(op.base), op.bytes, reply.snap.bytes)
      case Matches => FinishSuccess(c, op, reply.snap.rev, hooked)
      case RetryAtBase =>
        NonSuccess(c, op, Unknown,
                   Some(state.value.(tag := Retry, remote := Some(remote))))
      case Third => NonSuccess(c, op, InConflict, Some(SnapshotConflict(op, Changed, remote)))
  }

  /** `relay-save--merge-verified`: REMOTE must still be the revision the merge started from. */
  function OnMergeVerify(c: Client, op: Op, reply: Reply): Client
    requires op.snapshot.Some?
  {
    var snapshot := op.snapshot.value;
    if !c.live || !Current(c, op) || !SameIdent(op.ident, c.ident)
       || snapshot.local != Some(c.bytes) then
      MergeRefusal(c, op, Failed, LiveChanged, None)
    else if !reply.Got? then
      MergeRefusal(c, op, Unknown, Transport, None)
    else if snapshot.remote.None? || reply.snap.rev != snapshot.remote.value.snap.rev then
      MergeRefusal(c, op, InConflict, Changed, Some(Remote(reply.snap, false)))
    else
      c.(calls := c.calls + [Call(op, MergeWriteDone,
                                  Write(op.ident, op.bytes, Some(reply.snap.rev)))])
  }

  /** `relay-save--merge-write-done`. */
  function OnMergeWriteDone(c: Client, op: Op, reply: Reply, hooked: Bytes): Client
    requires op.bytes.Some? && op.snapshot.Some?
  {
    match reply
    case Wrote(rev) => MergeSuccess(c, op, rev, hooked)
    case Lost => Ask(c, op, MergeReconcile, op.ident)
    case Refused(reason) => Ask(c, op, MergeConflictRead(reason), op.ident)
    case _ => MergeRefusal(c, op, Failed, ClientError, None)
  }

  function OnMergeReconcile(c: Client, op: Op, reply: Reply, hooked: Bytes): Client
    requires op.bytes.Some? && op.snapshot.Some?
  {
    if reply.Got? && op.bytes == Some(reply.snap.bytes) then
      MergeSuccess(c, op, reply.snap.rev, hooked)
    else
      MergeRefusal(c, op, Unknown, Transport,
                   if reply.Got? then Some(Remote(reply.snap, false)) else None)
  }

  function OnMergeConflictRead(c: Client, op: Op, reason: Reason, reply: Reply): Client
    requires op.snapshot.Some?
  {
    MergeRefusal(c, op, InConflict, reason,
                 if reply.Got? then Some(Remote(reply.snap, false)) else None)
  }

  predicate MergeStage(stage: Stage) {
    stage.MergeVerify? || stage.MergeWriteDone? || stage.MergeReconcile? || stage.MergeConflictRead?
  }

  /** Facts every call carries from the moment it is made; they make OnReply total. */
  predicate CallShape(call: Call) {
    && call.op.generation > 0
    && (call.op.merge ==> call.op.snapshot.Some? && call.op.bytes.Some?)
    && (call.stage.ConflictRead? ==> call.op.bytes.Some?)
    && (MergeStage(call.stage) <==> call.op.merge)
    && (call.stage.Inspect? ==>
          var state := call.stage.state;
          && call.op.bytes == (if state.Some? then state.value.local else None)
          && call.op.base == (if state.Some? then state.value.base else None))
    && (call.request.Write? <==> call.stage.WriteDone? || call.stage.MergeWriteDone?)
    && (call.request.Write? ==> call.request.bytes == call.op.bytes)
  }

  /** A request the wire can carry: the client cannot encode absent bytes or an absent file, and
      reports a transport failure instead. */
  predicate Sendable(r: Request) {
    r.file.Some? && (r.Write? ==> r.bytes.Some?)
  }

  /** A request whose answer depends on the files; a write without a revision is an error. */
  predicate Servable(r: Request) {
    Sendable(r) && (r.Write? ==> r.expected.Some?)
  }

  /** Writes are answered by Wrote and reads by Got; failures fit both.  A request that cannot be
      sent is only ever Lost, and one that is not served at most answered with an error. */
  predicate Fits(call: Call, reply: Reply) {
    && (reply.Wrote? ==> call.request.Write?)
    && (reply.Got? ==> call.request.Read?)
    && (!Servable(call.request) ==> reply.Broken? || reply.Lost?)
    && (!Sendable(call.request) ==> reply.Lost?)
  }

  /** The reply to `call` arrives and its callback runs. */
  function OnReply(c: Client, call: Call, reply: Reply, hooked: Bytes): Client
    requires CallShape(call) && Fits(call, reply)
  {
    match call.stage
    case WriteDone => OnWriteDone(c, call.op, reply, hooked)
    case Reconcile => OnReconcile(c, call.op, reply, hooked)
    case ConflictRead(reason) => OnConflictRead(c, call.op, reason, reply, hooked)
    case Inspect(state) => OnInspect(c, call.op, state, reply, hooked)
    case MergeVerify => OnMergeVerify(c, call.op, reply)
    case MergeWriteDone => OnMergeWriteDone(c, call.op, reply, hooked)
    case MergeReconcile => OnMergeReconcile(c, call.op, reply, hooked)
    case MergeConflictRead(reason) => OnMergeConflictRead(c, call.op, reason, reply)
  }

  // ---------------------------------------------------------------------------------------------
  // Commands

  /** `relay-save--capture` after its local pre-save work left `prepared` in the buffer. */
  function Captured(c: Client, base: Option<Snap>, expected: Option<Rev>, prepared: Bytes): Op {
    var b := FirstOf(base, c.base);
    Op(0, c.ident, Some(prepared), b, FirstOf(expected, BaseRev(b)), None, None, None, false)
  }

  function Prepared(c: Client, prepared: Bytes): Client {
    c.(bytes := prepared, modified := c.modified || prepared != c.bytes)
  }

  /** `relay-save--queue-or-dispatch`. */
  function QueueOrDispatch(c: Client, op: Op): Client {
    if c.active.Some? then
      if SameRequest(op, c.active) then c.(queued := None)
      else if SameRequest(op, c.queued) then c
      else c.(queued := Some(op))
    else Dispatch(c, op)
  }

  /** `relay-save--retry-state-operation`: the revision proven by the ambiguity read is used only
      while the captured bytes are still the ones it was proven for. */
  function RetryOperation(c: Client, prepared: Bytes): Op
    requires c.conflict.Some?
  {
    var state := c.conflict.value;
    var op := Captured(c, state.base, if state.remote.Some? then Some(state.remote.value.snap.rev) else None,
                       prepared);
    if op.bytes == state.local then op else op.(expected := BaseRev(state.base))
  }

  /** `relay-save--inspect-unknown`.  The conflict state may be absent: a failed reconciliation read
      leaves none. */
  function InspectUnknown(c: Client): Client {
    var state := c.conflict;
    var op := Op(c.generation + 1, c.ident, if state.Some? then state.value.local else None,
                 if state.Some? then state.value.base else None, None, None, None, None, false);
    Ask(c.(generation := c.generation + 1, active := Some(op), status := Saving),
        op, Inspect(state), c.ident)
  }

  /** `relay-save--resolution-operation`. */
  function Resolution(c: Client, snapshot: Conflict, choice: Choice, saveAs: FileId): Op {
    Op(0, c.ident,
       if choice.RestoreBase? then BaseBytes(snapshot.base) else snapshot.local,
       snapshot.base,
       if choice.SaveAs? then Some(Missing)
       else if snapshot.remote.Some? then Some(snapshot.remote.value.snap.rev) else None,
       Some(choice), Some(snapshot),
       if choice.SaveAs? then Some(saveAs) else None, false)
  }

  /** `relay-save--resolve-ready-conflict`; the choice and the Save As name are the user's. */
  function ResolveConflict(c: Client, choice: Choice, saveAs: FileId): Client {
    if c.conflict.None? || choice !in MenuChoices(c.conflict.value.reason) then c
    else
      var snapshot := c.conflict.value;
      match choice
      case Cancel => c
      case Merge => c.(merges := c.merges + {snapshot})
      case KeepRemote =>
        if snapshot.local.None? then c
        else
          var adopted := if snapshot.remote.Some? && !snapshot.remote.value.deleted
                         then snapshot.remote.value.snap else Snap([], Missing);
          c.(bytes := adopted.bytes, base := Some(adopted), conflict := None, modified := false,
             status := Saved)
      case SaveAs =>
        if c.ident.Some? && saveAs.authority == c.ident.value.authority
        then Dispatch(c, Resolution(c, snapshot, choice, saveAs)) else c
      case _ => Dispatch(c, Resolution(c, snapshot, choice, saveAs))
  }

  datatype Command =
    | Edit(text: Bytes)
    | Rename(to: Option<FileId>, dirty: bool)
    | Kill
    | Save(prepared: Bytes, choice: Choice, saveAs: FileId)
    | ApplyMerge(snapshot: Conflict, merged: Bytes)
    | AbandonMerge(snapshot: Conflict)
    | Expire(generation: nat)

  /** `relay-save-buffer-async`: C-x C-s in a visited Relay buffer. */
  function SaveCommand(c: Client, prepared: Bytes, choice: Choice, saveAs: FileId): Client {
    if c.ident.None? then c
    else if c.status.InConflict? then ResolveConflict(c, choice, saveAs)
    else if c.status.Unknown? && c.conflict.Some? && c.conflict.value.tag.Retry? then
      var d := Prepared(c, prepared);
      if FirstOf(c.conflict.value.base, c.base).None? then d
      else QueueOrDispatch(d, RetryOperation(d, prepared))
    else if c.status.Unknown? then InspectUnknown(c)
    else if c.active.Some? || c.modified || c.status.Failed? then
      var d := Prepared(c, prepared);
      if d.base.None? then d else QueueOrDispatch(d, Captured(d, None, None, prepared))
    else c
  }

  /** `relay-save-apply-merge-async` for a merge started from `snapshot`. */
  function ApplyMergeCommand(c: Client, snapshot: Conflict, merged: Bytes): Client {
    if snapshot !in c.merges || c.active.Some? then c
    else
      var op := Op(0, c.ident, Some(merged), snapshot.base, None, None, Some(snapshot), None, true);
      if snapshot.local != Some(c.bytes) then MergeRefusal(c, op, Failed, LiveChanged, None)
      else
        var started := op.(generation := c.generation + 1);
        Ask(c.(generation := c.generation + 1, active := Some(started), modified := true,
               status := Saving),
            started, MergeVerify, c.ident)
  }

  function OnCommand(c: Client, cmd: Command): Client {
    if !c.live then c
    else match cmd
      case Edit(text) => c.(bytes := text, modified := true)
      case Rename(to, dirty) => c.(ident := to, modified := c.modified || dirty)
      case Kill => c.(live := false)
      case Save(prepared, choice, saveAs) => SaveCommand(c, prepared, choice, saveAs)
      case ApplyMerge(snapshot, merged) => ApplyMergeCommand(c, snapshot, merged)
      case AbandonMerge(snapshot) =>
        if snapshot in c.merges && c.conflict.None? then c.(conflict := Some(snapshot)) else c
      case Expire(generation) =>
        if generation == c.generation && c.status.Saved? then c.(status := Idle) else c
  }

  /** A buffer that has just visited `file` and received `base` for it. */
  function Visited(file: FileId, base: Snap): Client {
    Client(true, Some(file), base.bytes, false, Some(base), None, None, None, 0, Idle, {}, [])
  }
}
