/** Two runs in which the client's code does less than its documentation says, and when it does not. */
module SaveDefects {
  import opened Common
  import opened SaveState
  import opened SaveControl
  import opened SaveHeld
  import opened SaveStore
  import opened SaveOrigin

  const FILE := FileId("ssh+host", "/f")
  const OLD: Bytes := [1]
  const MINE: Bytes := [2]
  const THEIRS: Bytes := [3]

  // The buffer, step by step.

  function C0(): Client { Visited(FILE, Snap(OLD, Present(0))) }
  function C1(): Client { OnCommand(C0(), Edit(MINE)) }
  function C2(): Client { OnCommand(C1(), Save(MINE, Cancel, FILE)) }
  function C3(): Client { OnReply(C2(), C2().calls[0], Refused(Changed), []) }
  function C4(): Client { OnReply(C3(), C3().calls[1], Got(Snap(THEIRS, Present(1))), []) }
  function C5(): Client { OnCommand(C4(), Save(MINE, RestoreBase, FILE)) }
  function C6(): Client { OnReply(C5(), C5().calls[2], Refused(Changed), []) }
  function C7(): Client { OnReply(C6(), C6().calls[3], Got(Snap(MINE, Present(2))), OLD) }

  /** Before, the buffer met THEIRS in a conflict and its user chose Restore Base. */
  lemma RestoringIs()
    ensures var k := Conflict(NoTag, Changed, Some(Snap(OLD, Present(0))), Some(MINE),
                              Some(Remote(Snap(THEIRS, Present(1)), false)));
            && C5().live && C5().ident == Some(FILE) && C5().bytes == MINE
            && C5().active == Some(Op(2, Some(FILE), Some(OLD), Some(Snap(OLD, Present(0))),
                                      Some(Present(1)), Some(RestoreBase), Some(k), None, false))
            && |C5().calls| == 3
            && C5().calls[2] == Call(C5().active.value, WriteDone,
                                     Write(Some(FILE), Some(OLD), Some(Present(1))))
            && C5().generation == 2
  {
  }

  /** FILE is at version `current` with content `bytes`, and the one buffer is c. */
  ghost predicate At(w: World, current: nat, bytes: Bytes, c: Client) {
    && Reachable(w) && w.nextId == current + 1
    && FILE in w.files && w.files[FILE] == current
    && current in w.issued && w.issued[current] == Version(FILE, bytes)
    && 0 in w.clients && w.clients[0] == c
    && (forall t <- w.served :: t.cid == 0 && t.index < |c.calls|)
    && 0 in w.held && Snap(MINE, Present(2)) !in w.held[0]
  }

  lemma Opened() returns (w: World)
    ensures At(w, 0, OLD, C0()) && w.served == {}
  {
    InitReachable();
    var e0, e1 := Outside(FILE, Some(OLD)), Open(0, FILE, Snap(OLD, Present(0)));
    var v := Apply(Init(), e0);
    StepReachable(Init(), e0);
    StepReachable(v, e1);
    w := Apply(v, e1);
  }

  lemma Commanded(w: World, current: nat, bytes: Bytes, c: Client, cmd: Command) returns (v: World)
    requires At(w, current, bytes, c) && c.calls <= OnCommand(c, cmd).calls
    requires Snap(MINE, Present(2)) !in Recorded(OnCommand(c, cmd))
    ensures At(v, current, bytes, OnCommand(c, cmd)) && v.served == w.served
  {
    StepReachable(w, Do(0, cmd));
    v := Apply(w, Do(0, cmd));
  }

  lemma Overwritten(w: World, current: nat, bytes: Bytes, c: Client, next: Bytes) returns (v: World)
    requires At(w, current, bytes, c)
    ensures At(v, current + 1, next, c) && v.served == w.served
  {
    StepReachable(w, Outside(FILE, Some(next)));
    v := Apply(w, Outside(FILE, Some(next)));
  }

  /** The write at `index` meets a version it does not expect, and its refusal is delivered. */
  lemma RefusedWrite(w: World, current: nat, bytes: Bytes, c: Client, index: nat) returns (v: World)
    requires At(w, current, bytes, c) && index < |c.calls| && Ticket(0, index) !in w.served
    requires var call := c.calls[index];
             CallShape(call) && call.request.Write? && Servable(call.request)
             && call.request.file == Some(FILE) && call.request.expected != Some(Present(current))
             && call.request.expected != Some(Missing)
             && c.calls <= OnReply(c, call, Refused(Changed), []).calls
             && Snap(MINE, Present(2)) !in Recorded(OnReply(c, call, Refused(Changed), []))
    ensures At(v, current, bytes, OnReply(c, c.calls[index], Refused(Changed), []))
    ensures v.served == w.served + {Ticket(0, index)}
  {
    var e0, e1 := ServeWrite(0, index, Changed), Deliver(0, index, Refused(Changed), []);
    StepReachable(w, e0);
    var u := Apply(w, e0);
    StepReachable(u, e1);
    v := Apply(u, e1);
  }

  /** The read at `index` is answered with the current version. */
  lemma AnsweredRead(w: World, current: nat, bytes: Bytes, c: Client, index: nat, hooked: Bytes)
    returns (v: World)
    requires At(w, current, bytes, c) && index < |c.calls|
    requires var call := c.calls[index];
             CallShape(call) && call.request == Read(Some(FILE))
             && var d := OnReply(c, call, Got(Snap(bytes, Present(current))), hooked);
             c.calls <= d.calls && Snap(MINE, Present(2)) !in Recorded(d)
    ensures At(v, current, bytes, OnReply(c, c.calls[index], Got(Snap(bytes, Present(current))), hooked))
    ensures v.served == w.served
  {
    var got := Got(Snap(bytes, Present(current)));
    StepReachable(w, ServeRead(0, index));
    var u := Apply(w, ServeRead(0, index));
    StepReachable(u, Deliver(0, index, got, hooked));
    v := Apply(u, Deliver(0, index, got, hooked));
  }

  lemma ReachSaving() returns (w: World)
    ensures At(w, 1, THEIRS, C2()) && w.served == {}
  {
    w := Opened();
    w := Commanded(w, 0, OLD, C0(), Edit(MINE));
    w := Overwritten(w, 0, OLD, C1(), THEIRS);
    w := Commanded(w, 1, THEIRS, C1(), Save(MINE, Cancel, FILE));
  }

  lemma ReachRefused() returns (w: World)
    ensures At(w, 1, THEIRS, C3()) && w.served == {Ticket(0, 0)}
  {
    w := ReachSaving();
    w := RefusedWrite(w, 1, THEIRS, C2(), 0);
  }

  lemma ReachConflict() returns (w: World)
    ensures At(w, 1, THEIRS, C4()) && w.served == {Ticket(0, 0)}
  {
    w := ReachRefused();
    w := AnsweredRead(w, 1, THEIRS, C3(), 1, []);
  }

  lemma ReachRestoring() returns (w: World)
    ensures At(w, 1, THEIRS, C5()) && w.served == {Ticket(0, 0)}
  {
    w := ReachConflict();
    w := Commanded(w, 1, THEIRS, C4(), Save(MINE, RestoreBase, FILE));
  }

  lemma RefusedIs()
    ensures C6().calls == C5().calls + [Call(C5().active.value, ConflictRead(Changed), Read(Some(FILE)))]
    ensures Recorded(C6()) == Recorded(C5()) && CallShape(C6().calls[3])
  {
    RestoringIs();
  }

  lemma MisadoptedIs()
    ensures var c := C7();
            && c.live && c.ident == Some(FILE) && c.status.Saved? && !c.modified && c.bytes == OLD
            && c.base == Some(Snap(OLD, Present(2))) && c.conflict.None? && c.active.None?
            && c.calls == C6().calls && |c.calls| == 4
  {
    RestoringIs();
    RefusedIs();
  }

  lemma RefusedRestore(w: World) returns (v: World)
    requires At(w, 2, MINE, C5()) && w.served == {Ticket(0, 0)}
    ensures At(v, 2, MINE, C6()) && v.served == {Ticket(0, 0), Ticket(0, 2)}
  {
    RestoringIs();
    RefusedIs();
    v := RefusedWrite(w, 2, MINE, C5(), 2);
  }

  lemma ReachMisadopted() returns (w: World)
    ensures At(w, 2, MINE, C7()) && w.served == {Ticket(0, 0), Ticket(0, 2)}
  {
    w := ReachRestoring();
    w := Overwritten(w, 1, THEIRS, C5(), MINE);
    w := RefusedRestore(w);
    RefusedIs();
    MisadoptedIs();
    w := AnsweredRead(w, 2, MINE, C6(), 3, OLD);
  }

  /** Restore Base can end as Saved, unmodified and showing OLD, with OLD recorded under the
      revision of a version that holds MINE, while that version is still what the server has. */
  lemma RestoreBaseCanMisadopt() returns (w: World)
    ensures Reachable(w) && 0 in w.clients
    ensures var c := w.clients[0];
            && c.status.Saved? && !c.modified && c.bytes == OLD
            && c.base == Some(Snap(OLD, Present(2))) && !Real(w.issued, c.base.value)
            && CurrentSnap(w, FILE) == Some(Snap(MINE, Present(2)))
  {
    w := ReachMisadopted();
    MisadoptedIs();
  }

  /** What a misadoption leaves: BASE names the fetched revision, and either the buffer is idle or the queued save
      has just been sent, expecting that revision. */
  lemma MisadoptedState(c: Client, call: Call, reply: Reply, hooked: Bytes)
    requires Good(c) && Aimed(c) && CallShape(call) && Fits(call, reply) && Misadopts(c, call, reply) && reply.Got?
    ensures var d := OnReply(c, call, reply, hooked);
            && d.live && d.ident == c.ident && d.conflict.None?
            && d.base == Some(Snap(call.op.bytes.value, reply.snap.rev))
            && if d.active.None? then d.calls == c.calls && (d.status.Saved? || d.status.SavedNewer?)
               else |d.calls| == |c.calls| + 1 && Sends(d, c.ident, reply.snap.rev)
  {
    assert c.queued.Some? ==> Target(c.queued.value) == c.queued.value.ident;
  }

  /** The last request is a write to the file, expecting the revision. */
  predicate Sends(c: Client, ident: Option<FileId>, rev: Rev) {
    c.calls != [] && var r := c.calls[|c.calls| - 1].request;
    r.Write? && r.file == ident && r.bytes.Some? && r.expected == Some(rev)
  }

  /** An idle, saved buffer that is edited and saved sends a write that expects BASE's revision. */
  lemma NextSaveSends(d: Client, text: Bytes)
    requires d.live && d.ident.Some? && d.base.Some? && d.active.None? && d.conflict.None?
    requires d.status.Saved? || d.status.SavedNewer?
    ensures var saved := OnCommand(OnCommand(d, Edit(text)), Save(text, Cancel, FILE));
            && |saved.calls| == |d.calls| + 1 && Sends(saved, d.ident, d.base.value.rev)
            && saved.base == d.base && saved.conflict.None?
  {
  }

  /** A write that expects the current version is served, and its client never held that version. */
  lemma ServedLosing(w: World, cid: nat, file: FileId, s: Snap) returns (v: World, p: Publication)
    requires Reachable(w) && cid in w.clients && cid in w.held && Sends(w.clients[cid], Some(file), s.rev)
    requires Ticket(cid, |w.clients[cid].calls| - 1) !in w.served
    requires CurrentSnap(w, file) == Some(s) && s !in w.held[cid]
    ensures Reachable(v) && p in v.log && p.ticket.cid == cid && p.file == file
    ensures p.replaced == Some(s) && s !in p.held
  {
    var e := ServeWrite(cid, |w.clients[cid].calls| - 1, Changed);
    StepReachable(w, e);
    v := Apply(w, e);
    p := v.log[|w.log|];
  }

  /** One step of the buffer, to a state that still records nothing but BASE. */
  lemma BufferStep(w: World, e: Event, d: Client, s: Snap) returns (v: World)
    requires Reachable(w) && Enabled(w, e) && OfBuffer(e) && d == Next(w, e)
    requires e.cid in w.clients && e.cid in w.held && s !in w.held[e.cid] && s !in Recorded(d)
    ensures Reachable(v) && e.cid in v.clients && v.clients[e.cid] == d && e.cid in v.held && s !in v.held[e.cid]
    ensures v.files == w.files && v.issued == w.issued && v.served == w.served
  {
    StepReachable(w, e);
    NextIs(w, e);
    v := Apply(w, e);
  }

  lemma ReachableIsTracked(w: World)
    requires Reachable(w)
    ensures Tracked(w)
  {
    var es, ws :| Runs(es, ws) && ws[|es|] == w;
    RunKeepsTracked(es, ws, |es|);
  }

  /** Whenever a misadopted Restore Base took the server's current version for its own and the client had never held
      that version, the next save, whatever its text, overwrites it: an update is lost. */
  lemma MisadoptionLosesAnUpdate(w: World, cid: nat, index: nat, reply: Reply, hooked: Bytes, text: Bytes)
    returns (v: World, p: Publication)
    requires Reachable(w) && Enabled(w, Deliver(cid, index, reply, hooked))
    requires Misadopts(w.clients[cid], CallOf(w, cid, index), reply) && reply.Got?
    requires CurrentSnap(w, w.clients[cid].ident.value) == Some(reply.snap) && reply.snap !in HeldBy(w, cid)
    ensures Reachable(v) && p in v.log && p.ticket.cid == cid && p.file == w.clients[cid].ident.value
    ensures p.replaced == Some(reply.snap) && reply.snap !in p.held
  {
    var c, call := w.clients[cid], CallOf(w, cid, index);
    var file := c.ident.value;
    ReachableIsTracked(w);
    MisadoptedState(c, call, reply, hooked);
    var d := OnReply(c, call, reply, hooked);
    v := BufferStep(w, Deliver(cid, index, reply, hooked), d, reply.snap);
    if d.active.None? {
      NextSaveSends(d, text);
      var edited := OnCommand(d, Edit(text));
      v := BufferStep(v, Do(cid, Edit(text)), edited, reply.snap);
      v := BufferStep(v, Do(cid, Save(text, Cancel, FILE)), OnCommand(edited, Save(text, Cancel, FILE)), reply.snap);
    }
    v, p := ServedLosing(v, cid, file, reply.snap);
  }

  /** A Save As refused because its target exists records the target's contents as the REMOTE of the
      original file; Keep Remote then installs them, unmodified and Saved, in the original buffer. */
  lemma SaveAsConflictAdoptsTarget(c: Client, saveAs: FileId, snap: Snap, text: Bytes)
    requires Good(c) && c.live && c.status.InConflict? && c.ident.Some?
    requires saveAs != c.ident.value && saveAs.authority == c.ident.value.authority
    requires c.conflict.value.local.Some? && snap.bytes != c.conflict.value.local.value
    ensures var asked := OnCommand(c, Save(text, SaveAs, saveAs));
            && |asked.calls| == |c.calls| + 1
            && asked.calls[|c.calls|].request == Write(Some(saveAs), c.conflict.value.local, Some(Missing))
            && CallShape(asked.calls[|c.calls|])
            && var refused := OnReply(asked, asked.calls[|c.calls|], Refused(Appeared), []);
            && |refused.calls| == |c.calls| + 2
            && refused.calls[|c.calls| + 1].request == Read(Some(saveAs))
            && CallShape(refused.calls[|c.calls| + 1])
            && var shown := OnReply(refused, refused.calls[|c.calls| + 1], Got(snap), []);
            && shown.status.InConflict? && shown.conflict.value.remote == Some(Remote(snap, false))
            && var adopted := OnCommand(shown, Save(text, KeepRemote, saveAs));
            && adopted.ident == c.ident && adopted.base == Some(snap) && adopted.bytes == snap.bytes
            && !adopted.modified && adopted.status.Saved?
  {
    var asked := OnCommand(c, Save(text, SaveAs, saveAs));
    var op := Resolution(c, c.conflict.value, SaveAs, saveAs);
    assert asked == Dispatch(c, op);
    assert asked.calls[|c.calls|] == Call(asked.active.value, WriteDone,
                                          Write(Some(saveAs), op.bytes, Some(Missing)));
  }
}
