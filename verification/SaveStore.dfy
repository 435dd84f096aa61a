/** Any number of buffers saving through one server, over a network that may lose, duplicate and delay.

    The server is an atomic compare-and-swap store; StoreRefinement.dfy proves that the real
    protocol implements it for mutators sharing its lock.  A write may land at any time after it was sent, in
    particular after its sender gave up on it, and may publish and still answer with an error. */
module SaveStore {
  import opened Common
  import opened SaveState
  import opened SaveControl
  import opened SaveHeld

  datatype Version = Version(file: FileId, bytes: Bytes)

  /** The request `index` of buffer `cid`. */
  datatype Ticket = Ticket(cid: nat, index: nat)

  /** A save took effect: `replaced` is the version it overwrote, `held` what its client had held. */
  datatype Publication = Publication(ticket: Ticket, file: FileId, expected: Rev,
                                     replaced: Option<Snap>, held: set<Snap>)

  /** `issued` remembers every version any file ever had, by the id its revision carries; `held`
      remembers, for each buffer, every BASE it recorded and every REMOTE it fetched and recorded. */
  datatype World = World(files: map<FileId, nat>, issued: map<nat, Version>, nextId: nat,
                         clients: map<nat, Client>, held: map<nat, set<Snap>>,
                         served: set<Ticket>, published: set<Ticket>,
                         replies: set<(Ticket, Reply)>, log: seq<Publication>)

  datatype Event =
    | Open(cid: nat, file: FileId, base: Snap)
    | Do(cid: nat, cmd: Command)
    | Deliver(cid: nat, index: nat, reply: Reply, hooked: Bytes)
    | Fault(cid: nat, index: nat)
    | ServeWrite(cid: nat, index: nat, reason: Reason)
    | Decline(cid: nat, index: nat)
    | ReadBack(cid: nat, index: nat)
    | Fail(cid: nat, index: nat)
    | ServeRead(cid: nat, index: nat)
    | Outside(file: FileId, content: Option<Bytes>)

  function Init(): World { World(map[], map[], 0, map[], map[], {}, {}, {}, []) }

  function CurrentSnap(w: World, file: FileId): Option<Snap> {
    if file in w.files && w.files[file] in w.issued
    then Some(Snap(w.issued[w.files[file]].bytes, Present(w.files[file]))) else None
  }

  /** A pair the server really held together, or the empty missing state. */
  predicate Real(issued: map<nat, Version>, s: Snap) {
    match s.rev
    case Present(id) => id in issued && issued[id].bytes == s.bytes
    case Missing => s.bytes == []
  }

  predicate Asked(w: World, cid: nat, index: nat) {
    cid in w.clients && index < |w.clients[cid].calls|
  }

  function CallOf(w: World, cid: nat, index: nat): Call
    requires Asked(w, cid, index)
  {
    w.clients[cid].calls[index]
  }

  predicate Enabled(w: World, e: Event) {
    match e
    case Open(cid, file, base) =>
      cid !in w.clients && Real(w.issued, base)
      && (base.rev.Present? ==> w.issued[base.rev.id].file == file)
    case Do(cid, _) => cid in w.clients
    case Deliver(cid, index, reply, _) =>
      Asked(w, cid, index) && CallShape(CallOf(w, cid, index)) && Fits(CallOf(w, cid, index), reply)
      && (reply.Lost? || (Ticket(cid, index), reply) in w.replies)
    case Fault(cid, index) => Asked(w, cid, index) && CallShape(CallOf(w, cid, index))
    case ServeWrite(cid, index, _) =>
      Asked(w, cid, index) && Ticket(cid, index) !in w.served
      && CallOf(w, cid, index).request.Write? && Servable(CallOf(w, cid, index).request)
    case Decline(cid, index) =>
      Asked(w, cid, index) && Ticket(cid, index) !in w.served
      && CallOf(w, cid, index).request.Write? && Servable(CallOf(w, cid, index).request)
    case ReadBack(cid, index) =>
      Ticket(cid, index) in w.published && Asked(w, cid, index)
      && CallOf(w, cid, index).request.Write? && Servable(CallOf(w, cid, index).request)
    case Fail(cid, index) => Asked(w, cid, index) && Sendable(CallOf(w, cid, index).request)
    case ServeRead(cid, index) =>
      Asked(w, cid, index) && CallOf(w, cid, index).request.Read? && Servable(CallOf(w, cid, index).request)
    case Outside(_, _) => true
  }

  /** Buffer `cid` becomes `c`; whatever it now records as BASE or REMOTE it has held. */
  function SetClient(w: World, cid: nat, c: Client): World {
    w.(clients := w.clients[cid := c],
       held := w.held[cid := HeldBy(w, cid) + Recorded(c)])
  }

  function HeldBy(w: World, cid: nat): set<Snap> { if cid in w.held then w.held[cid] else {} }

  function Put(w: World, file: FileId, bytes: Bytes): World {
    w.(files := w.files[file := w.nextId], issued := w.issued[w.nextId := Version(file, bytes)],
       nextId := w.nextId + 1)
  }

  /** The compare-and-swap test. */
  predicate Matches(w: World, file: FileId, expected: Rev) {
    match expected
    case Missing => file !in w.files
    case Present(id) => file in w.files && w.files[file] == id
  }

  function Reply1(w: World, cid: nat, index: nat, reply: Reply): World {
    w.(replies := w.replies + {(Ticket(cid, index), reply)})
  }

  /** After publishing, the server reads the file back and reports what it finds. */
  function ReadBackReply(found: Option<Snap>, bytes: Bytes): Reply {
    if found.None? then Broken
    else if found.value.bytes == bytes then Wrote(found.value.rev)
    else Refused(Changed)
  }

  function Apply(w: World, e: Event): World
    requires Enabled(w, e)
  {
    match e
    case Open(cid, file, base) => SetClient(w, cid, Visited(file, base))
    case Do(cid, cmd) => SetClient(w, cid, OnCommand(w.clients[cid], cmd))
    case Deliver(cid, index, reply, hooked) =>
      SetClient(w, cid, OnReply(w.clients[cid], CallOf(w, cid, index), reply, hooked))
    case Fault(cid, index) => SetClient(w, cid, CallbackError(w.clients[cid], CallOf(w, cid, index).op))
    case ServeWrite(cid, index, reason) =>
      var r := CallOf(w, cid, index).request;
      var file, expected := r.file.value, r.expected.value;
      var v := w.(served := w.served + {Ticket(cid, index)});
      if Matches(w, file, expected) then
        var p := Publication(Ticket(cid, index), file, expected, CurrentSnap(w, file),
                             HeldBy(w, cid));
        Put(v, file, r.bytes.value).(published := w.published + {Ticket(cid, index)}, log := w.log + [p])
      else Reply1(v, cid, index, Refused(reason))
    // Too large, not UTF-8, or a hard link: refused whatever the revision, and the client reads a changed type.
    case Decline(cid, index) =>
      Reply1(w.(served := w.served + {Ticket(cid, index)}), cid, index, Refused(TypeChanged))
    case ReadBack(cid, index) =>
      var r := CallOf(w, cid, index).request;
      Reply1(w, cid, index, ReadBackReply(CurrentSnap(w, r.file.value), r.bytes.value))
    case Fail(cid, index) => Reply1(w, cid, index, Broken)
    case ServeRead(cid, index) =>
      var s := CurrentSnap(w, CallOf(w, cid, index).request.file.value);
      Reply1(w, cid, index, if s.Some? then Got(s.value) else Broken)
    case Outside(file, content) =>
      if content.Some? then Put(w, file, content.value) else w.(files := w.files - {file})
  }

  // ---------------------------------------------------------------------------------------------
  // Invariants of the whole system

  ghost predicate StoreOk(w: World) {
    && (forall f <- w.files :: w.files[f] in w.issued && w.issued[w.files[f]].file == f)
    && (forall id <- w.issued :: id < w.nextId)
  }

  /** A reply in the network tells the truth about some version. */
  ghost predicate ReplyOk(w: World, t: Ticket, reply: Reply) {
    && Asked(w, t.cid, t.index)
    && var call := CallOf(w, t.cid, t.index);
    && Fits(call, reply)
    && (reply.Wrote? ==> Real(w.issued, Snap(call.request.bytes.value, reply.rev)) && reply.rev.Present?)
    && (reply.Got? ==> Real(w.issued, reply.snap) && reply.snap.rev.Present?)
  }

  ghost predicate RepliesOk(w: World) {
    forall t, r :: (t, r) in w.replies ==> ReplyOk(w, t, r)
  }

  ghost predicate ClientsOk(w: World) {
    && w.clients.Keys == w.held.Keys
    && (forall cid <- w.clients :: Good(w.clients[cid]) && Within(w.clients[cid], w.held[cid]))
    && (forall cid <- w.held, s <- w.held[cid] :: s.rev.Present? ==> s.rev.id in w.issued)
  }

  /** The save replaced a version whose revision its client had held, or created the file. */
  ghost predicate Foreseen(p: Publication) {
    match p.expected
    case Missing => p.replaced.None?
    case Present(_) => p.replaced.Some? && p.replaced.value.rev == p.expected && RevHeld(p.expected, p.held)
  }

  ghost predicate Inv(w: World) {
    StoreOk(w) && RepliesOk(w) && ClientsOk(w) && forall p <- w.log :: Foreseen(p)
  }

  lemma InitInv()
    ensures Inv(Init())
  {
  }

  lemma SetClientKeepsInv(w: World, cid: nat, d: Client)
    requires Inv(w) && Good(d) && Within(d, HeldBy(w, cid) + Recorded(d))
    requires cid in w.clients ==> w.clients[cid].calls <= d.calls
    requires forall s <- Recorded(d) :: s in HeldBy(w, cid) || s.rev.Missing? || s.rev.id in w.issued
    ensures Inv(SetClient(w, cid, d))
  {
    var v := SetClient(w, cid, d);
    forall t, r | (t, r) in v.replies ensures ReplyOk(v, t, r) {
      assert ReplyOk(w, t, r);
      assert CallOf(v, t.cid, t.index) == CallOf(w, t.cid, t.index);
    }
  }

  /** The reply a delivery hands over is truthful, whether it was sent or is a loss. */
  lemma DeliveredIsOk(w: World, cid: nat, index: nat, reply: Reply)
    requires Inv(w) && Enabled(w, Deliver(cid, index, reply, []))
    ensures ReplyOk(w, Ticket(cid, index), reply)
  {
  }

  lemma DeliverKeepsInv(w: World, cid: nat, index: nat, reply: Reply, hooked: Bytes)
    requires Inv(w) && Enabled(w, Deliver(cid, index, reply, hooked))
    ensures Inv(Apply(w, Deliver(cid, index, reply, hooked)))
  {
    var c := w.clients[cid];
    var call := CallOf(w, cid, index);
    var d := OnReply(c, call, reply, hooked);
    DeliveredIsOk(w, cid, index, reply);
    ReplyKeepsGood(c, call, reply, hooked);
    ReplyWithin(c, call, reply, hooked, w.held[cid]);
    CallsGrow(c, call, reply, hooked);
    forall s <- Recorded(d) ensures s in w.held[cid] || s.rev.Missing? || s.rev.id in w.issued {
      ReplyRecords(c, call, reply, hooked, w.held[cid], s);
    }
    SetClientKeepsInv(w, cid, d);
  }

  lemma ClientStepKeepsInv(w: World, e: Event)
    requires Inv(w) && Enabled(w, e) && (e.Open? || e.Do? || e.Fault?)
    ensures Inv(Apply(w, e))
  {
    match e {
      case Open(cid, file, base) =>
        VisitedIsGood(file, base);
        SetClientKeepsInv(w, cid, Visited(file, base));
      case Do(cid, cmd) =>
        CommandKeepsGood(w.clients[cid], cmd);
        CommandWithin(w.clients[cid], cmd, w.held[cid]);
        CommandRecords(w.clients[cid], cmd, w.held[cid]);
        SetClientKeepsInv(w, cid, OnCommand(w.clients[cid], cmd));
      case Fault(cid, index) =>
        var c, call := w.clients[cid], CallOf(w, cid, index);
        FaultKeepsGood(c, call);
        FaultWithin(c, call, w.held[cid]);
        FaultRecords(c, call, w.held[cid]);
        SetClientKeepsInv(w, cid, CallbackError(c, call.op));
      case _ =>
    }
  }

  lemma PutKeepsInv(w: World, file: FileId, bytes: Bytes)
    requires Inv(w)
    ensures Inv(Put(w, file, bytes))
  {
    var v := Put(w, file, bytes);
    assert forall id <- w.issued :: v.issued[id] == w.issued[id];
    forall t, r | (t, r) in v.replies ensures ReplyOk(v, t, r) { assert ReplyOk(w, t, r); }
  }

  lemma ReplyKeepsInv(w: World, cid: nat, index: nat, reply: Reply)
    requires Inv(w) && ReplyOk(w, Ticket(cid, index), reply)
    ensures Inv(Reply1(w, cid, index, reply))
  {
    var v := Reply1(w, cid, index, reply);
    forall t, r | (t, r) in v.replies ensures ReplyOk(v, t, r) {
      if (t, r) in w.replies { assert ReplyOk(w, t, r); }
    }
  }

  lemma LoggedKeepsInv(w: World, p: Publication)
    requires Inv(w) && Foreseen(p)
    ensures Inv(w.(published := w.published + {p.ticket}, log := w.log + [p]))
  {
    var v := w.(published := w.published + {p.ticket}, log := w.log + [p]);
    forall t, r | (t, r) in v.replies ensures ReplyOk(v, t, r) { assert ReplyOk(w, t, r); }
  }

  lemma ServedKeepsInv(w: World, t: Ticket)
    requires Inv(w)
    ensures Inv(w.(served := w.served + {t}))
  {
    var v := w.(served := w.served + {t});
    forall u, r | (u, r) in v.replies ensures ReplyOk(v, u, r) { assert ReplyOk(w, u, r); }
  }

  lemma ServeWriteKeepsInv(w: World, cid: nat, index: nat, reason: Reason)
    requires Inv(w) && Enabled(w, ServeWrite(cid, index, reason))
    ensures Inv(Apply(w, ServeWrite(cid, index, reason)))
  {
    var call := CallOf(w, cid, index);
    var file, expected := call.request.file.value, call.request.expected.value;
    var v := w.(served := w.served + {Ticket(cid, index)});
    ServedKeepsInv(w, Ticket(cid, index));
    if Matches(w, file, expected) {
      assert CallHeld(call, w.held[cid]);
      PutKeepsInv(v, file, call.request.bytes.value);
      LoggedKeepsInv(Put(v, file, call.request.bytes.value),
                     Publication(Ticket(cid, index), file, expected, CurrentSnap(w, file), HeldBy(w, cid)));
    } else {
      ReplyKeepsInv(v, cid, index, Refused(reason));
    }
  }

  lemma RemovalKeepsInv(w: World, file: FileId)
    requires Inv(w)
    ensures Inv(w.(files := w.files - {file}))
  {
    var v := w.(files := w.files - {file});
    forall t, r | (t, r) in v.replies ensures ReplyOk(v, t, r) { assert ReplyOk(w, t, r); }
  }

  lemma ReadBackKeepsInv(w: World, cid: nat, index: nat)
    requires Inv(w) && Enabled(w, ReadBack(cid, index))
    ensures Inv(Apply(w, ReadBack(cid, index)))
  {
    var r := CallOf(w, cid, index).request;
    ReplyKeepsInv(w, cid, index, ReadBackReply(CurrentSnap(w, r.file.value), r.bytes.value));
  }

  lemma ServeReadKeepsInv(w: World, cid: nat, index: nat)
    requires Inv(w) && Enabled(w, ServeRead(cid, index))
    ensures Inv(Apply(w, ServeRead(cid, index)))
  {
    var s := CurrentSnap(w, CallOf(w, cid, index).request.file.value);
    ReplyKeepsInv(w, cid, index, if s.Some? then Got(s.value) else Broken);
  }

  lemma DeclineKeepsInv(w: World, cid: nat, index: nat)
    requires Inv(w) && Enabled(w, Decline(cid, index))
    ensures Inv(Apply(w, Decline(cid, index)))
  {
    ServedKeepsInv(w, Ticket(cid, index));
    ReplyKeepsInv(w.(served := w.served + {Ticket(cid, index)}), cid, index, Refused(TypeChanged));
  }

  lemma ServerStepKeepsInv(w: World, e: Event)
    requires Inv(w) && Enabled(w, e) && !e.Open? && !e.Do? && !e.Fault? && !e.Deliver?
    ensures Inv(Apply(w, e))
  {
    match e {
      case ServeWrite(cid, index, reason) => ServeWriteKeepsInv(w, cid, index, reason);
      case Decline(cid, index) => DeclineKeepsInv(w, cid, index);
      case ReadBack(cid, index) => ReadBackKeepsInv(w, cid, index);
      case Fail(cid, index) => ReplyKeepsInv(w, cid, index, Broken);
      case ServeRead(cid, index) => ServeReadKeepsInv(w, cid, index);
      case Outside(file, content) =>
        if content.Some? { PutKeepsInv(w, file, content.value); } else { RemovalKeepsInv(w, file); }
    }
  }

  /** Every step of the whole system keeps the invariant. */
  lemma StepKeepsInv(w: World, e: Event)
    requires Inv(w) && Enabled(w, e)
    ensures Inv(Apply(w, e))
  {
    match e {
      case Open(_, _, _) => ClientStepKeepsInv(w, e);
      case Do(_, _) => ClientStepKeepsInv(w, e);
      case Fault(_, _) => ClientStepKeepsInv(w, e);
      case Deliver(cid, index, reply, hooked) => DeliverKeepsInv(w, cid, index, reply, hooked);
      case _ => ServerStepKeepsInv(w, e);
    }
  }

  // ---------------------------------------------------------------------------------------------
  // BASE soundness and no lost update

  /** Every pair a buffer ever held is one the server really held together. */
  ghost predicate HeldReal(w: World) {
    forall cid <- w.held, s <- w.held[cid] :: Real(w.issued, s)
  }

  /** Every version a save replaced, bytes and revision together, was held by its client before. */
  ghost predicate NothingLost(w: World) {
    forall p <- w.log :: p.replaced.Some? ==> p.replaced.value in p.held
  }

  /** The step is not the one that pairs BASE's bytes with another version's revision. */
  ghost predicate Sane(w: World, e: Event)
    requires Enabled(w, e)
  {
    e.Deliver? ==> !Misadopts(w.clients[e.cid], CallOf(w, e.cid, e.index), e.reply)
  }

  lemma SetClientKeepsReal(w: World, cid: nat, d: Client)
    requires Inv(w) && HeldReal(w) && NothingLost(w)
    requires forall s <- Recorded(d) :: Real(w.issued, s)
    ensures HeldReal(SetClient(w, cid, d)) && NothingLost(SetClient(w, cid, d))
  {
  }

  lemma DeliverKeepsReal(w: World, cid: nat, index: nat, reply: Reply, hooked: Bytes)
    requires Inv(w) && HeldReal(w) && NothingLost(w)
    requires Enabled(w, Deliver(cid, index, reply, hooked)) && Sane(w, Deliver(cid, index, reply, hooked))
    ensures var v := Apply(w, Deliver(cid, index, reply, hooked)); HeldReal(v) && NothingLost(v)
  {
    var c := w.clients[cid];
    var call := CallOf(w, cid, index);
    var d := OnReply(c, call, reply, hooked);
    DeliveredIsOk(w, cid, index, reply);
    forall s <- Recorded(d) ensures Real(w.issued, s) {
      ReplyRecords(c, call, reply, hooked, w.held[cid], s);
    }
    SetClientKeepsReal(w, cid, d);
  }

  lemma MoreIssuedKeepsReal(w: World, v: World)
    requires HeldReal(w) && v.held == w.held
    requires forall id <- w.issued :: id in v.issued && v.issued[id] == w.issued[id]
    ensures HeldReal(v)
  {
  }

  lemma ServeWriteKeepsReal(w: World, cid: nat, index: nat, reason: Reason)
    requires Inv(w) && HeldReal(w) && NothingLost(w) && Enabled(w, ServeWrite(cid, index, reason))
    ensures var v := Apply(w, ServeWrite(cid, index, reason)); HeldReal(v) && NothingLost(v)
  {
    var v := Apply(w, ServeWrite(cid, index, reason));
    MoreIssuedKeepsReal(w, v);
    if |v.log| > |w.log| {
      ServeWriteKeepsInv(w, cid, index, reason);
      var p := v.log[|w.log|];
      assert v.log == w.log + [p] && p in v.log && Foreseen(p);
      if p.replaced.Some? {
        var s :| s in p.held && s.rev == p.expected;
        assert Real(w.issued, s) && s == p.replaced.value;
      }
    }
  }

  lemma CommandKeepsReal(w: World, cid: nat, cmd: Command)
    requires Inv(w) && HeldReal(w) && NothingLost(w) && Enabled(w, Do(cid, cmd))
    ensures var v := Apply(w, Do(cid, cmd)); HeldReal(v) && NothingLost(v)
  {
    CommandRecords(w.clients[cid], cmd, w.held[cid]);
    SetClientKeepsReal(w, cid, OnCommand(w.clients[cid], cmd));
  }

  lemma FaultKeepsReal(w: World, cid: nat, index: nat)
    requires Inv(w) && HeldReal(w) && NothingLost(w) && Enabled(w, Fault(cid, index))
    ensures var v := Apply(w, Fault(cid, index)); HeldReal(v) && NothingLost(v)
  {
    FaultRecords(w.clients[cid], CallOf(w, cid, index), w.held[cid]);
    SetClientKeepsReal(w, cid, CallbackError(w.clients[cid], CallOf(w, cid, index).op));
  }

  lemma QuietServerKeepsReal(w: World, e: Event)
    requires HeldReal(w) && NothingLost(w) && Enabled(w, e)
    requires e.Decline? || e.ReadBack? || e.Fail? || e.ServeRead? || (e.Outside? && StoreOk(w))
    ensures HeldReal(Apply(w, e)) && NothingLost(Apply(w, e))
  {
    MoreIssuedKeepsReal(w, Apply(w, e));
  }

  lemma StepKeepsReal(w: World, e: Event)
    requires Inv(w) && HeldReal(w) && NothingLost(w) && Enabled(w, e) && Sane(w, e)
    ensures HeldReal(Apply(w, e)) && NothingLost(Apply(w, e))
  {
    match e {
      case Open(cid, file, base) => SetClientKeepsReal(w, cid, Visited(file, base));
      case Do(cid, cmd) => CommandKeepsReal(w, cid, cmd);
      case Fault(cid, index) => FaultKeepsReal(w, cid, index);
      case Deliver(cid, index, reply, hooked) => DeliverKeepsReal(w, cid, index, reply, hooked);
      case ServeWrite(cid, index, reason) => ServeWriteKeepsReal(w, cid, index, reason);
      case _ => QuietServerKeepsReal(w, e);
    }
  }

  /** ws are the states of a run taking the steps es. */
  ghost predicate Runs(es: seq<Event>, ws: seq<World>) {
    && |ws| == |es| + 1 && ws[0] == Init()
    && forall i | 0 <= i < |es| :: Enabled(ws[i], es[i]) && ws[i + 1] == Apply(ws[i], es[i])
  }

  ghost predicate Reachable(w: World) {
    exists es, ws :: Runs(es, ws) && ws[|es|] == w
  }

  lemma InitReachable()
    ensures Reachable(Init())
  {
    var none: seq<Event> := [];
    assert Runs(none, [Init()]) && [Init()][|none|] == Init();
  }

  lemma StepReachable(w: World, e: Event)
    requires Reachable(w) && Enabled(w, e)
    ensures Reachable(Apply(w, e))
  {
    var es, ws :| Runs(es, ws) && ws[|es|] == w;
    assert Runs(es + [e], ws + [Apply(w, e)]);
    assert (ws + [Apply(w, e)])[|es + [e]|] == Apply(w, e);
  }

  /** Reached without a misadopted Restore Base. */
  ghost predicate SanelyReachable(w: World) {
    exists es, ws :: Runs(es, ws) && ws[|es|] == w && forall i | 0 <= i < |es| :: Sane(ws[i], es[i])
  }

  lemma InitSane()
    ensures SanelyReachable(Init())
  {
    var none: seq<Event> := [];
    assert Runs(none, [Init()]) && [Init()][|none|] == Init();
  }

  lemma SaneStep(w: World, e: Event)
    requires SanelyReachable(w) && Enabled(w, e) && Sane(w, e)
    ensures SanelyReachable(Apply(w, e))
  {
    var es, ws :| Runs(es, ws) && ws[|es|] == w && forall i | 0 <= i < |es| :: Sane(ws[i], es[i]);
    assert Runs(es + [e], ws + [Apply(w, e)]);
    assert (ws + [Apply(w, e)])[|es + [e]|] == Apply(w, e);
  }

  lemma {:induction false} RunKeepsInv(es: seq<Event>, ws: seq<World>, n: nat)
    requires Runs(es, ws) && n <= |es|
    ensures Inv(ws[n])
  {
    if n == 0 { InitInv(); } else { RunKeepsInv(es, ws, n - 1); StepKeepsInv(ws[n - 1], es[n - 1]); }
  }

  lemma {:induction false} RunKeepsReal(es: seq<Event>, ws: seq<World>, n: nat)
    requires Runs(es, ws) && n <= |es| && forall i | 0 <= i < n :: Sane(ws[i], es[i])
    ensures HeldReal(ws[n]) && NothingLost(ws[n])
  {
    if n > 0 {
      RunKeepsReal(es, ws, n - 1);
      RunKeepsInv(es, ws, n - 1);
      StepKeepsReal(ws[n - 1], es[n - 1]);
    }
  }

  /** No lost update.  In every run a save either creates its file or replaces a version whose
      revision its client had held; if no Restore Base is misadopted, the client had held that very
      version, its bytes included. */
  lemma NoLostUpdate(es: seq<Event>, ws: seq<World>, p: Publication)
    requires Runs(es, ws) && p in ws[|es|].log
    ensures p.expected.Missing? ==> p.replaced.None?
    ensures p.expected.Present? ==>
              p.replaced.Some? && p.replaced.value.rev == p.expected
              && exists s :: s in p.held && s.rev == p.expected
    ensures (forall i | 0 <= i < |es| :: Sane(ws[i], es[i])) && p.replaced.Some? ==>
              p.replaced.value in p.held
  {
    RunKeepsInv(es, ws, |es|);
    if forall i | 0 <= i < |es| :: Sane(ws[i], es[i]) { RunKeepsReal(es, ws, |es|); }
  }

  /** BASE soundness over every run without a misadopted Restore Base, and in every run at all an
      unmodified buffer shows BASE. */
  lemma BaseSound(es: seq<Event>, ws: seq<World>, cid: nat)
    requires Runs(es, ws) && cid in ws[|es|].clients
    ensures var c := ws[|es|].clients[cid];
            && (!c.modified ==> BaseBytes(c.base) == Some(c.bytes))
            && ((forall i | 0 <= i < |es| :: Sane(ws[i], es[i])) && c.base.Some? ==>
                  Real(ws[|es|].issued, c.base.value))
  {
    RunKeepsInv(es, ws, |es|);
    if forall i | 0 <= i < |es| :: Sane(ws[i], es[i]) { RunKeepsReal(es, ws, |es|); }
  }

  /** Exactly when a delivered reply leaves BASE a pair the server held. */
  lemma BaseSoundIff(w: World, cid: nat, index: nat, reply: Reply, hooked: Bytes)
    requires Inv(w) && HeldReal(w) && Enabled(w, Deliver(cid, index, reply, hooked))
    ensures var d := Apply(w, Deliver(cid, index, reply, hooked)).clients[cid];
            (d.base.Some? ==> Real(w.issued, d.base.value))
            <==> !Misadopts(w.clients[cid], CallOf(w, cid, index), reply)
  {
    var c := w.clients[cid];
    var call := CallOf(w, cid, index);
    var d := OnReply(c, call, reply, hooked);
    DeliveredIsOk(w, cid, index, reply);
    if d.base.Some? { ReplyRecords(c, call, reply, hooked, w.held[cid], d.base.value); }
    if Misadopts(c, call, reply) { MisadoptionBase(c, call, reply, hooked); }
  }

  lemma MisadoptionBase(c: Client, call: Call, reply: Reply, hooked: Bytes)
    requires CallShape(call) && Fits(call, reply) && Misadopts(c, call, reply)
    ensures OnReply(c, call, reply, hooked).base
            == Some(Snap(call.op.bytes.value, ConflictRemote(call.stage.reason, reply).value.snap.rev))
  {
  }
}
