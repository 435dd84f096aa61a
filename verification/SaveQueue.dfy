/** Repeated saves coalesce.  In a run of ordinary saves that all succeed, without a rename, the writes
    sent are a subsequence of the saves requested, each expects the revision the one before returned,
    and once the buffer is idle the last write confirmed is the last save requested. */
module SaveQueue {
  import opened Common
  import opened SaveState
  import opened SaveControl

  datatype Step =
    | EditText(text: Bytes)
    | RequestSave(prepared: Bytes)
    | ConfirmSave(rev: Rev, hooked: Bytes)

  /** `first` is the revision of BASE when the run began. */
  datatype History = History(c: Client, first: Rev, requested: seq<Bytes>, confirmed: seq<Rev>)

  predicate Requests(c: Client) { c.active.Some? || c.modified }

  predicate CanStep(h: History, s: Step) {
    s.ConfirmSave? ==> h.c.active.Some? && h.c.calls != []
                       && CallShape(Last(h.c.calls)) && Fits(Last(h.c.calls), Wrote(s.rev))
  }

  function Last<T>(s: seq<T>): T
    requires s != []
  {
    s[|s| - 1]
  }

  function Take(h: History, s: Step): History
    requires CanStep(h, s)
  {
    match s
    case EditText(text) => h.(c := OnCommand(h.c, Edit(text)))
    case RequestSave(prepared) =>
      h.(c := OnCommand(h.c, Save(prepared, Cancel, FileId("", ""))),
         requested := if Requests(h.c) then h.requested + [prepared] else h.requested)
    case ConfirmSave(rev, hooked) =>
      h.(c := OnReply(h.c, Last(h.c.calls), Wrote(rev), hooked), confirmed := h.confirmed + [rev])
  }

  /** a is b with some elements left out. */
  ghost predicate Subsequence<T>(a: seq<T>, b: seq<T>)
    decreases |b|
  {
    || a == []
    || (b != [] && Subsequence(a, b[..|b| - 1]))
    || (b != [] && Last(a) == Last(b) && Subsequence(a[..|a| - 1], b[..|b| - 1]))
  }

  function Sent(c: Client): seq<Option<Bytes>> {
    seq(|c.calls|, k requires 0 <= k < |c.calls| => c.calls[k].op.bytes)
  }

  function Asked(requested: seq<Bytes>): seq<Option<Bytes>> {
    seq(|requested|, k requires 0 <= k < |requested| => Some(requested[k]))
  }

  function Pending(c: Client): seq<Option<Bytes>> {
    Sent(c) + if c.queued.Some? then [c.queued.value.bytes] else []
  }

  /** An operation that a plain save of this buffer captured. */
  ghost predicate Plain(c: Client, op: Op) {
    op.choice.None? && !op.merge && op.snapshot.None? && op.target.None? && op.bytes.Some?
    && op.ident == c.ident
  }

  ghost predicate Ordinary(h: History) {
    var c := h.c;
    && c.live && c.ident.Some? && c.base.Some? && Controlled(c)
    && !c.status.InConflict? && !c.status.Unknown? && !c.status.Failed?
    && (c.queued.Some? ==> Plain(c, c.queued.value))
    && (c.active.Some? ==> c.calls != [] && Plain(c, c.active.value)
                           && Last(c.calls).op == c.active.value && CallShape(Last(c.calls)))
    && (forall call <- c.calls :: call.stage.WriteDone? && call.request.Write?
                                  && call.request.bytes == call.op.bytes && call.request.file == c.ident)
  }

  /** The k-th write expects what the one before it returned. */
  ghost predicate Chained(h: History) {
    && |h.confirmed| == |h.c.calls| - (if h.c.active.Some? then 1 else 0)
    && (forall k | 0 <= k < |h.c.calls| ::
          h.c.calls[k].request.Write?
          && h.c.calls[k].request.expected == Some(if k == 0 then h.first else h.confirmed[k - 1]))
    && (h.c.active.None? ==>
          && h.c.base.Some?
          && h.c.base.value.rev == (if h.confirmed == [] then h.first else Last(h.confirmed)))
  }

  /** The newest request is the queued one if there is one, and otherwise the last one sent. */
  ghost predicate NewestIsPending(h: History) {
    && (h.requested != [] ==> Pending(h.c) != [] && Last(Pending(h.c)) == Some(Last(h.requested)))
    && (h.requested == [] ==> h.c.calls == [] && h.c.queued.None? && h.c.active.None?)
  }

  ghost predicate Coalesced(h: History) {
    Ordinary(h) && Chained(h) && NewestIsPending(h) && Subsequence(Pending(h.c), Asked(h.requested))
  }

  lemma BeginCoalesced(file: FileId, base: Snap)
    ensures Coalesced(History(Visited(file, base), base.rev, [], []))
  {
  }

  lemma DropPending<T>(a: seq<T>, x: T, b: seq<T>)
    requires Subsequence(a + [x], b)
    ensures Subsequence(a, b)
    decreases |b|
  {
    assert (a + [x])[..|a + [x]| - 1] == a;
    if Subsequence(a + [x], b[..|b| - 1]) { DropPending(a, x, b[..|b| - 1]); }
  }

  lemma SameEnd<T>(a: seq<T>, b: seq<T>, x: T)
    requires Subsequence(a, b)
    ensures Subsequence(a + [x], b + [x]) && Subsequence(a, b + [x])
  {
    assert (a + [x])[..|a + [x]| - 1] == a;
    assert (b + [x])[..|b + [x]| - 1] == b;
  }

  /** Sent(Dispatch(c, op)) has one more element. */
  lemma DispatchSends(c: Client, op: Op)
    ensures Sent(Dispatch(c, op)) == Sent(c) + [op.bytes]
  {
  }

  lemma RequestOrdinary(h: History, prepared: Bytes)
    requires Ordinary(h) && Requests(h.c)
    ensures Ordinary(Take(h, RequestSave(prepared)))
  {
  }

  lemma RequestChained(h: History, prepared: Bytes)
    requires Ordinary(h) && Chained(h) && Requests(h.c)
    ensures Chained(Take(h, RequestSave(prepared)))
  {
  }

  /** What a request leaves sent or waiting. */
  lemma RequestPending(h: History, prepared: Bytes)
    requires Ordinary(h) && Requests(h.c)
    ensures var g, sent := Take(h, RequestSave(prepared)), Sent(h.c);
      && (Pending(g.c) == sent + [Some(prepared)]
          || (Pending(g.c) == sent && sent != [] && Last(sent) == Some(prepared))
          || (Pending(g.c) == Pending(h.c) && h.c.queued.Some? && h.c.queued.value.bytes == Some(prepared)))
  {
    var g := Take(h, RequestSave(prepared));
    var c := Prepared(h.c, prepared);
    var op := Captured(c, None, None, prepared);
    assert g.c == QueueOrDispatch(c, op) && Sent(c) == Sent(h.c);
    if h.c.active.None? {
      DispatchSends(c, op);
      assert Pending(g.c) == Sent(h.c) + [Some(prepared)];
    } else if SameRequest(op, c.active) {
      assert Pending(g.c) == Sent(h.c);
    } else if SameRequest(op, c.queued) {
      assert Pending(g.c) == Pending(h.c);
    } else {
      assert Pending(g.c) == Sent(h.c) + [Some(prepared)];
    }
  }

  lemma RequestNewest(h: History, prepared: Bytes)
    requires Ordinary(h) && Requests(h.c) && Subsequence(Pending(h.c), Asked(h.requested))
    ensures var g := Take(h, RequestSave(prepared));
      NewestIsPending(g) && Subsequence(Pending(g.c), Asked(g.requested))
  {
    var g := Take(h, RequestSave(prepared));
    var sent, asked := Sent(h.c), Asked(h.requested);
    assert g.requested == h.requested + [prepared] && Asked(g.requested) == asked + [Some(prepared)];
    if h.c.queued.Some? {
      DropPending(sent, h.c.queued.value.bytes, asked);
    } else {
      assert Pending(h.c) == sent;
    }
    SameEnd(sent, asked, Some(prepared));
    SameEnd(Pending(h.c), asked, Some(prepared));
    RequestPending(h, prepared);
  }

  lemma RequestCoalesces(h: History, prepared: Bytes)
    requires Coalesced(h) && Requests(h.c)
    ensures Coalesced(Take(h, RequestSave(prepared)))
  {
    RequestOrdinary(h, prepared);
    RequestChained(h, prepared);
    RequestNewest(h, prepared);
  }

  lemma ConfirmCoalesces(h: History, rev: Rev, hooked: Bytes)
    requires Coalesced(h) && CanStep(h, ConfirmSave(rev, hooked))
    ensures Coalesced(Take(h, ConfirmSave(rev, hooked)))
  {
    var g := Take(h, ConfirmSave(rev, hooked));
    var op := h.c.active.value;
    if QueueFollows(h.c, op) {
      DispatchSends(Confirm(h.c, op, rev, hooked),
                    h.c.queued.value.(base := Some(Snap(op.bytes.value, rev)), expected := Some(rev)));
      assert Sent(Confirm(h.c, op, rev, hooked)) == Sent(h.c);
      assert Pending(g.c) == Pending(h.c);
    } else {
      assert h.c.queued.None?;
      assert Sent(g.c) == Sent(h.c);
      assert Pending(g.c) == Pending(h.c);
    }
  }

  /** Every step of such a run keeps the refinement. */
  lemma StepCoalesces(h: History, s: Step)
    requires Coalesced(h) && CanStep(h, s)
    ensures Coalesced(Take(h, s))
  {
    match s {
      case EditText(text) =>
        assert Sent(Take(h, s).c) == Sent(h.c) && Pending(Take(h, s).c) == Pending(h.c);
      case RequestSave(prepared) =>
        if Requests(h.c) { RequestCoalesces(h, prepared); }
        else { assert Take(h, s).c == h.c; }
      case ConfirmSave(rev, hooked) => ConfirmCoalesces(h, rev, hooked);
    }
  }

  ghost predicate Runs(steps: seq<Step>, hs: seq<History>) {
    && |hs| == |steps| + 1
    && (exists file, base :: hs[0] == History(Visited(file, base), base.rev, [], []))
    && forall i | 0 <= i < |steps| :: CanStep(hs[i], steps[i]) && hs[i + 1] == Take(hs[i], steps[i])
  }

  lemma {:induction false} RunCoalesces(steps: seq<Step>, hs: seq<History>, n: nat)
    requires Runs(steps, hs) && n <= |steps|
    ensures Coalesced(hs[n])
  {
    if n == 0 {
      var file, base :| hs[0] == History(Visited(file, base), base.rev, [], []);
      BeginCoalesced(file, base);
    } else {
      RunCoalesces(steps, hs, n - 1);
      StepCoalesces(hs[n - 1], steps[n - 1]);
    }
  }

  /** Coalescing refines a queue that sends every save. */
  lemma CoalescingRefinesQueue(steps: seq<Step>, hs: seq<History>)
    requires Runs(steps, hs)
    ensures var h := hs[|steps|];
            && Subsequence(Sent(h.c), Asked(h.requested))
            && |h.confirmed| <= |h.c.calls| <= |h.confirmed| + 1
            && (forall k | 0 <= k < |h.c.calls| ::
                  h.c.calls[k].request.Write? && h.c.calls[k].request.bytes == Sent(h.c)[k]
                  && h.c.calls[k].request.expected == Some(if k == 0 then h.first else h.confirmed[k - 1]))
            && (h.c.active.None? && h.requested != [] ==>
                  |h.confirmed| == |h.c.calls| > 0 && Last(Sent(h.c)) == Some(Last(h.requested)))
  {
    RunCoalesces(steps, hs, |steps|);
    var h := hs[|steps|];
    if h.c.queued.Some? { DropPending(Sent(h.c), h.c.queued.value.bytes, Asked(h.requested)); }
    else { assert Pending(h.c) == Sent(h.c); }
  }
}
