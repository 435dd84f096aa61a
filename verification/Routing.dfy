/** Routing of replies to the requests that wait for them, and the deferred callback queue of one connection.

    One dispatch, one drain and one timer is one step; a callback is atomic and does not itself block. */
module Routing {
  import opened Common

  datatype Entry =
    | Waiting        // a blocked synchronous request
    | Answered       // its reply, not yet collected
    | Async
    | Stream

  /** A callback applied to a message: a stream's chunk, or the one final call of a request. */
  datatype Thunk = Thunk(id: nat, final: bool)

  /** `queue` has the newest first, as `push` leaves it.  `timers` are the direct calls a transport failure
      schedules.  The rest is history: `arrivals` every thunk ever queued, `started` those a drain ran, `ran`
      every callback in the order it ran, `abandoned` those behind a thunk that signalled, `refused` those an
      overflow dropped, `cancelled` those that were called off, `issued` the ids of asynchronous requests. */
  datatype Conn = Conn(pending: map<nat, Entry>, nextId: nat, queue: seq<Thunk>, timers: seq<Thunk>, live: bool,
                       issued: set<nat>, cancelled: seq<Thunk>, arrivals: seq<Thunk>, started: seq<Thunk>,
                       ran: seq<Thunk>, abandoned: seq<Thunk>, refused: seq<Thunk>)

  datatype Event =
    | BeginSync | CollectSync(id: nat) | GiveUpSync(id: nat)
    | BeginAsync | BeginStream
    | Reply(id: nat, more: bool)
    | Drain(fault: nat)       // the thunk at this position signals; past the end, none does
    | Cancel(id: nat) | Timeout(id: nat)
    | Fail(order: seq<nat>)   // the transport fails; the table is walked in this order
    | FireTimer(index: nat)

  const FRESH := Conn(map[], 0, [], [], true, {}, [], [], [], [], [], [])

  function Reverse<T>(s: seq<T>): seq<T> {
    if s == [] then [] else Reverse(s[1..]) + [s[0]]
  }

  predicate BlockedWaiter(c: Conn) { exists id <- c.pending :: c.pending[id].Waiting? }

  predicate IsCallback(c: Conn, id: nat) { id in c.pending && (c.pending[id].Async? || c.pending[id].Stream?) }

  function Forget(c: Conn, id: nat): Conn { c.(pending := c.pending - {id}) }

  /** `relay--enqueue-callback`. */
  function Enqueue(c: Conn, t: Thunk, max: nat): Conn {
    if |c.queue| >= max then c.(live := false, refused := c.refused + [t])
    else c.(queue := [t] + c.queue, arrivals := c.arrivals + [t])
  }

  /** `relay--dispatch` of a reply. */
  function OnReply(c: Conn, id: nat, more: bool, max: nat): Conn {
    if id == 0 || id !in c.pending then c
    else
      match c.pending[id]
      case Stream => if more then Enqueue(c, Thunk(id, false), max) else Enqueue(Forget(c, id), Thunk(id, true), max)
      case Async => Enqueue(Forget(c, id), Thunk(id, true), max)
      case Waiting => c.(pending := c.pending[id := Answered])
      case Answered => c
  }

  /** `relay--drain-callback-queue`. */
  function OnDrain(c: Conn, fault: nat): Conn {
    if BlockedWaiter(c) then c
    else
      var thunks := Reverse(c.queue);
      var n := if fault < |thunks| then fault + 1 else |thunks|;
      RanThrough(c, thunks[..n], thunks[n..])
  }

  /** The queue is taken; `done` ran, the last of them signalling if any are `left`. */
  function RanThrough(c: Conn, done: seq<Thunk>, left: seq<Thunk>): Conn {
    c.(queue := [], started := c.started + done, ran := c.ran + done, abandoned := c.abandoned + left)
  }

  /** `relay--fail-pending`, walking the table. */
  function FailEach(c: Conn, order: seq<nat>): Conn
    decreases |order|
  {
    if order == [] then c
    else
      var id := order[0];
      var d := if id !in c.pending then c
               else if c.pending[id].Waiting? then c.(pending := c.pending[id := Answered])
               else if IsCallback(c, id) then Forget(c, id).(timers := c.timers + [Thunk(id, true)])
               else c;
      FailEach(d, order[1..])
  }

  function Begin(c: Conn, entry: Entry): Conn {
    c.(nextId := c.nextId + 1, pending := c.pending[c.nextId + 1 := entry],
       issued := if entry.Waiting? then c.issued else c.issued + {c.nextId + 1})
  }

  function Step(c: Conn, e: Event, max: nat): Conn {
    match e
    case BeginSync => Begin(c, Waiting)
    case BeginAsync => Begin(c, Async)
    case BeginStream => Begin(c, Stream)
    case CollectSync(id) => if id in c.pending && c.pending[id].Answered? then Forget(c, id) else c
    case GiveUpSync(id) => if id in c.pending && c.pending[id].Waiting? then Forget(c, id) else c
    case Reply(id, more) => OnReply(c, id, more, max)
    case Drain(fault) => OnDrain(c, fault)
    case Cancel(id) => if IsCallback(c, id) then Forget(c, id).(cancelled := c.cancelled + [Thunk(id, true)]) else c
    case Timeout(id) => if IsCallback(c, id) then Enqueue(Forget(c, id), Thunk(id, true), max) else c
    case Fail(order) => FailEach(c, order).(live := false)
    case FireTimer(index) =>
      if index < |c.timers|
      then c.(timers := c.timers[..index] + c.timers[index + 1..], ran := c.ran + [c.timers[index]])
      else c
  }

  function Run(events: seq<Event>, max: nat): Conn {
    if events == [] then FRESH else Step(Run(events[..|events| - 1], max), events[|events| - 1], max)
  }

  // ---------------------------------------------------------------------------------------------
  // Conservation: every asynchronous request is in exactly one place

  /** How many final calls of id are in s. */
  function Count(s: seq<Thunk>, id: nat): nat {
    if s == [] then 0 else Count(s[..|s| - 1], id) + One(s[|s| - 1], id)
  }

  function One(t: Thunk, id: nat): nat { if t.final && t.id == id then 1 else 0 }

  function Pending1(c: Conn, id: nat): nat { if IsCallback(c, id) then 1 else 0 }

  /** Still pending, cancelled, or its final call queued, run, abandoned, refused or on a timer. */
  function Places(c: Conn, id: nat): nat {
    Pending1(c, id) + Count(c.cancelled, id) + Count(c.queue, id) + Count(c.timers, id) + Count(c.ran, id)
    + Count(c.abandoned, id) + Count(c.refused, id)
  }

  predicate Numbered(c: Conn) {
    && (forall id <- c.pending :: id <= c.nextId)
    && (forall id <- c.issued :: id <= c.nextId)
  }

  predicate Ledger(c: Conn, id: nat) {
    Numbered(c) && Places(c, id) == if id in c.issued then 1 else 0
  }

  lemma {:induction false} CountAppend(a: seq<Thunk>, b: seq<Thunk>, id: nat)
    ensures Count(a + b, id) == Count(a, id) + Count(b, id)
  {
    if b == [] {
      assert a + b == a;
    } else {
      CountAppend(a, b[..|b| - 1], id);
      assert (a + b)[..|a + b| - 1] == a + b[..|b| - 1];
    }
  }

  lemma CountOne(t: Thunk, id: nat)
    ensures Count([t], id) == One(t, id)
  {
    assert [t][..0] == [];
  }

  lemma {:induction false} CountReverse(s: seq<Thunk>, id: nat)
    ensures Count(Reverse(s), id) == Count(s, id) && |Reverse(s)| == |s|
  {
    if s != [] {
      CountReverse(s[1..], id);
      CountAppend(Reverse(s[1..]), [s[0]], id);
      CountAppend([s[0]], s[1..], id);
      assert s == [s[0]] + s[1..];
    }
  }

  lemma EnqueueKeeps(c: Conn, t: Thunk, max: nat, id: nat)
    requires Numbered(c)
    ensures var d := Enqueue(c, t, max);
      Places(d, id) == Places(c, id) + One(t, id) && Numbered(d) && d.issued == c.issued
  {
    CountOne(t, id);
    CountAppend([t], c.queue, id);
    CountSnoc(c.refused, t, id);
  }

  /** An outstanding id moves to its final call. */
  lemma ReleaseKeeps(c: Conn, own: nat, max: nat, id: nat)
    requires Ledger(c, id) && IsCallback(c, own)
    ensures Ledger(Enqueue(Forget(c, own), Thunk(own, true), max), id)
  {
    EnqueueKeeps(Forget(c, own), Thunk(own, true), max, id);
  }

  lemma RanKeeps(c: Conn, done: seq<Thunk>, left: seq<Thunk>, id: nat)
    requires Ledger(c, id) && Count(done, id) + Count(left, id) == Count(c.queue, id)
    ensures Ledger(RanThrough(c, done, left), id)
  {
    CountAppend(c.ran, done, id);
    CountAppend(c.abandoned, left, id);
  }

  lemma CountSplit(s: seq<Thunk>, n: nat, id: nat)
    requires n <= |s|
    ensures Count(s[..n], id) + Count(s[n..], id) == Count(s, id)
  {
    assert s[..n] + s[n..] == s;
    CountAppend(s[..n], s[n..], id);
  }

  lemma DrainKeeps(c: Conn, fault: nat, id: nat)
    requires Ledger(c, id)
    ensures Ledger(OnDrain(c, fault), id)
  {
    var thunks := Reverse(c.queue);
    var n := if fault < |thunks| then fault + 1 else |thunks|;
    CountReverse(c.queue, id);
    CountSplit(thunks, n, id);
    RanKeeps(c, thunks[..n], thunks[n..], id);
  }

  lemma CountSnoc(s: seq<Thunk>, t: Thunk, id: nat)
    ensures Count(s + [t], id) == Count(s, id) + One(t, id)
  {
    CountOne(t, id);
    CountAppend(s, [t], id);
  }

  lemma FailOneKeeps(c: Conn, own: nat, id: nat)
    requires Ledger(c, id) && IsCallback(c, own)
    ensures Ledger(Forget(c, own).(timers := c.timers + [Thunk(own, true)]), id)
  {
    CountSnoc(c.timers, Thunk(own, true), id);
  }

  lemma AnswerKeeps(c: Conn, own: nat, id: nat)
    requires Ledger(c, id) && own in c.pending && c.pending[own].Waiting?
    ensures Ledger(c.(pending := c.pending[own := Answered]), id)
  {
  }

  lemma {:induction false} FailKeeps(c: Conn, order: seq<nat>, id: nat)
    requires Ledger(c, id)
    ensures Ledger(FailEach(c, order), id)
    decreases |order|
  {
    if order != [] {
      var own := order[0];
      var rest := order[1..];
      if IsCallback(c, own) {
        FailOneKeeps(c, own, id);
        FailKeeps(Forget(c, own).(timers := c.timers + [Thunk(own, true)]), rest, id);
      } else if own in c.pending && c.pending[own].Waiting? {
        AnswerKeeps(c, own, id);
        FailKeeps(c.(pending := c.pending[own := Answered]), rest, id);
      } else {
        FailKeeps(c, rest, id);
      }
    }
  }

  lemma CountRemoved(s: seq<Thunk>, index: nat, id: nat)
    requires index < |s|
    ensures Count(s[..index] + s[index + 1..], id) + One(s[index], id) == Count(s, id)
  {
    var a, t, b := s[..index], s[index], s[index + 1..];
    assert s == (a + [t]) + b;
    CountAppend(a + [t], b, id);
    CountSnoc(a, t, id);
    CountAppend(a, b, id);
  }

  lemma TimerKeeps(c: Conn, index: nat, max: nat, id: nat)
    requires Ledger(c, id) && index < |c.timers|
    ensures Ledger(Step(c, FireTimer(index), max), id)
  {
    CountRemoved(c.timers, index, id);
    CountSnoc(c.ran, c.timers[index], id);
  }

  lemma ReplyKeeps(c: Conn, own: nat, more: bool, max: nat, id: nat)
    requires Ledger(c, id)
    ensures Ledger(OnReply(c, own, more, max), id)
  {
    if own != 0 && IsCallback(c, own) {
      if c.pending[own].Stream? && more {
        EnqueueKeeps(c, Thunk(own, false), max, id);
      } else {
        ReleaseKeeps(c, own, max, id);
      }
    }
  }

  lemma CancelKeeps(c: Conn, own: nat, max: nat, id: nat)
    requires Ledger(c, id)
    ensures Ledger(Step(c, Cancel(own), max), id)
  {
    if IsCallback(c, own) {
      CountSnoc(c.cancelled, Thunk(own, true), id);
      CancelPlaces(c, own, id);
    }
  }

  lemma CancelPlaces(c: Conn, own: nat, id: nat)
    requires IsCallback(c, own)
      && Count(c.cancelled + [Thunk(own, true)], id) == Count(c.cancelled, id) + One(Thunk(own, true), id)
    ensures Places(Forget(c, own).(cancelled := c.cancelled + [Thunk(own, true)]), id) == Places(c, id)
  {
  }

  lemma TimeoutKeeps(c: Conn, own: nat, max: nat, id: nat)
    requires Ledger(c, id)
    ensures Ledger(Step(c, Timeout(own), max), id)
  {
    if IsCallback(c, own) {
      ReleaseKeeps(c, own, max, id);
    }
  }

  lemma BeginKeeps(c: Conn, entry: Entry, id: nat)
    requires Ledger(c, id) && !entry.Answered?
    ensures Ledger(Begin(c, entry), id)
  {
  }

  lemma StepKeepsLedger(c: Conn, e: Event, max: nat, id: nat)
    requires Ledger(c, id)
    ensures Ledger(Step(c, e, max), id)
  {
    match e {
      case BeginSync => BeginKeeps(c, Waiting, id);
      case BeginAsync => BeginKeeps(c, Async, id);
      case BeginStream => BeginKeeps(c, Stream, id);
      case Reply(own, more) => ReplyKeeps(c, own, more, max, id);
      case Drain(fault) => DrainKeeps(c, fault, id);
      case Cancel(own) => CancelKeeps(c, own, max, id);
      case Timeout(own) => TimeoutKeeps(c, own, max, id);
      case Fail(order) => FailKeeps(c, order, id);
      case FireTimer(index) => if index < |c.timers| { TimerKeeps(c, index, max, id); }
      case CollectSync(_) =>
      case GiveUpSync(_) =>
    }
  }

  /** In every run, every asynchronous request ever issued is in exactly one place, and no other id in any. */
  lemma {:induction false} RunKeepsLedger(events: seq<Event>, max: nat, id: nat)
    ensures Ledger(Run(events, max), id)
  {
    if events != [] {
      RunKeepsLedger(events[..|events| - 1], max, id);
      StepKeepsLedger(Run(events[..|events| - 1], max), events[|events| - 1], max, id);
    }
  }

  /** Whatever replies, duplicates, timeouts, cancellations and transport failures do, the final callback of
      a request runs at most once, and never while the request is still pending or after it was cancelled. */
  lemma FinalRunsAtMostOnce(events: seq<Event>, max: nat, id: nat)
    ensures var c := Run(events, max);
      Count(c.ran, id) <= 1 && (Count(c.ran, id) == 1 ==> !IsCallback(c, id) && Count(c.cancelled, id) == 0)
  {
    RunKeepsLedger(events, max, id);
  }

  // ---------------------------------------------------------------------------------------------
  // Order

  /** a is b with some elements left out. */
  predicate Within<T(==)>(a: seq<T>, b: seq<T>)
    decreases |b|
  {
    || a == []
    || (b != [] && Within(a, b[..|b| - 1]))
    || (b != [] && a[|a| - 1] == b[|b| - 1] && Within(a[..|a| - 1], b[..|b| - 1]))
  }

  lemma {:induction false} WithinAppend(a: seq<Thunk>, b: seq<Thunk>, t: Thunk)
    requires Within(a, b)
    ensures Within(a + [t], b + [t])
  {
    assert (a + [t])[..|a|] == a && (b + [t])[..|b|] == b;
  }

  lemma {:induction false} WithinPrefix(a: seq<Thunk>, n: nat, b: seq<Thunk>)
    requires Within(a, b) && n <= |a|
    ensures Within(a[..n], b)
    decreases |b|
  {
    if a == [] || n == 0 {
      assert a[..n] == [];
    } else if n == |a| {
      assert a[..n] == a;
    } else {
      var c := b[..|b| - 1];
      if Within(a, c) {
        WithinPrefix(a, n, c);
      } else {
        WithinPrefix(a[..|a| - 1], n, c);
        assert a[..|a| - 1][..n] == a[..n];
      }
    }
  }

  lemma {:induction false} WithinLength(a: seq<Thunk>, b: seq<Thunk>)
    requires Within(a, b)
    ensures |a| <= |b| && (|a| == |b| ==> a == b)
    decreases |b|
  {
    if a != [] {
      var c := b[..|b| - 1];
      if Within(a, c) {
        WithinLength(a, c);
      } else {
        WithinLength(a[..|a| - 1], c);
        assert a == a[..|a| - 1] + [a[|a| - 1]] && b == c + [b[|b| - 1]];
      }
    }
  }

  /** Nothing of a request follows its final call. */
  predicate FinalsLast(s: seq<Thunk>) {
    forall i, j | 0 <= i < j < |s| && s[i].final :: s[j].id != s[i].id
  }

  lemma {:induction false} WithinElements(a: seq<Thunk>, b: seq<Thunk>, t: Thunk)
    requires Within(a, b) && t in a
    ensures t in b
    decreases |b|
  {
    var c := b[..|b| - 1];
    if Within(a, c) {
      WithinElements(a, c, t);
    } else if t != a[|a| - 1] {
      WithinElements(a[..|a| - 1], c, t);
    }
  }

  lemma {:induction false} WithinFinalsLast(a: seq<Thunk>, b: seq<Thunk>)
    requires Within(a, b) && FinalsLast(b)
    ensures FinalsLast(a)
    decreases |b|
  {
    if a != [] {
      var c := b[..|b| - 1];
      if Within(a, c) {
        WithinFinalsLast(a, c);
      } else {
        var d := a[..|a| - 1];
        WithinFinalsLast(d, c);
        forall i, j | 0 <= i < j < |a| && a[i].final ensures a[j].id != a[i].id {
          if j == |a| - 1 {
            assert d[i] == a[i];
            WithinElements(d, c, a[i]);
            var k :| 0 <= k < |c| && c[k] == a[i];
            assert b[k] == a[i] && b[|b| - 1] == a[j];
          } else {
            assert d[i] == a[i] && d[j] == a[j];
          }
        }
      }
    }
  }

  /** What has run and what is queued, oldest first. */
  function InOrder(c: Conn): seq<Thunk> { c.started + Reverse(c.queue) }

  ghost predicate Arrived(c: Conn) {
    && Within(InOrder(c), c.arrivals)
    && |c.started| + |c.queue| + |c.abandoned| == |c.arrivals|
    && FinalsLast(c.arrivals)
    && (forall t <- c.arrivals :: t.id <= c.nextId && (t.final ==> !IsCallback(c, t.id)))
    && (forall id <- c.pending :: id <= c.nextId)
  }

  lemma {:induction false} ReverseLength(s: seq<Thunk>)
    ensures |Reverse(s)| == |s|
  {
    if s != [] {
      ReverseLength(s[1..]);
    }
  }

  lemma EnqueueArrives(c: Conn, t: Thunk, max: nat)
    requires Arrived(c) && t.id <= c.nextId && (t.final ==> !IsCallback(c, t.id))
    requires forall u <- c.arrivals :: u.final ==> u.id != t.id
    ensures Arrived(Enqueue(c, t, max))
  {
    var d := Enqueue(c, t, max);
    if |c.queue| < max {
      assert ([t] + c.queue)[1..] == c.queue;
      assert InOrder(d) == InOrder(c) + [t];
      WithinAppend(InOrder(c), c.arrivals, t);
    }
  }

  lemma ReleaseArrives(c: Conn, id: nat, max: nat)
    requires Arrived(c) && IsCallback(c, id)
    ensures Arrived(Enqueue(Forget(c, id), Thunk(id, true), max))
  {
    EnqueueArrives(Forget(c, id), Thunk(id, true), max);
  }

  lemma DrainArrives(c: Conn, fault: nat)
    requires Arrived(c)
    ensures Arrived(OnDrain(c, fault))
  {
    if !BlockedWaiter(c) {
      var thunks := Reverse(c.queue);
      ReverseLength(c.queue);
      var n := if fault < |thunks| then fault + 1 else |thunks|;
      WithinPrefix(InOrder(c), |c.started| + n, c.arrivals);
      assert InOrder(c)[..|c.started| + n] == c.started + thunks[..n];
      var d := OnDrain(c, fault);
      assert InOrder(d) == d.started;
    }
  }

  lemma {:induction false} FailArrives(c: Conn, order: seq<nat>)
    requires Arrived(c)
    ensures Arrived(FailEach(c, order))
    decreases |order|
  {
    if order != [] {
      var own := order[0];
      if IsCallback(c, own) {
        FailArrives(Forget(c, own).(timers := c.timers + [Thunk(own, true)]), order[1..]);
      } else if own in c.pending && c.pending[own].Waiting? {
        FailArrives(c.(pending := c.pending[own := Answered]), order[1..]);
      } else {
        FailArrives(c, order[1..]);
      }
    }
  }

  lemma ReplyArrives(c: Conn, id: nat, more: bool, max: nat)
    requires Arrived(c)
    ensures Arrived(OnReply(c, id, more, max))
  {
    if id != 0 && IsCallback(c, id) {
      if c.pending[id].Stream? && more {
        EnqueueArrives(c, Thunk(id, false), max);
      } else {
        ReleaseArrives(c, id, max);
      }
    }
  }

  lemma BeginArrives(c: Conn, entry: Entry)
    requires Arrived(c)
    ensures Arrived(Begin(c, entry))
  {
  }

  lemma ForgetArrives(c: Conn, id: nat)
    requires Arrived(c)
    ensures Arrived(Forget(c, id))
  {
  }

  lemma CancelArrives(c: Conn, id: nat, max: nat)
    requires Arrived(c)
    ensures Arrived(Step(c, Cancel(id), max))
  {
    ForgetArrives(c, id);
  }

  lemma StepArrives(c: Conn, e: Event, max: nat)
    requires Arrived(c)
    ensures Arrived(Step(c, e, max))
  {
    match e {
      case BeginSync => BeginArrives(c, Waiting);
      case BeginAsync => BeginArrives(c, Async);
      case BeginStream => BeginArrives(c, Stream);
      case CollectSync(id) => ForgetArrives(c, id);
      case GiveUpSync(id) => ForgetArrives(c, id);
      case Cancel(id) => CancelArrives(c, id, max);
      case Reply(id, more) => ReplyArrives(c, id, more, max);
      case Drain(fault) => DrainArrives(c, fault);
      case Timeout(id) => if IsCallback(c, id) { ReleaseArrives(c, id, max); }
      case Fail(order) => FailArrives(c, order);
      case _ =>
    }
  }

  lemma {:induction false} RunArrives(events: seq<Event>, max: nat)
    ensures Arrived(Run(events, max))
  {
    if events != [] {
      RunArrives(events[..|events| - 1], max);
      StepArrives(Run(events[..|events| - 1], max), events[|events| - 1], max);
    }
  }

  /** The drain takes the queue, and a callback that is not the last in it signals. */
  predicate Skips(c: Conn, e: Event) { e.Drain? && !BlockedWaiter(c) && e.fault + 1 < |c.queue| }

  lemma StepAbandons(c: Conn, e: Event, max: nat)
    ensures if Skips(c, e) then |Step(c, e, max).abandoned| > |c.abandoned|
      else Step(c, e, max).abandoned == c.abandoned
  {
    match e {
      case Drain(_) => ReverseLength(c.queue);
      case Fail(order) => FailTouches(c, order);
      case _ =>
    }
  }

  lemma {:induction false} UnskippedRun(events: seq<Event>, max: nat)
    requires forall n | 0 <= n < |events| :: !Skips(Run(events[..n], max), events[n])
    ensures Run(events, max).abandoned == []
  {
    if events != [] {
      var m := |events| - 1;
      var before := events[..m];
      forall n | 0 <= n < m ensures !Skips(Run(before[..n], max), before[n]) {
        assert before[..n] == events[..n] && before[n] == events[n];
      }
      UnskippedRun(before, max);
      StepAbandons(Run(before, max), events[m], max);
    }
  }

  lemma {:induction false} SkippedRun(events: seq<Event>, n: nat, max: nat)
    requires n < |events| && Skips(Run(events[..n], max), events[n])
    ensures Run(events, max).abandoned != []
  {
    var m := |events| - 1;
    var before := events[..m];
    if n < m {
      assert before[..n] == events[..n];
      SkippedRun(before, n, max);
    }
    StepAbandons(Run(before, max), events[m], max);
  }

  /** Callbacks leave the queue in arrival order, nothing of a request after its final call; and each of them
      does, unless some drain that no synchronous request blocks meets a signal before the end of the queue. */
  lemma QueueIsFifo(events: seq<Event>, max: nat)
    ensures var c := Run(events, max);
      && Within(InOrder(c), c.arrivals)
      && (InOrder(c) == c.arrivals <==> forall n | 0 <= n < |events| :: !Skips(Run(events[..n], max), events[n]))
      && FinalsLast(InOrder(c))
  {
    RunArrives(events, max);
    if forall n | 0 <= n < |events| :: !Skips(Run(events[..n], max), events[n]) {
      UnskippedRun(events, max);
    } else {
      var n :| 0 <= n < |events| && Skips(Run(events[..n], max), events[n]);
      SkippedRun(events, n, max);
    }
    var c := Run(events, max);
    ReverseLength(c.queue);
    WithinLength(InOrder(c), c.arrivals);
    WithinFinalsLast(InOrder(c), c.arrivals);
  }

  /** A failure touches only the pending table and the timers. */
  lemma {:induction false} FailTouches(c: Conn, order: seq<nat>)
    ensures var d := FailEach(c, order);
      && d.ran == c.ran && d.started == c.started && d.queue == c.queue && d.abandoned == c.abandoned
      && c.timers <= d.timers
    decreases |order|
  {
    if order != [] {
      var own := order[0];
      if IsCallback(c, own) {
        FailTouches(Forget(c, own).(timers := c.timers + [Thunk(own, true)]), order[1..]);
      } else if own in c.pending && c.pending[own].Waiting? {
        FailTouches(c.(pending := c.pending[own := Answered]), order[1..]);
      } else {
        FailTouches(c, order[1..]);
      }
    }
  }

  // ---------------------------------------------------------------------------------------------
  // Transport failures

  lemma {:induction false} ReverseHas(s: seq<Thunk>, t: Thunk)
    ensures t in Reverse(s) <==> t in s
  {
    if s != [] {
      ReverseHas(s[1..], t);
      var r := Reverse(s);
      assert r == Reverse(s[1..]) + [s[0]] && s == [s[0]] + s[1..];
    }
  }

  /** The transport fails while a chunk of a stream that is still pending waits in the queue. */
  predicate Overtakes(c: Conn, e: Event) {
    e.Fail? && exists id <- e.order :: IsCallback(c, id) && Thunk(id, false) in c.queue
  }

  /** Nothing of the request waits in the queue, and its final call has not run. */
  predicate Clear(c: Conn, id: nat) {
    (forall u <- c.queue :: u.id != id) && (forall u <- c.ran :: u.final ==> u.id != id)
  }

  /** However the timers and the queue take turns, every request's final call comes last. */
  ghost predicate Paced(c: Conn) {
    && FinalsLast(c.ran + Reverse(c.queue))
    && (forall t | t in c.ran || t in c.queue :: t.id <= c.nextId && (t.final ==> !IsCallback(c, t.id)))
    && (forall t <- c.timers :: t.final && t.id <= c.nextId && !IsCallback(c, t.id) && Clear(c, t.id))
    && (forall i, j | 0 <= i < j < |c.timers| :: c.timers[i].id != c.timers[j].id)
    && (forall id <- c.pending :: id <= c.nextId)
  }

  lemma FinalsLastInsert(a: seq<Thunk>, t: Thunk, b: seq<Thunk>)
    requires FinalsLast(a + b) && (forall u <- a :: u.final ==> u.id != t.id) && (forall u <- b :: u.id != t.id)
    ensures FinalsLast(a + [t] + b)
  {
    var all, was := a + [t] + b, a + b;
    forall i, j | 0 <= i < j < |all| && all[i].final ensures all[j].id != all[i].id {
      if i != |a| && j != |a| {
        var x, y := if i < |a| then i else i - 1, if j < |a| then j else j - 1;
        assert was[x] == all[i] && was[y] == all[j];
      } else if i == |a| {
        assert all[j] == b[j - |a| - 1];
      } else {
        assert all[i] == a[i];
      }
    }
  }

  lemma EnqueuePaced(c: Conn, t: Thunk, max: nat)
    requires Paced(c) && t.id <= c.nextId && (t.final ==> !IsCallback(c, t.id))
    requires (forall u | u in c.ran || u in c.queue :: u.final ==> u.id != t.id) && forall u <- c.timers :: u.id != t.id
    ensures Paced(Enqueue(c, t, max))
  {
    var d := Enqueue(c, t, max);
    if |c.queue| < max {
      assert ([t] + c.queue)[1..] == c.queue;
      var all := c.ran + Reverse(c.queue);
      assert d.ran + Reverse(d.queue) == all + [t];
      forall u <- all ensures u.final ==> u.id != t.id { ReverseHas(c.queue, u); }
      assert all + [] == all && all + [t] + [] == all + [t];
      FinalsLastInsert(all, t, []);
    }
  }

  lemma ReplyPaced(c: Conn, id: nat, more: bool, max: nat)
    requires Paced(c)
    ensures Paced(OnReply(c, id, more, max))
  {
    if id != 0 && IsCallback(c, id) {
      if c.pending[id].Stream? && more {
        EnqueuePaced(c, Thunk(id, false), max);
      } else {
        EnqueuePaced(Forget(c, id), Thunk(id, true), max);
      }
    }
  }

  lemma DrainPaced(c: Conn, fault: nat)
    requires Paced(c)
    ensures Paced(OnDrain(c, fault))
  {
    if !BlockedWaiter(c) {
      var thunks := Reverse(c.queue);
      ReverseLength(c.queue);
      var n := if fault < |thunks| then fault + 1 else |thunks|;
      var d := OnDrain(c, fault);
      assert d.ran + Reverse(d.queue) == (c.ran + thunks)[..|c.ran| + n];
      forall t <- d.ran ensures t in c.ran || t in c.queue { ReverseHas(c.queue, t); }
    }
  }

  lemma TimerPaced(c: Conn, index: nat, max: nat)
    requires Paced(c) && index < |c.timers|
    ensures Paced(Step(c, FireTimer(index), max))
  {
    var t := c.timers[index];
    var d := Step(c, FireTimer(index), max);
    forall u <- Reverse(c.queue) ensures u.id != t.id { ReverseHas(c.queue, u); }
    FinalsLastInsert(c.ran, t, Reverse(c.queue));
    forall i | 0 <= i < |d.timers| ensures d.timers[i] == c.timers[if i < index then i else i + 1] {}
  }

  /** A pending request that has nothing in the queue goes to its timer. */
  lemma ToTimerPaced(c: Conn, id: nat)
    requires Paced(c) && IsCallback(c, id) && Thunk(id, false) !in c.queue
    ensures Paced(Forget(c, id).(timers := c.timers + [Thunk(id, true)]))
  {
    forall u <- c.queue ensures u.id != id {
      assert u == Thunk(id, true) || u == Thunk(id, false) || u.id != id;
    }
  }

  lemma AnswerPaced(c: Conn, id: nat)
    requires Paced(c) && id in c.pending && c.pending[id].Waiting?
    ensures Paced(c.(pending := c.pending[id := Answered]))
  {
  }

  lemma {:induction false} FailPaced(c: Conn, order: seq<nat>)
    requires Paced(c) && forall id <- order | IsCallback(c, id) :: Thunk(id, false) !in c.queue
    ensures Paced(FailEach(c, order))
    decreases |order|
  {
    if order != [] {
      var own, rest := order[0], order[1..];
      assert own in order && forall id <- rest :: id in order;
      if IsCallback(c, own) {
        ToTimerPaced(c, own);
        FailPaced(Forget(c, own).(timers := c.timers + [Thunk(own, true)]), rest);
      } else if own in c.pending && c.pending[own].Waiting? {
        AnswerPaced(c, own);
        FailPaced(c.(pending := c.pending[own := Answered]), rest);
      } else {
        FailPaced(c, rest);
      }
    }
  }

  lemma BeginPaced(c: Conn, entry: Entry)
    requires Paced(c)
    ensures Paced(Begin(c, entry))
  {
  }

  lemma ForgetPaced(c: Conn, id: nat)
    requires Paced(c)
    ensures Paced(Forget(c, id))
  {
  }

  lemma TimeoutPaced(c: Conn, id: nat, max: nat)
    requires Paced(c)
    ensures Paced(Step(c, Timeout(id), max))
  {
    if IsCallback(c, id) { EnqueuePaced(Forget(c, id), Thunk(id, true), max); }
  }

  lemma StepPaced(c: Conn, e: Event, max: nat)
    requires Paced(c) && !Overtakes(c, e)
    ensures Paced(Step(c, e, max))
  {
    match e {
      case BeginSync => BeginPaced(c, Waiting);
      case BeginAsync => BeginPaced(c, Async);
      case BeginStream => BeginPaced(c, Stream);
      case CollectSync(id) => ForgetPaced(c, id);
      case GiveUpSync(id) => ForgetPaced(c, id);
      case Cancel(id) => ForgetPaced(c, id);
      case Reply(id, more) => ReplyPaced(c, id, more, max);
      case Drain(fault) => DrainPaced(c, fault);
      case Timeout(id) => TimeoutPaced(c, id, max);
      case Fail(order) => FailPaced(c, order);
      case FireTimer(index) => if index < |c.timers| { TimerPaced(c, index, max); }
    }
  }

  lemma {:induction false} RunPaced(events: seq<Event>, max: nat)
    requires forall n | 0 <= n < |events| :: !Overtakes(Run(events[..n], max), events[n])
    ensures Paced(Run(events, max))
  {
    if events != [] {
      var m := |events| - 1;
      var before := events[..m];
      forall n | 0 <= n < m ensures !Overtakes(Run(before[..n], max), before[n]) {
        assert before[..n] == events[..n] && before[n] == events[n];
      }
      RunPaced(before, max);
      StepPaced(Run(before, max), events[m], max);
    }
  }

  function StepAll(c: Conn, events: seq<Event>, max: nat): Conn
    decreases |events|
  {
    if events == [] then c else StepAll(Step(c, events[0], max), events[1..], max)
  }

  lemma {:induction false} RunOn(a: seq<Event>, b: seq<Event>, max: nat)
    ensures Run(a + b, max) == StepAll(Run(a, max), b, max)
    decreases |b|
  {
    if b == [] {
      assert a + b == a;
    } else {
      RunOn(a + [b[0]], b[1..], max);
      assert (a + [b[0]]) + b[1..] == a + b && (a + [b[0]])[..|a|] == a;
    }
  }

  /** Synchronous requests can give up, which unblocks the queue and changes neither it nor the timers. */
  lemma {:induction false} Unblock(c: Conn, max: nat) returns (more: seq<Event>)
    ensures forall e <- more :: e.GiveUpSync?
    ensures var d := StepAll(c, more, max);
      !BlockedWaiter(d) && d.queue == c.queue && d.timers == c.timers && d.ran == c.ran
    decreases |c.pending|
  {
    if BlockedWaiter(c) {
      var id :| id in c.pending && c.pending[id].Waiting?;
      var d := Step(c, GiveUpSync(id), max);
      assert d.pending.Keys == c.pending.Keys - {id} && |c.pending.Keys| == |c.pending|;
      var rest := Unblock(d, max);
      more := [GiveUpSync(id)] + rest;
      assert more[1..] == rest;
    } else {
      more := [];
    }
  }

  lemma {:induction false} FailReaches(c: Conn, order: seq<nat>, id: nat)
    requires id in order && IsCallback(c, id)
    ensures Thunk(id, true) in FailEach(c, order).timers
    decreases |order|
  {
    var own, rest := order[0], order[1..];
    if own == id {
      var d := Forget(c, own).(timers := c.timers + [Thunk(own, true)]);
      FailTouches(d, rest);
      assert Thunk(id, true) == d.timers[|c.timers|];
    } else if IsCallback(c, own) {
      FailReaches(Forget(c, own).(timers := c.timers + [Thunk(own, true)]), rest, id);
    } else if own in c.pending && c.pending[own].Waiting? {
      FailReaches(c.(pending := c.pending[own := Answered]), rest, id);
    } else {
      FailReaches(c, rest, id);
    }
  }

  lemma DrainAll(c: Conn)
    requires !BlockedWaiter(c)
    ensures OnDrain(c, |c.queue|).ran == c.ran + Reverse(c.queue)
  {
    ReverseLength(c.queue);
    assert Reverse(c.queue)[..|c.queue|] == Reverse(c.queue);
  }

  lemma Overtaken(ran: seq<Thunk>, queue: seq<Thunk>, id: nat)
    requires Thunk(id, false) in queue
    ensures !FinalsLast(ran + [Thunk(id, true)] + Reverse(queue))
  {
    ReverseHas(queue, Thunk(id, false));
    var k :| 0 <= k < |Reverse(queue)| && Reverse(queue)[k] == Thunk(id, false);
    var all := ran + [Thunk(id, true)] + Reverse(queue);
    assert all[|ran|].final && all[|ran| + 1 + k].id == id;
  }

  /** After a failure that overtakes, the final call can run at once, and the chunk after it. */
  lemma OvertakenRuns(c: Conn, e: Event, max: nat) returns (more: seq<Event>)
    requires Overtakes(c, e)
    ensures FailureFree(more) && !FinalsLast(StepAll(Step(c, e, max), more, max).ran)
  {
    var id :| id in e.order && IsCallback(c, id) && Thunk(id, false) in c.queue;
    FailReaches(c, e.order, id);
    FailTouches(c, e.order);
    var failed := Step(c, e, max);
    var first := Unblock(failed, max);
    var free := StepAll(failed, first, max);
    var index :| 0 <= index < |free.timers| && free.timers[index] == Thunk(id, true);
    FiresThenDrains(free, index, id, max);
    more := first + [FireTimer(index), Drain(|free.queue|)];
    StepAllOn(failed, first, [FireTimer(index), Drain(|free.queue|)], max);
  }

  lemma FiresThenDrains(c: Conn, index: nat, id: nat, max: nat)
    requires !BlockedWaiter(c) && index < |c.timers| && c.timers[index] == Thunk(id, true)
      && Thunk(id, false) in c.queue
    ensures !FinalsLast(StepAll(c, [FireTimer(index), Drain(|c.queue|)], max).ran)
  {
    DrainAll(Step(c, FireTimer(index), max));
    Overtaken(c.ran, c.queue, id);
    StepTwo(c, FireTimer(index), Drain(|c.queue|), max);
  }

  lemma StepTwo(c: Conn, e: Event, f: Event, max: nat)
    ensures StepAll(c, [e, f], max) == Step(Step(c, e, max), f, max)
  {
    assert [e, f][1..] == [f] && [f][1..] == [];
    assert StepAll(Step(c, e, max), [f], max) == Step(Step(c, e, max), f, max);
  }

  lemma {:induction false} StepAllOn(c: Conn, a: seq<Event>, b: seq<Event>, max: nat)
    ensures StepAll(c, a + b, max) == StepAll(StepAll(c, a, max), b, max)
    decreases |a|
  {
    if a == [] {
      assert a + b == b;
    } else {
      StepAllOn(Step(c, a[0], max), a[1..], b, max);
      assert (a + b)[1..] == a[1..] + b;
    }
  }

  predicate FailureFree(events: seq<Event>) { forall e <- events :: !e.Fail? }

  /** At every point of the run, however it may go on while the transport lives, no chunk of a stream runs after
      the stream's final call. */
  ghost predicate ChunksFirst(events: seq<Event>, max: nat) {
    forall n, more | 0 <= n <= |events| && FailureFree(more) :: FinalsLast(Run(events[..n] + more, max).ran)
  }

  /** Exactly when: no failure of the transport finds a chunk of a pending stream in the queue. */
  lemma ChunksFirstExactly(events: seq<Event>, max: nat)
    ensures ChunksFirst(events, max)
       <==> forall n | 0 <= n < |events| :: !Overtakes(Run(events[..n], max), events[n])
  {
    if forall n | 0 <= n < |events| :: !Overtakes(Run(events[..n], max), events[n]) {
      forall n, more | 0 <= n <= |events| && FailureFree(more) ensures FinalsLast(Run(events[..n] + more, max).ran) {
        WayIsPaced(events, n, more, max);
      }
    } else {
      var n :| 0 <= n < |events| && Overtakes(Run(events[..n], max), events[n]);
      var c := Run(events[..n], max);
      var more := OvertakenRuns(c, events[n], max);
      assert events[..n + 1][..n] == events[..n];
      RunOn(events[..n + 1], more, max);
      assert !FinalsLast(Run(events[..n + 1] + more, max).ran);
    }
  }

  lemma WayIsPaced(events: seq<Event>, n: nat, more: seq<Event>, max: nat)
    requires n <= |events| && FailureFree(more)
    requires forall m | 0 <= m < |events| :: !Overtakes(Run(events[..m], max), events[m])
    ensures FinalsLast(Run(events[..n] + more, max).ran)
  {
    var all := events[..n] + more;
    forall m | 0 <= m < |all| ensures !Overtakes(Run(all[..m], max), all[m]) {
      if m < n {
        assert all[..m] == events[..m] && all[m] == events[m];
      } else {
        assert all[m] == more[m - n];
      }
    }
    RunPaced(all, max);
    var c := Run(all, max);
    forall i, j | 0 <= i < j < |c.ran| && c.ran[i].final ensures c.ran[j].id != c.ran[i].id {
      assert (c.ran + Reverse(c.queue))[i] == c.ran[i] && (c.ran + Reverse(c.queue))[j] == c.ran[j];
    }
  }

  lemma FailOne(c: Conn, id: nat)
    requires IsCallback(c, id)
    ensures FailEach(c, [id]) == Forget(c, id).(timers := c.timers + [Thunk(id, true)])
  {
    var d := Forget(c, id).(timers := c.timers + [Thunk(id, true)]);
    assert [id][1..] == [] && FailEach(d, []) == d;
  }

  /** One failure of one request, its timer and the next drain: the final call comes last if and only if no chunk
      of the request was in the queue. */
  lemma FailureOvertakes(c: Conn, id: nat, max: nat)
    requires Arrived(c) && IsCallback(c, id) && c.timers == [] && !BlockedWaiter(c) && c.ran == c.started
    ensures var failed := Step(c, Fail([id]), max);
      FinalsLast(Step(Step(failed, FireTimer(0), max), Drain(|c.queue|), max).ran) <==> Thunk(id, false) !in c.queue
  {
    FailOne(c, id);
    var failed := Step(c, Fail([id]), max);
    var fired := Step(failed, FireTimer(0), max);
    assert fired.ran == c.ran + [Thunk(id, true)] && fired.queue == c.queue;
    DrainAll(fired);
    if Thunk(id, false) in c.queue {
      Overtaken(c.ran, c.queue, id);
    } else {
      WithinFinalsLast(InOrder(c), c.arrivals);
      forall u | u in InOrder(c) ensures u in c.arrivals { WithinElements(InOrder(c), c.arrivals, u); }
      forall u <- Reverse(c.queue) ensures u.id != id {
        ReverseHas(c.queue, u);
        assert u in InOrder(c) && (u == Thunk(id, true) || u == Thunk(id, false) || u.id != id);
      }
      forall u <- c.ran ensures u.final ==> u.id != id { assert u in InOrder(c); }
      FinalsLastInsert(c.ran, Thunk(id, true), Reverse(c.queue));
    }
  }

  // ---------------------------------------------------------------------------------------------
  // Blocked synchronous requests

  /** Only a drain that no synchronous request blocks starts a queued callback. */
  lemma StepStarts(c: Conn, e: Event, max: nat)
    ensures c.started <= Step(c, e, max).started
    ensures Step(c, e, max).started != c.started ==> e.Drain? && !BlockedWaiter(c)
  {
    if e.Fail? {
      FailTouches(c, e.order);
    }
  }

  /** Step n of the run is the one that starts its i-th queued callback. */
  ghost predicate Starts(events: seq<Event>, max: nat, n: int, i: nat) {
    && 0 <= n < |events|
    && |Run(events[..n], max).started| <= i < |Run(events[..n + 1], max).started|
    && Run(events[..n + 1], max).started <= Run(events, max).started
  }

  /** Every queued callback that any run starts is started by a drain at an instant when no synchronous request
      waits. */
  lemma {:induction false} BlockedMeansQuiet(events: seq<Event>, max: nat, i: nat)
    requires i < |Run(events, max).started|
    ensures exists n :: Starts(events, max, n, i) && events[n].Drain? && !BlockedWaiter(Run(events[..n], max))
  {
    var m := |events| - 1;
    var before := events[..m];
    StepStarts(Run(before, max), events[m], max);
    if i < |Run(before, max).started| {
      BlockedMeansQuiet(before, max, i);
      var n :| Starts(before, max, n, i) && before[n].Drain? && !BlockedWaiter(Run(before[..n], max));
      assert before[..n] == events[..n] && before[..n + 1] == events[..n + 1] && before[n] == events[n];
      assert Starts(events, max, n, i);
    } else {
      assert events[..m + 1] == events;
      assert Starts(events, max, m, i);
    }
  }
}
