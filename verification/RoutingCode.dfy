/** The connection's own code (lisp/relay-core.el), step by step, against Routing. */
module RoutingCode {
  import opened Common
  import opened Routing

  class Channel {
    var pending: map<nat, Entry>
    var nextId: nat
    var queue: seq<Thunk>
    var timers: seq<Thunk>
    var live: bool
    const max: nat

    ghost var issued: set<nat>
    ghost var cancelled: seq<Thunk>
    ghost var arrivals: seq<Thunk>
    ghost var started: seq<Thunk>
    ghost var ran: seq<Thunk>
    ghost var abandoned: seq<Thunk>
    ghost var refused: seq<Thunk>

    constructor (max: nat)
      ensures State() == FRESH && this.max == max
    {
      pending, nextId, queue, timers, live, this.max := map[], 0, [], [], true, max;
      issued, cancelled, arrivals, started, ran, abandoned, refused := {}, [], [], [], [], [], [];
    }

    ghost function State(): Conn
      reads this
    {
      Conn(pending, nextId, queue, timers, live, issued, cancelled, arrivals, started, ran, abandoned, refused)
    }

    /** The id and table entry every kind of request begins with. */
    method Begin(entry: Entry) returns (id: nat)
      modifies this
      ensures State() == Routing.Begin(old(State()), entry) && id == nextId
    {
      nextId := nextId + 1;
      id := nextId;
      pending := pending[id := entry];
      if !entry.Waiting? {
        issued := issued + {id};
      }
    }

    method EnqueueCallback(t: Thunk)
      modifies `queue, `live, `arrivals, `refused
      ensures State() == Enqueue(old(State()), t, max)
    {
      if |queue| >= max {
        live := false;
        refused := refused + [t];
        return;
      }
      queue := [t] + queue;
      arrivals := arrivals + [t];
    }

    /** `relay--dispatch` of a message that carries an id. */
    method Dispatch(id: nat, more: bool)
      modifies this
      ensures State() == Step(old(State()), Reply(id, more), max)
    {
      if id > 0 && id in pending {
        match pending[id] {
          case Stream =>
            if more {
              EnqueueCallback(Thunk(id, false));
            } else {
              pending := pending - {id};
              EnqueueCallback(Thunk(id, true));
            }
          case Async =>
            pending := pending - {id};
            EnqueueCallback(Thunk(id, true));
          case Waiting =>
            pending := pending[id := Answered];
          case Answered =>
        }
      }
    }

    /** `relay--conn-has-blocked-waiter-p`. */
    method HasBlockedWaiter() returns (blocked: bool)
      ensures blocked == BlockedWaiter(State())
    {
      blocked := false;
      var ids := pending.Keys;
      while ids != {}
        invariant ids <= pending.Keys
        invariant blocked == exists id <- pending.Keys - ids :: pending[id].Waiting?
        decreases |ids|
      {
        var id :| id in ids;
        ids := ids - {id};
        if pending[id].Waiting? {
          blocked := true;
        }
      }
    }

    /** `nreverse`. */
    method TakeQueue() returns (thunks: seq<Thunk>)
      modifies `queue
      ensures thunks == Reverse(old(queue)) && queue == []
    {
      thunks := [];
      var rest := queue;
      while rest != []
        invariant Reverse(queue) == Reverse(rest) + thunks
        decreases |rest|
      {
        thunks := [rest[0]] + thunks;
        rest := rest[1..];
      }
      queue := [];
    }

    /** `relay--drain-callback-queue`; the thunk at position `fault`, if there is one, signals. */
    method DrainCallbackQueue(fault: nat)
      modifies this
      ensures State() == Step(old(State()), Drain(fault), max)
    {
      var blocked := HasBlockedWaiter();
      if blocked {
        return;
      }
      var thunks := TakeQueue();
      RunThunks(thunks, fault);
    }

    /** `(dolist (thunk thunks) (funcall thunk))`. */
    method RunThunks(thunks: seq<Thunk>, fault: nat)
      modifies `started, `ran, `abandoned
      ensures var n := if fault < |thunks| then fault + 1 else |thunks|;
        && started == old(started) + thunks[..n] && ran == old(ran) + thunks[..n]
        && abandoned == old(abandoned) + thunks[n..]
    {
      var n := 0;
      var signalled := false;
      while n < |thunks| && !signalled
        invariant 0 <= n <= |thunks| && (if signalled then n == fault + 1 else n <= fault)
        invariant started == old(started) + thunks[..n] && ran == old(ran) + thunks[..n]
        invariant abandoned == old(abandoned)
        decreases |thunks| - n
      {
        assert thunks[..n + 1] == thunks[..n] + [thunks[n]];
        started := started + [thunks[n]];
        ran := ran + [thunks[n]];
        signalled := n == fault;
        n := n + 1;
      }
      abandoned := abandoned + thunks[n..];
    }

    /** `relay--cancel-request`, of an asynchronous request. */
    method CancelRequest(id: nat)
      modifies this
      ensures State() == Step(old(State()), Cancel(id), max)
    {
      if id in pending && (pending[id].Async? || pending[id].Stream?) {
        pending := pending - {id};
        cancelled := cancelled + [Thunk(id, true)];
      }
    }

    /** `relay--timeout-request`. */
    method TimeoutRequest(id: nat)
      modifies this
      ensures State() == Step(old(State()), Timeout(id), max)
    {
      if id in pending && (pending[id].Async? || pending[id].Stream?) {
        pending := pending - {id};
        EnqueueCallback(Thunk(id, true));
      }
    }

    /** `relay--fail-pending`; `order` is the order in which the table is walked. */
    method FailPending(order: seq<nat>)
      modifies this
      ensures State() == Step(old(State()), Fail(order), max)
    {
      ghost var goal := FailEach(State(), order);
      var rest := order;
      while rest != []
        invariant FailEach(State(), rest) == goal
        decreases |rest|
      {
        var id := rest[0];
        if id in pending {
          if pending[id].Waiting? {
            pending := pending[id := Answered];
          } else if pending[id].Async? || pending[id].Stream? {
            pending := pending - {id};
            timers := timers + [Thunk(id, true)];
          }
        }
        rest := rest[1..];
      }
      live := false;
    }
  }
}
