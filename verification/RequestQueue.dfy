/**
 The request queue of one session: one request on the wire (`active`) and at
 most one waiting behind it (`pending`).  The functions are the specification
 of the queue methods of class `ChatServer` in ChatHistory.dfy.
 */
module RequestQueue {
  import opened Wrappers

  datatype Reference = Msgid(id: string) | Timestamp(ts: int)

  datatype Kind = Latest | Before | After | Around | Between

  const BACKGROUND: nat := 0
  const CATCHUP: nat := 1
  const USER: nat := 2

  datatype Request = Request(kind: Kind, reference: Option<Reference>, endRef: Option<Reference>,
                             limit: int, priority: nat, usedMsgid: bool, gapId: int, gapDir: int)

  /** `sent` is what went out on the socket, oldest first; `freed` is what was
      given back to the allocator. */
  datatype Queue = Queue(active: Option<Request>, pending: Option<Request>, loading: bool,
                         usedMsgid: bool, sent: seq<Request>, freed: multiset<Request>)

  predicate IsDup(held: Option<Request>, req: Request) {
    held.Some? && held.value.kind == req.kind &&
    held.value.reference == req.reference && held.value.endRef == req.endRef
  }

  /** Put a request on the wire, or drop it when nothing may be sent. */
  function Dispatch(q: Queue, req: Request, canSend: bool): Queue {
    if !canSend then q.(freed := q.freed + multiset{req})
    else q.(active := Some(req), loading := true, usedMsgid := req.usedMsgid, sent := q.sent + [req])
  }

  /** True when `Submit` reports the request as accepted. */
  predicate Accepts(q: Queue, req: Request) {
    !IsDup(q.active, req) && !IsDup(q.pending, req) &&
    (q.active.None? || q.pending.None? || req.priority > q.pending.value.priority)
  }

  function Slot(held: Option<Request>): multiset<Request> {
    if held.Some? then multiset{held.value} else multiset{}
  }

  function Submit(q: Queue, req: Request, canSend: bool): Queue {
    if IsDup(q.active, req) || IsDup(q.pending, req) then q.(freed := q.freed + multiset{req})
    else if q.active.None? then Dispatch(q, req, canSend)
    else if q.pending.None? || req.priority > q.pending.value.priority then
      q.(freed := q.freed + Slot(q.pending), pending := Some(req))
    else q.(freed := q.freed + multiset{req})
  }

  function Complete(q: Queue, canSend: bool): Queue {
    var q1 := q.(freed := q.freed + Slot(q.active), active := None, loading := false);
    if q1.pending.Some? then Dispatch(q1.(pending := None), q1.pending.value, canSend) else q1
  }

  function Drop(q: Queue): Queue {
    q.(freed := q.freed + Slot(q.active) + Slot(q.pending),
       active := None, pending := None, loading := false)
  }

  // ----- every run of the queue -----

  datatype Op = OpSubmit(req: Request, canSend: bool) | OpComplete(canSend: bool) | OpDrop

  function Apply(q: Queue, op: Op): Queue {
    match op
    case OpSubmit(req, canSend) => Submit(q, req, canSend)
    case OpComplete(canSend) => Complete(q, canSend)
    case OpDrop => Drop(q)
  }

  function ApplyAll(q: Queue, ops: seq<Op>): Queue {
    if ops == [] then q else Apply(ApplyAll(q, ops[..|ops| - 1]), ops[|ops| - 1])
  }

  function Given(op: Op): seq<Request> {
    if op.OpSubmit? then [op.req] else []
  }

  function Submitted(ops: seq<Op>): seq<Request> {
    if ops == [] then []
    else
      var op := ops[|ops| - 1];
      Submitted(ops[..|ops| - 1]) + Given(op)
  }

  const EMPTY_QUEUE := Queue(None, None, false, false, [], multiset{})

  predicate Inv(q: Queue) {
    (q.pending.Some? ==> q.active.Some?) &&
    (q.loading <==> q.active.Some?) &&
    (q.pending.Some? ==> !IsDup(q.active, q.pending.value))
  }

  /** Everything handed in is in exactly one place: freed, active or pending. */
  predicate Conserved(q: Queue, given: seq<Request>) {
    multiset(given) == q.freed + Slot(q.active) + Slot(q.pending)
  }

  /** The wire carries only requests that were handed in, each at most once,
      and never one that still waits. */
  predicate SentOnce(q: Queue, given: seq<Request>) {
    multiset(q.sent) + Slot(q.pending) <= multiset(given)
  }

  lemma SubmitConserves(q: Queue, r: Request, canSend: bool, given: seq<Request>)
    requires Inv(q) && Conserved(q, given)
    ensures Conserved(Submit(q, r, canSend), given + [r])
  {
    var q' := Submit(q, r, canSend);
    assert multiset(given + [r]) == multiset(given) + multiset{r};
    if q'.active == q.active && q'.pending == q.pending {
      assert q'.freed == q.freed + multiset{r} || q'.freed == q.freed + Slot(q.pending);
    } else if q'.active != q.active {
      assert q.active.None? && q.pending.None? && q'.pending.None? && q'.freed == q.freed;
      assert Slot(q.active) == multiset{} && Slot(q'.active) == multiset{r};
    } else {
      assert q'.freed == q.freed + Slot(q.pending) && Slot(q'.pending) == multiset{r};
    }
  }

  lemma SubmitSendsOnce(q: Queue, r: Request, canSend: bool, given: seq<Request>)
    requires Inv(q) && SentOnce(q, given)
    ensures SentOnce(Submit(q, r, canSend), given + [r])
  {
    assert multiset(given + [r]) == multiset(given) + multiset{r};
    var q' := Submit(q, r, canSend);
    if q'.sent != q.sent {
      assert q'.pending.None? && multiset(q'.sent) == multiset(q.sent) + multiset{r};
    } else {
      assert Slot(q'.pending) <= Slot(q.pending) || Slot(q'.pending) == multiset{r};
    }
  }

  lemma CompleteAccounts(q: Queue, canSend: bool, given: seq<Request>)
    requires Inv(q) && Conserved(q, given) && SentOnce(q, given)
    ensures Conserved(Complete(q, canSend), given)
    ensures SentOnce(Complete(q, canSend), given)
  {
    if q.pending.Some? {
      assert multiset(q.sent + [q.pending.value]) == multiset(q.sent) + multiset{q.pending.value};
    }
  }

  lemma StepAccounts(q: Queue, op: Op, given: seq<Request>)
    requires Inv(q) && Conserved(q, given) && SentOnce(q, given)
    ensures Conserved(Apply(q, op), given + Given(op))
    ensures SentOnce(Apply(q, op), given + Given(op))
  {
    if op.OpSubmit? {
      SubmitConserves(q, op.req, op.canSend, given);
      SubmitSendsOnce(q, op.req, op.canSend, given);
    } else {
      assert given + Given(op) == given;
      if op.OpComplete? {
        CompleteAccounts(q, op.canSend, given);
      }
    }
  }

  lemma StepKeepsInv(q: Queue, op: Op)
    requires Inv(q)
    ensures Inv(Apply(q, op))
  {
  }

  /** Over every run from the empty queue: a waiting request implies an active
      one, the loading flag says exactly whether a request is active, the two
      slots never hold duplicates, every request handed in is freed once or
      sits in one slot, and none goes out twice. */
  lemma {:induction false} QueueInvariants(ops: seq<Op>)
    ensures Inv(ApplyAll(EMPTY_QUEUE, ops))
    ensures Conserved(ApplyAll(EMPTY_QUEUE, ops), Submitted(ops))
    ensures SentOnce(ApplyAll(EMPTY_QUEUE, ops), Submitted(ops))
  {
    if ops != [] {
      QueueInvariants(ops[..|ops| - 1]);
      StepKeepsInv(ApplyAll(EMPTY_QUEUE, ops[..|ops| - 1]), ops[|ops| - 1]);
      StepAccounts(ApplyAll(EMPTY_QUEUE, ops[..|ops| - 1]), ops[|ops| - 1], Submitted(ops[..|ops| - 1]));
    }
  }

  /** A waiting request leaves its slot only to go on the wire (or be dropped
      for want of one) after the active request completed, when the whole
      queue is dropped, or for a request of strictly higher priority. */
  lemma PendingDisplacedOnlyByHigher(q: Queue, op: Op)
    requires Inv(q) && q.pending.Some?
    ensures Apply(q, op).pending == q.pending || !op.OpSubmit? ||
            (Apply(q, op).pending == Some(op.req) && op.req.priority > q.pending.value.priority)
    ensures op.OpSubmit? ==> Apply(q, op).active == q.active
  {
  }

  /** What an accepted submission is worth.  An accepted request is in a slot
      afterwards exactly unless the session was idle and nothing could be
      sent: then it was freed although the submission was accepted. */
  lemma AcceptedIsHeldUnlessUnsendable(q: Queue, req: Request, canSend: bool)
    requires Inv(q)
    ensures var q' := Submit(q, req, canSend);
      (Accepts(q, req) ==>
         ((q'.active == Some(req) || q'.pending == Some(req)) <==> (q.active.Some? || canSend)))
    ensures !Accepts(q, req) ==> Submit(q, req, canSend) == q.(freed := q.freed + multiset{req})
  {
  }
}
