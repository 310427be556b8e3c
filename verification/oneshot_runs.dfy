/** Sequences of whole `send`/`recv` steps on one oneshot cell, and what they
    deliver: no value is ever received twice, none is lost, and values come
    out in the order they went in. */
module OneshotRuns {
  import opened Results
  import opened Oneshot

  /** A call made on the cell: `send(v)` or `recv()`. */
  datatype Op<T> = SendOp(v: T) | RecvOp

  /** What a call observed: the source's return value, with the value it
      carries when there is one. */
  datatype Event<T> =
    | Sent(v: T)
    | SendRefused(v: T)
    | Received(v: T)
    | RecvFailed(e: RecvError)

  /** The values an event put into the cell. */
  function AcceptedBy<T>(e: Event<T>): seq<T> {
    if e.Sent? then [e.v] else []
  }

  /** The values an event took out of the cell. */
  function DeliveredBy<T>(e: Event<T>): seq<T> {
    if e.Received? then [e.v] else []
  }

  /** All values the events put in, in order. */
  function Accepted<T>(es: seq<Event<T>>): seq<T>
    decreases |es|
  {
    if |es| == 0 then [] else AcceptedBy(es[0]) + Accepted(es[1..])
  }

  /** All values the events took out, in order. */
  function Delivered<T>(es: seq<Event<T>>): seq<T>
    decreases |es|
  {
    if |es| == 0 then [] else DeliveredBy(es[0]) + Delivered(es[1..])
  }

  /** One whole call on the cell. On a valid cell, what was held plus what
      the call put in equals what the call took out plus what is held after. */
  function Step<T>(c: Cell<T>, op: Op<T>): (r: (Event<T>, Cell<T>))
    ensures Valid(c) ==> Valid(r.1)
    ensures Valid(c) ==> Held(c) + AcceptedBy(r.0) == DeliveredBy(r.0) + Held(r.1)
    ensures op.SendOp? ==> r.0 == Sent(op.v) || r.0 == SendRefused(op.v)
    ensures op.RecvOp? ==> r.0.Received? || r.0.RecvFailed?
  {
    match op
    case SendOp(v) =>
      var (res, next) := Send(c, v);
      (if res.Ok? then Sent(v) else SendRefused(res.error), next)
    case RecvOp =>
      var (res, next) := Recv(c);
      (if res.Ok? then Received(res.value) else RecvFailed(res.error), next)
  }

  /** The calls `ops`, one after another, from cell `c`: one event per call
      and the final cell. */
  function Run<T>(c: Cell<T>, ops: seq<Op<T>>): (r: (seq<Event<T>>, Cell<T>))
    ensures |r.0| == |ops|
    ensures Valid(c) ==> Valid(r.1)
    decreases |ops|
  {
    if |ops| == 0 then ([], c)
    else
      var step := Step(c, ops[0]);
      var rest := Run(step.1, ops[1..]);
      ([step.0] + rest.0, rest.1)
  }

  /** Conservation: over any run from a valid cell, what was held plus
      everything sent equals everything received plus what is held at the
      end, in order. */
  lemma {:induction false} RunConserves<T>(c: Cell<T>, ops: seq<Op<T>>)
    requires Valid(c)
    ensures Held(c) + Accepted(Run(c, ops).0) == Delivered(Run(c, ops).0) + Held(Run(c, ops).1)
    decreases |ops|
  {
    if |ops| != 0 {
      var step := Step(c, ops[0]);
      var rest := Run(step.1, ops[1..]);
      SplitFirstEvent(step.0, rest.0);
      RunConserves(step.1, ops[1..]);
      Chain(Held(c), AcceptedBy(step.0), Accepted(rest.0),
            DeliveredBy(step.0), Delivered(rest.0), Held(step.1), Held(rest.1));
    }
  }

  /** `Accepted` and `Delivered` of a run split at its first event. */
  lemma SplitFirstEvent<T>(e: Event<T>, es: seq<Event<T>>)
    ensures Accepted([e] + es) == AcceptedBy(e) + Accepted(es)
    ensures Delivered([e] + es) == DeliveredBy(e) + Delivered(es)
  {
    assert ([e] + es)[1..] == es;
  }

  /** Two balances that share the middle term chain into one. */
  lemma Chain<T>(before: seq<T>, in1: seq<T>, in2: seq<T>, out1: seq<T>, out2: seq<T>, middle: seq<T>, after: seq<T>)
    requires before + in1 == out1 + middle
    requires middle + in2 == out2 + after
    ensures before + (in1 + in2) == (out1 + out2) + after
  {
    calc {
      before + (in1 + in2);
      (before + in1) + in2;
      (out1 + middle) + in2;
      out1 + (middle + in2);
      out1 + (out2 + after);
    }
  }

  /** From a fresh channel, the received values are a prefix of the sent
      values: nothing is received twice or out of order, and at most one
      sent value is not yet received, the one left in the cell. */
  lemma FreshRunDelivers<T>(ops: seq<Op<T>>)
    ensures Delivered(Run(Channel<T>(), ops).0) <= Accepted(Run(Channel<T>(), ops).0)
    ensures Accepted(Run(Channel<T>(), ops).0) ==
              Delivered(Run(Channel<T>(), ops).0) + Held(Run(Channel<T>(), ops).1)
    ensures |Accepted(Run(Channel<T>(), ops).0)| - |Delivered(Run(Channel<T>(), ops).0)|
              == (if Run(Channel<T>(), ops).1.isFilled then 1 else 0)
  {
    var (es, last) := Run(Channel<T>(), ops);
    RunConserves(Channel<T>(), ops);
    assert Accepted(es) == Delivered(es) + Held(last);
    assert Accepted(es)[..|Delivered(es)|] == Delivered(es);
  }

  /** Repeated `recv` on an unfilled cell fails with `NotSentYet` every time
      and never changes the cell. */
  lemma {:induction false} RecvOnUnfilledRepeats<T>(c: Cell<T>, ops: seq<Op<T>>)
    requires !c.isFilled
    requires forall i | 0 <= i < |ops| :: ops[i].RecvOp?
    ensures Run(c, ops).1 == c
    ensures forall i | 0 <= i < |ops| :: Run(c, ops).0[i] == RecvFailed(NotSentYet)
  {
    if |ops| != 0 {
      assert Step(c, ops[0]) == (RecvFailed(NotSentYet), c);
      RecvOnUnfilledRepeats(c, ops[1..]);
    }
  }

  /** Repeated `send` on a filled cell hands every value back unchanged and
      never changes the cell. */
  lemma {:induction false} SendOnFilledRepeats<T>(c: Cell<T>, ops: seq<Op<T>>)
    requires c.isFilled
    requires forall i | 0 <= i < |ops| :: ops[i].SendOp?
    ensures Run(c, ops).1 == c
    ensures forall i | 0 <= i < |ops| :: Run(c, ops).0[i] == SendRefused(ops[i].v)
  {
    if |ops| != 0 {
      assert Step(c, ops[0]) == (SendRefused(ops[0].v), c);
      SendOnFilledRepeats(c, ops[1..]);
      assert forall i | 1 <= i < |ops| :: ops[1..][i - 1] == ops[i];
    }
  }

  /** On a run from a valid cell, no `recv` ever fails with `NoValue`: the
      flag-set-but-slot-empty state is never reached by whole steps. */
  lemma {:induction false} RecvNeverNoValue<T>(c: Cell<T>, ops: seq<Op<T>>)
    requires Valid(c)
    ensures forall i | 0 <= i < |Run(c, ops).0| :: Run(c, ops).0[i] != RecvFailed(NoValue)
    decreases |ops|
  {
    if |ops| != 0 {
      var step := Step(c, ops[0]);
      RecvNeverNoValue(step.1, ops[1..]);
    }
  }

  /** Send 42, receive it, fail a second receive with `NotSentYet`, then send
      7 successfully because the first receive reset the flag. */
  lemma SendRecvRecvSend()
    ensures Run(Channel<int>(), [SendOp(42), RecvOp, RecvOp, SendOp(7)]).0 ==
              [Sent(42), Received(42), RecvFailed(NotSentYet), Sent(7)]
    ensures Run(Channel<int>(), [SendOp(42), RecvOp, RecvOp, SendOp(7)]).1 == Cell(true, Some(7))
  {
  }
}
