/** A single-slot handoff cell shared by one sender and one receiver. Each
    `send` and each `recv` is one indivisible step: the compare-and-swap on
    the flag and the store into (or the swap out of) the slot happen
    together. The sender and receiver handles, the reference count and the
    atomics all become the plain cell state below. */
module Oneshot {
  import opened Results

  /** The shared cell: the `is_filled` flag and the optional stored value. */
  datatype Cell<T> = Cell(isFilled: bool, data: Option<T>)

  datatype Option<T> = None | Some(value: T)

  /** Why `recv` failed. `NoValue` is the flag-set-but-slot-empty branch, which
      no sequence of whole steps reaches (see `OneshotRuns.RecvNeverNoValue`). */
  datatype RecvError = NotSentYet | NoValue {
    function Message(): string {
      match this
      case NotSentYet => "Sender has not sent a value yet"
      case NoValue => "No value"
    }
  }

  /** The flag is set exactly when the slot holds a value. */
  predicate Valid<T>(c: Cell<T>) {
    c.isFilled <==> c.data.Some?
  }

  /** The values the cell currently holds, oldest first: none or one. */
  function Held<T>(c: Cell<T>): seq<T> {
    match c.data
    case None => []
    case Some(v) => [v]
  }

  /** `Oneshot::channel`: a fresh cell, unfilled and empty. */
  function Channel<T>(): (c: Cell<T>)
    ensures !c.isFilled && c.data.None?
    ensures Valid(c) && Held(c) == []
  {
    Cell(false, None)
  }

  /** `Sender::send`: an unfilled cell becomes filled with exactly `v`; on a
      filled cell the value is handed back and the cell is untouched. */
  function Send<T>(c: Cell<T>, v: T): (r: (Result<(), T>, Cell<T>))
    ensures !c.isFilled ==> r.0.Ok? && r.1.isFilled && r.1.data == Some(v)
    ensures c.isFilled ==> r.0 == Err(v) && r.1 == c
    ensures Valid(c) ==> Valid(r.1)
  {
    if !c.isFilled then (Ok(()), Cell(true, Some(v)))
    else (Err(v), c)
  }

  /** `Receiver::recv`: a filled cell is emptied and its value returned; an
      unfilled cell fails with `NotSentYet` and is untouched. */
  function Recv<T>(c: Cell<T>): (r: (Result<T, RecvError>, Cell<T>))
    ensures !c.isFilled ==> r.0 == Err(NotSentYet) && r.1 == c
    ensures c.isFilled ==> !r.1.isFilled && r.1.data.None?
    ensures c.isFilled && c.data.Some? ==> r.0 == Ok(c.data.value)
    ensures c.isFilled && c.data.None? ==> r.0 == Err(NoValue)
    ensures Valid(c) ==> Valid(r.1)
    ensures Valid(c) ==> r.0 != Err(NoValue)
  {
    if c.isFilled then
      match c.data
      case Some(v) => (Ok(v), Cell(false, None))
      case None => (Err(NoValue), Cell(false, None))
    else (Err(NotSentYet), c)
  }

  /** On a valid cell, `recv` succeeds exactly when `send` would fail. */
  lemma RecvSucceedsIffSendRefused<T>(c: Cell<T>, v: T)
    requires Valid(c)
    ensures Recv(c).0.Ok? <==> Send(c, v).0.Err?
  {
  }

  /** Round trip: a value sent into a fresh channel is received unchanged,
      and the cell is left unfilled and empty, like a fresh one. */
  lemma SendThenRecv<T>(v: T)
    ensures Send(Channel<T>(), v).0.Ok?
    ensures Recv(Send(Channel<T>(), v).1).0 == Ok(v)
    ensures Recv(Send(Channel<T>(), v).1).1 == Channel<T>()
  {
  }

  /** Round trip on any unfilled cell, whatever its slot holds: `send`
      overwrites the slot, so `recv` returns exactly the value sent. */
  lemma SendRecvRoundTrip<T>(c: Cell<T>, v: T)
    requires !c.isFilled
    ensures Recv(Send(c, v).1) == (Ok(v), Channel<T>())
  {
  }

  /** A second `send` before any `recv` is refused with its own value, and
      the first value stays in the cell. */
  lemma SecondSendRefused<T>(v: T, w: T)
    ensures Send(Send(Channel<T>(), v).1, w).0 == Err(w)
    ensures Send(Send(Channel<T>(), v).1, w).1.data == Some(v)
  {
  }

  /** After a successful `recv` a second `recv` fails with `NotSentYet`, and
      since the flag was reset a later `send` succeeds again: the cell does
      not enforce a single send over its lifetime. */
  lemma RecvResetsFlag<T>(c: Cell<T>, w: T)
    requires Valid(c) && Recv(c).0.Ok?
    ensures Recv(Recv(c).1).0 == Err(NotSentYet)
    ensures Send(Recv(c).1, w).0.Ok?
  {
  }
}
