/**
 The WORKING / WAITING / EXIT handshake between a dispatcher and one of its threads: a status word, a mutex and a
 condition variable per thread. `P` is what the thread does inside a job.
 */
module Handshake {

  datatype Status = WORKING | WAITING | EXIT

  /** Where the thread is. It holds its own mutex in `Locked` and `Drowse`. */
  datatype Pc<+P> =
    | Poll                // about to load the status
    | Nap                 // saw WAITING for too long, about to take the mutex
    | Locked              // holds the mutex, about to test the status
    | Drowse              // saw WAITING under the mutex, about to wait
    | Asleep              // released the mutex and sleeps
    | In(phase: P)        // inside a job
    | Gone                // returned

  datatype Cell<+P> = Cell(status: Status, pc: Pc<P>)

  /** The dispatcher may take the thread's mutex. */
  predicate LockFree<P>(c: Cell<P>) {
    !c.pc.Locked? && !c.pc.Drowse?
  }

  /** One turn of the polling loop; whether 50 ms have passed is left open. */
  function PollOnce<P>(c: Cell<P>, nap: bool, entry: P): Cell<P>
    requires c.pc.Poll?
  {
    match c.status
    case WORKING => c.(pc := In(entry))
    case WAITING => if nap then c.(pc := Nap) else c
    case EXIT => c.(pc := Gone)
  }

  predicate CanSleepStep<P>(c: Cell<P>) {
    c.pc.Nap? || c.pc.Locked? || c.pc.Drowse?
  }

  /** Take the mutex; test the status; wait, which releases the mutex. */
  function SleepStep<P>(c: Cell<P>): Cell<P>
    requires CanSleepStep(c)
  {
    match c.pc
    case Nap => c.(pc := Locked)
    case Locked => if c.status.WAITING? then c.(pc := Drowse) else c.(pc := Poll)
    case Drowse => c.(pc := Asleep)
  }

  /** Woken by a notification, or spuriously: the mutex is taken again and the status tested again. */
  function WakeUp<P>(c: Cell<P>): Cell<P> {
    if c.pc.Asleep? then c.(pc := Locked) else c
  }

  /** A sleeping thread whose status changed has a notification coming; a job runs only under WORKING. */
  predicate CellOk<P>(c: Cell<P>, notifyComing: bool) {
    && (c.pc.Drowse? ==> c.status.WAITING?)
    && (c.pc.Asleep? && !c.status.WAITING? ==> notifyComing)
    && (c.pc.In? ==> c.status.WORKING?)
    && (c.pc.Gone? ==> c.status.EXIT?)
  }

  /** Steps a thread outside a job still needs before it reacts to a changed status. */
  function Distance<P>(c: Cell<P>): nat {
    match c.pc
    case Asleep => 3
    case Nap => 3
    case Drowse => 4
    case Locked => 2
    case Poll => 1
    case _ => 0
  }

  /** Steps until a thread that holds its mutex has let go of it. */
  function HoldTime<P>(c: Cell<P>): nat {
    match c.pc
    case Locked => 2
    case Drowse => 1
    case _ => 0
  }

  lemma HoldEnds<P>(c: Cell<P>)
    requires !LockFree(c)
    ensures CanSleepStep(c) && HoldTime(SleepStep(c)) < HoldTime(c) <= 2
  {
  }
}
