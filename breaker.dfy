/** The asynchronous breaker: a two-valued availability flag changed only by
    compare-and-swap, a one-shot shutdown signal, and a background probe loop
    that is started exactly when the flag goes from closed to open. */
module Breaker {
  import opened Outcomes

  newtype uint32 = x: int | 0 <= x < 0x1_0000_0000

  /** time.Duration, in nanoseconds. */
  type Duration = int

  /** The availability flag. In the source `open` is 0 and `closed` is 1. */
  datatype Flag = Open | Closed

  /** gobreaker.Counts: the statistics of the rolling window. */
  datatype Counts = Counts(
    requests: uint32,
    totalSuccesses: uint32,
    totalFailures: uint32,
    consecutiveSuccesses: uint32,
    consecutiveFailures: uint32)

  /** The states of gobreaker's own machine, as reported to OnStateChange. */
  datatype CbState = StateClosed | StateHalfOpen | StateOpen

  /** What gobreaker decides before running a request: run it, or refuse it
      with an error of its own without running it. */
  datatype Gate = Admit | Reject(err: Error)

  /** One wake-up of the probe loop's `select`: a ticker tick on which the
      probe reports healthy or not, or a receive on the done channel. */
  datatype Wakeup = Tick(healthy: bool) | DoneRecv

  /** How a run of the probe loop ended. `StillProbing`: the wake-ups ran
      out and the loop is still waiting in its `select`. */
  datatype LoopExit = Recovered | ShutDown | StillProbing

  /** The breaker's settings (the probe function is not kept: each probe's
      verdict arrives as a `Tick`). */
  datatype Settings = Settings(
    name: string,
    maxRequests: uint32,
    interval: Duration,
    timeout: Duration,
    probeInterval: Duration,
    readyToTrip: Counts -> bool)

  /** The capacity of the done channel. */
  const DoneCapacity: nat := 1

  /** The index of the first wake-up that ends the probe loop: the first that
      is not a failing tick; `|w|` when every wake-up is a failing tick. */
  function FirstExit(w: seq<Wakeup>): (k: nat)
    ensures k <= |w|
    ensures forall i :: 0 <= i < k ==> w[i] == Tick(false)
    ensures k < |w| ==> w[k] != Tick(false)
  {
    if w == [] || w[0] != Tick(false) then 0 else 1 + FirstExit(w[1..])
  }

  /** `n` failing ticks followed by `last`. */
  function FailuresThen(n: nat, last: Wakeup): (w: seq<Wakeup>)
    ensures |w| == n + 1 && w[n] == last
    ensures forall i :: 0 <= i < n ==> w[i] == Tick(false)
  {
    if n == 0 then [last] else [Tick(false)] + FailuresThen(n - 1, last)
  }

  /** After `n` failing probes, a healthy probe or a done signal ends the
      loop at exactly wake-up `n`: not before, and not later. */
  lemma FirstExitAfterFailures(n: nat, last: Wakeup)
    requires last != Tick(false)
    ensures FirstExit(FailuresThen(n, last)) == n
  {
  }

  class AsyncBreaker {
    /** The availability flag; only CompareAndSwap writes it. */
    var state: Flag
    /** sync.Once: whether Close's body has run. */
    var onceDone: bool
    /** The done channel: values waiting in its buffer, and whether it is closed. */
    var doneBuffered: nat
    var doneClosed: bool
    const settings: Settings

    /** How many times Close's body has run. */
    ghost var closeBodyRuns: nat
    /** How many probe loops are alive. */
    ghost var liveProbeLoops: nat

    ghost predicate Valid()
      reads this
    {
      // at most one probe loop, and only while the flag is open
      liveProbeLoops <= 1 &&
      (liveProbeLoops == 1 ==> state == Open) &&
      // until shutdown, an open flag always has a loop that will close it again
      (state == Open && !doneClosed ==> liveProbeLoops == 1) &&
      // the done channel is filled and closed by Close's body only, and at most once
      doneClosed == onceDone &&
      doneBuffered <= DoneCapacity &&
      (doneBuffered > 0 ==> doneClosed) &&
      closeBodyRuns == (if onceDone then 1 else 0)
    }

    /** newAsyncBreaker: the flag starts closed, nothing is signalled and no
        loop runs. */
    constructor (s: Settings)
      ensures Valid()
      ensures state == Closed && !onceDone && !doneClosed && doneBuffered == 0
      ensures liveProbeLoops == 0 && closeBodyRuns == 0
      ensures settings == s
    {
      state := Closed;
      onceDone := false;
      doneBuffered := 0;
      doneClosed := false;
      settings := s;
      closeBodyRuns := 0;
      liveProbeLoops := 0;
    }

    /** atomic.CompareAndSwapUint32 on the flag. */
    method CompareAndSwap(expected: Flag, desired: Flag) returns (swapped: bool)
      modifies this`state
      ensures swapped <==> old(state) == expected
      ensures state == if swapped then desired else old(state)
    {
      swapped := state == expected;
      if swapped {
        state := desired;
      }
    }

    /** `b.done <- struct{}{}`: blocks when the buffer is full, panics when
        the channel is closed. */
    method SendDone()
      requires doneBuffered < DoneCapacity && !doneClosed
      modifies this`doneBuffered
      ensures doneBuffered == old(doneBuffered) + 1
    {
      doneBuffered := doneBuffered + 1;
    }

    /** `close(b.done)`: panics when the channel is already closed. */
    method CloseDone()
      requires !doneClosed
      modifies this`doneClosed
      ensures doneClosed
    {
      doneClosed := true;
    }

    /** Close: run-once shutdown. Its body runs only on the first call, so
        the send never blocks and the channel is never closed twice. */
    method Close()
      requires Valid()
      modifies this
      ensures Valid()
      ensures onceDone && doneClosed && closeBodyRuns == 1
      ensures state == old(state) && liveProbeLoops == old(liveProbeLoops)
      ensures old(onceDone) ==> doneBuffered == old(doneBuffered)
      ensures !old(onceDone) ==> doneBuffered == 1
    {
      if !onceDone {
        onceDone := true;
        SendDone();
        CloseDone();
        closeBodyRuns := closeBodyRuns + 1;
      }
    }

    /** openWith: the closed-to-open transition; a probe loop is started
        exactly when this call wins it. */
    method OpenWith() returns (success: bool)
      requires Valid()
      modifies this
      ensures Valid()
      ensures success <==> old(state) == Closed
      ensures state == Open
      ensures liveProbeLoops == old(liveProbeLoops) + (if success then 1 else 0)
      ensures !success ==> liveProbeLoops == old(liveProbeLoops)
      ensures onceDone == old(onceDone) && doneClosed == old(doneClosed)
      ensures doneBuffered == old(doneBuffered) && closeBodyRuns == old(closeBodyRuns)
    {
      success := CompareAndSwap(Closed, Open);
      if success {
        // go b.probeLoop(probe)
        liveProbeLoops := liveProbeLoops + 1;
      }
    }

    /** The OnStateChange hook given to gobreaker: only its closed-to-open
        transition calls openWith. */
    method OnStateChange(from: CbState, to: CbState)
      requires Valid()
      modifies this
      ensures Valid()
      ensures from == StateClosed && to == StateOpen ==>
        state == Open &&
        liveProbeLoops == old(liveProbeLoops) + (if old(state) == Closed then 1 else 0)
      ensures !(from == StateClosed && to == StateOpen) ==>
        state == old(state) && liveProbeLoops == old(liveProbeLoops)
      ensures onceDone == old(onceDone) && doneClosed == old(doneClosed)
      ensures doneBuffered == old(doneBuffered) && closeBodyRuns == old(closeBodyRuns)
    {
      if from == StateClosed && to == StateOpen {
        var _ := OpenWith();
      }
    }

    /** probeLoop, run over the wake-ups its `select` receives, in order. A
        failing probe changes nothing; the first healthy probe closes the
        flag and ends the loop; a done signal ends it without probing. The
        done case can only be chosen once the done channel is closed. */
    method ProbeLoop(wakeups: seq<Wakeup>) returns (handled: nat, exit: LoopExit)
      requires Valid() && liveProbeLoops == 1
      requires DoneRecv in wakeups ==> doneClosed
      modifies this
      ensures Valid()
      ensures var k := FirstExit(wakeups);
        handled == (if k < |wakeups| then k + 1 else |wakeups|) &&
        exit == (if k == |wakeups| then StillProbing
                 else if wakeups[k] == DoneRecv then ShutDown
                 else Recovered)
      ensures exit == Recovered ==> state == Closed && liveProbeLoops == 0
      ensures exit == ShutDown ==> state == Open && liveProbeLoops == 0
      ensures exit == StillProbing ==> state == Open && liveProbeLoops == 1
      ensures onceDone == old(onceDone) && doneClosed == old(doneClosed)
      ensures closeBodyRuns == old(closeBodyRuns)
    {
      handled, exit := 0, StillProbing;
      while exit == StillProbing && handled < |wakeups|
        invariant Valid()
        invariant handled <= |wakeups|
        invariant exit == StillProbing ==> handled <= FirstExit(wakeups)
        invariant exit != StillProbing ==> handled == FirstExit(wakeups) + 1
        invariant exit == StillProbing ==> state == Open && liveProbeLoops == 1
        invariant exit == Recovered ==> state == Closed && liveProbeLoops == 0 && wakeups[handled - 1] == Tick(true)
        invariant exit == ShutDown ==> state == Open && liveProbeLoops == 0 && wakeups[handled - 1] == DoneRecv
        invariant onceDone == old(onceDone) && doneClosed == old(doneClosed)
        invariant closeBodyRuns == old(closeBodyRuns)
        decreases |wakeups| - handled, if exit == StillProbing then 1 else 0
      {
        var w := wakeups[handled];
        handled := handled + 1;
        match w
        case Tick(healthy) =>
          if healthy {
            var swapped := CompareAndSwap(Open, Closed);
            assert swapped;  // only the live loop ever leaves Open
            liveProbeLoops := 0;
            exit := Recovered;
          }
        case DoneRecv =>
          assert doneClosed;
          if doneBuffered > 0 {
            doneBuffered := doneBuffered - 1;
          }
          liveProbeLoops := 0;
          exit := ShutDown;
      }
    }

    /** Execute: gobreaker's verdict comes first; an admitted request fails
        with ErrUnavailable while the flag is open, and otherwise runs `f`. */
    function Execute<T>(gate: Gate, f: () -> Outcome<T>): (r: Outcome<T>)
      reads this
      ensures gate.Reject? ==> r == Err(gate.err)
      ensures gate.Admit? && state == Open ==> r == Err(ErrUnavailable)
      ensures gate.Admit? && state == Closed ==> r == f()
    {
      match gate
      case Reject(err) => Err(err)
      case Admit => if state == Open then Err(ErrUnavailable) else f()
    }
  }

  /** While the flag is open, Execute does not depend on `f` at all: `f` is
      never invoked. */
  lemma ExecuteIgnoresWhileOpen<T>(b: AsyncBreaker, gate: Gate, f: () -> Outcome<T>, g: () -> Outcome<T>)
    requires b.state == Open
    ensures b.Execute(gate, f) == b.Execute(gate, g)
    ensures b.Execute(gate, f).Err?
  {
  }

  /** Closing a fresh breaker twice runs the shutdown body once; a probe loop
      started after that can be ended by the done signal, leaving the flag
      open. */
  method RepeatCloseScenario(s: Settings)
  {
    var b := new AsyncBreaker(s);
    b.Close();
    b.Close();
    assert b.closeBodyRuns == 1;
    var won := b.OpenWith();
    assert won;
    var again := b.OpenWith();
    assert !again && b.liveProbeLoops == 1;
    var handled, exit := b.ProbeLoop([Tick(false), DoneRecv, Tick(true)]);
    assert FirstExit([Tick(false), DoneRecv, Tick(true)]) == 1;
    assert exit == ShutDown && handled == 2 && b.state == Open;
  }
}
