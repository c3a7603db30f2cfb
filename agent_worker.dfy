/** The agent's reporting side, run sequentially: the counter collector, the
    flusher that buffers polled metrics and hands them to the job queue, and
    the wait for cancellation or a worker error. The goroutines, channels and
    tickers are replaced by a trace of the events the flusher's select sees. */
module AgentWorker {
  import opened MetricTypes

  /** collectRuntimeCounterMetrics: one counter, PollCount, incremented by 1. */
  function CollectRuntimeCounterMetrics(): (ms: seq<Metric>)
    ensures |ms| == 1
    ensures ms[0].id == "PollCount" && ms[0].mtype == Counter
    ensures ms[0].delta == Some(1) && ms[0].value.None?
  {
    [Metric("PollCount", Counter, Some(1), None, "")]
  }

  // ---------------------------------------------------------------------
  // The flusher

  /** What the flusher's select receives: a polled metric, a report tick, the
      input channel closing, or the context being cancelled. */
  datatype Event = MetricReceived(metric: Metric) | Tick | InputClosed | Cancelled

  predicate IsStop(e: Event)
  {
    e.InputClosed? || e.Cancelled?
  }

  /** The flusher's state: the metrics sent to the job queue so far, in order,
      the buffer, and whether it has returned (and closed the job queue). */
  datatype FlusherState = FlusherState(jobs: seq<Metric>, buffer: seq<Metric>, done: bool)

  /** The flush closure: the buffer goes to the job queue in order and is emptied. */
  function FlushState(s: FlusherState): FlusherState
  {
    FlusherState(s.jobs + s.buffer, [], s.done)
  }

  /** One turn of the select loop. After returning, nothing more happens. */
  function Step(s: FlusherState, e: Event): FlusherState
  {
    if s.done then s
    else match e
      case MetricReceived(m) => s.(buffer := s.buffer + [m])
      case Tick => FlushState(s)
      case InputClosed => FlushState(s).(done := true)
      case Cancelled => FlushState(s).(done := true)
  }

  /** The flusher's state after a trace of events. */
  function RunTrace(s: FlusherState, events: seq<Event>): FlusherState
    decreases |events|
  {
    if events == [] then s else RunTrace(Step(s, events[0]), events[1..])
  }

  /** The events the flusher acts on: those before the first stop, and that stop. */
  function UpToStop(events: seq<Event>): (r: seq<Event>)
    ensures |r| <= |events| && r == events[..|r|]
    ensures forall i :: 0 <= i < |r| - 1 ==> !IsStop(r[i])
    ensures |r| < |events| ==> r != [] && IsStop(r[|r| - 1])
    ensures (exists i :: 0 <= i < |events| && IsStop(events[i])) <==> r != [] && IsStop(r[|r| - 1])
    decreases |events|
  {
    if events == [] then []
    else if IsStop(events[0]) then [events[0]]
    else [events[0]] + UpToStop(events[1..])
  }

  /** The metrics received along a trace, in order. */
  function Received(events: seq<Event>): seq<Metric>
    decreases |events|
  {
    if events == [] then []
    else (if events[0].MetricReceived? then [events[0].metric] else []) + Received(events[1..])
  }

  /** Nothing is lost, nothing duplicated, order is kept: what went to the job
      queue followed by what is still buffered is what was there before,
      followed by every metric received before the stop. */
  lemma {:induction false} RunConserves(s: FlusherState, events: seq<Event>)
    requires !s.done
    ensures var t := RunTrace(s, events);
      t.jobs + t.buffer == s.jobs + s.buffer + Received(UpToStop(events))
    decreases |events|
  {
    if events != [] {
      var e := events[0];
      var s' := Step(s, e);
      if IsStop(e) {
        RunAfterDone(s', events[1..]);
        assert UpToStop(events) == [e];
        assert Received([e]) == [];
      } else {
        RunConserves(s', events[1..]);
        assert UpToStop(events) == [e] + UpToStop(events[1..]);
        assert Received(UpToStop(events)) == (if e.MetricReceived? then [e.metric] else []) + Received(UpToStop(events[1..]));
      }
    }
  }

  /** Once the flusher has returned, further events change nothing. */
  lemma {:induction false} RunAfterDone(s: FlusherState, events: seq<Event>)
    requires s.done
    ensures RunTrace(s, events) == s
    decreases |events|
  {
    if events != [] {
      RunAfterDone(s, events[1..]);
    }
  }

  /** The flusher returns exactly when the trace holds a stop; it then has
      made its one final flush, so the buffer is empty. */
  lemma {:induction false} RunStops(s: FlusherState, events: seq<Event>)
    requires !s.done
    ensures RunTrace(s, events).done <==> exists i :: 0 <= i < |events| && IsStop(events[i])
    ensures RunTrace(s, events).done ==> RunTrace(s, events).buffer == []
    decreases |events|
  {
    if events != [] {
      var s' := Step(s, events[0]);
      if IsStop(events[0]) {
        RunAfterDone(s', events[1..]);
      } else {
        RunStops(s', events[1..]);
        if exists i :: 0 <= i < |events[1..]| && IsStop(events[1..][i]) {
          var i :| 0 <= i < |events[1..]| && IsStop(events[1..][i]);
          assert IsStop(events[i + 1]);
        }
        if exists i :: 0 <= i < |events| && IsStop(events[i]) {
          var i :| 0 <= i < |events| && IsStop(events[i]);
          assert IsStop(events[1..][i - 1]);
        }
      }
    }
  }

  /** Over a trace that ends the flusher, starting fresh, the job queue receives
      exactly the metrics received before the stop, in order, each once. */
  lemma StoppedTraceEmitsEverything(events: seq<Event>)
    requires exists i :: 0 <= i < |events| && IsStop(events[i])
    ensures var t := RunTrace(FlusherState([], [], false), events);
      t.done && t.buffer == [] && t.jobs == Received(UpToStop(events))
  {
    var s := FlusherState([], [], false);
    var t := RunTrace(s, events);
    RunStops(s, events);
    RunConserves(s, events);
    assert t.jobs + t.buffer == Received(UpToStop(events));
    assert t.buffer == [];
    assert t.jobs + [] == t.jobs;
  }

  /** The last tick of a trace that does not stop leaves the buffer holding
      only what was received after it: a tick flushes everything and
      accumulation then continues. */
  lemma TickFlushesAndContinues(s: FlusherState, before: seq<Event>, after: seq<Event>)
    requires !s.done
    requires forall i :: 0 <= i < |before| ==> !IsStop(before[i])
    requires forall i :: 0 <= i < |after| ==> after[i].MetricReceived?
    ensures var t := RunTrace(s, before + [Tick] + after);
      !t.done && t.buffer == Received(after)
  {
    var mid := RunTrace(s, before + [Tick]);
    NoStopRun(s, before);
    RunAppend(s, before, [Tick]);
    RunAppend(s, before + [Tick], after);
    ReceiveAll(FlushState(RunTrace(s, before)), after);
  }

  lemma {:induction false} NoStopRun(s: FlusherState, events: seq<Event>)
    requires !s.done
    requires forall i :: 0 <= i < |events| ==> !IsStop(events[i])
    ensures !RunTrace(s, events).done
    decreases |events|
  {
    if events != [] {
      NoStopRun(Step(s, events[0]), events[1..]);
    }
  }

  lemma {:induction false} RunAppend(s: FlusherState, a: seq<Event>, b: seq<Event>)
    ensures RunTrace(s, a + b) == RunTrace(RunTrace(s, a), b)
    decreases |a|
  {
    if a == [] {
      assert a + b == b;
    } else {
      assert (a + b)[1..] == a[1..] + b;
      RunAppend(Step(s, a[0]), a[1..], b);
    }
  }

  /** Receiving only metrics appends them to the buffer, with no merging. */
  lemma {:induction false} ReceiveAll(s: FlusherState, events: seq<Event>)
    requires !s.done
    requires forall i :: 0 <= i < |events| ==> events[i].MetricReceived?
    ensures RunTrace(s, events) == s.(buffer := s.buffer + Received(events))
    decreases |events|
  {
    if events != [] {
      ReceiveAll(Step(s, events[0]), events[1..]);
    }
  }

  /** The flusher goroutine of reportMetrics, run over a trace of select outcomes. */
  class Flusher {
    var buffer: seq<Metric>
    var jobs: seq<Metric>
    var jobsClosed: bool

    function State(): FlusherState
      reads this
    {
      FlusherState(jobs, buffer, jobsClosed)
    }

    constructor ()
      ensures buffer == [] && jobs == [] && !jobsClosed
    {
      buffer, jobs, jobsClosed := [], [], false;
    }

    /** flush: sends every buffered metric to the job queue in buffer order,
        then empties the buffer; with an empty buffer it sends nothing. */
    method Flush()
      modifies this
      ensures jobs == old(jobs) + old(buffer)
      ensures buffer == []
      ensures old(buffer) == [] ==> jobs == old(jobs)
      ensures jobsClosed == old(jobsClosed)
    {
      if |buffer| == 0 {
        return;
      }
      var i := 0;
      while i < |buffer|
        invariant 0 <= i <= |buffer|
        invariant jobs == old(jobs) + buffer[..i]
        invariant buffer == old(buffer)
        invariant jobsClosed == old(jobsClosed)
      {
        jobs := jobs + [buffer[i]];
        i := i + 1;
      }
      buffer := [];
    }

    /** One turn of the select loop: a received metric is appended to the
        buffer, a tick flushes, a close or a cancellation flushes one last
        time and closes the job queue. */
    method Handle(e: Event)
      requires !jobsClosed
      modifies this
      ensures State() == Step(old(State()), e)
    {
      match e {
        case MetricReceived(m) =>
          buffer := buffer + [m];
        case Tick =>
          Flush();
        case InputClosed =>
          Flush();
          jobsClosed := true;
        case Cancelled =>
          Flush();
          jobsClosed := true;
      }
    }

    /** The select loop, over a trace of what it receives, until it returns.
        `consumed` counts the events taken. */
    method Run(events: seq<Event>) returns (consumed: nat)
      requires !jobsClosed
      modifies this
      ensures State() == RunTrace(old(State()), events)
      ensures consumed == |UpToStop(events)|
    {
      consumed := 0;
      while consumed < |events| && !jobsClosed
        invariant 0 <= consumed <= |events|
        invariant RunTrace(old(State()), events) == RunTrace(State(), events[consumed..])
        invariant |UpToStop(events)| == consumed + (if jobsClosed then 0 else |UpToStop(events[consumed..])|)
        decreases |events| - consumed
      {
        var e := events[consumed];
        UpToStopStep(events[consumed..]);
        assert events[consumed..][1..] == events[consumed + 1..];
        Handle(e);
        consumed := consumed + 1;
      }
      if jobsClosed {
        RunAfterDone(State(), events[consumed..]);
      }
    }
  }

  lemma UpToStopStep(events: seq<Event>)
    requires events != []
    ensures |UpToStop(events)| == 1 + (if IsStop(events[0]) then 0 else |UpToStop(events[1..])|)
  {
  }

  // ---------------------------------------------------------------------
  // waitForContextOrError

  /** What waitForContextOrError's select receives: the context ending, an
      error value (possibly nil) from the workers, or the error channel closing. */
  datatype WaitEvent = ContextDone | ErrReceived(err: Option<Error>) | ErrChannelClosed

  predicate EndsWait(e: WaitEvent)
  {
    e.ContextDone? || e.ErrChannelClosed? || (e.ErrReceived? && e.err.Some?)
  }

  /** waitForContextOrError: skips nil errors and returns at the first of
      context done, channel closed, or a non-nil error (which it only logs).
      It returns nil on every path. `returned` is false when the trace ends
      while it is still waiting; `consumed` counts the events taken. */
  method WaitForContextOrError(events: seq<WaitEvent>) returns (result: Option<Error>, returned: bool, consumed: nat)
    ensures result == None
    ensures consumed <= |events|
    ensures forall i :: 0 <= i < consumed - (if returned then 1 else 0) ==> events[i] == ErrReceived(None)
    ensures returned ==> consumed > 0 && EndsWait(events[consumed - 1])
    ensures !returned ==> consumed == |events|
    ensures returned <==> exists i :: 0 <= i < |events| && EndsWait(events[i])
  {
    consumed := 0;
    while consumed < |events|
      invariant 0 <= consumed <= |events|
      invariant forall i :: 0 <= i < consumed ==> events[i] == ErrReceived(None)
    {
      var e := events[consumed];
      consumed := consumed + 1;
      match e {
        case ContextDone =>
          return None, true, consumed;
        case ErrChannelClosed =>
          return None, true, consumed;
        case ErrReceived(err) =>
          if err.Some? {
            return None, true, consumed;
          }
      }
    }
    return None, false, consumed;
  }
}
