/** What `roundRobinScheduler` (rr.js:99-191) guarantees about the output
    it fills in, stated over `Simulate` and proved from the invariants
    every loop pass keeps. */
module Properties {
  import opened Timeline
  import opened RoundRobin
  import opened Invariants

  /** Everything the loop keeps true, at the top of each pass. */
  predicate PInv(input: Input, s: Sim)
  {
    && Inv(input, s) && SchedInv(input, s) && ProcInv(input, s) && ShapeInv(input, s) && LogInv(input, s)
  }

  lemma InitPInv(input: Input)
    requires ValidInput(input)
    ensures PInv(input, Init(input))
  {
    InitInv(input);
    var s := Init(input);
    forall j: nat | j < |input.processId|
      ensures ProcOkAt(input, s.schedule, s.remaining, s.started, s.response, s.completion, s.currentTime, j)
    {
    }
    assert s.timeLog[..0] == [];
    assert SchedInv(input, s);
    assert ShapeInv(input, s);
    assert ProcInv(input, s);
    assert forall j :: 0 <= j < |input.processId| ==> Terminations(s.timeLog, j) == 0;
    assert LogInv(input, s);
  }

  /** One pass of the loop keeps every invariant. */
  lemma PassKeeps(input: Input, s: Sim)
    requires PInv(input, s)
    ensures PInv(input, Scan(input, s))
    ensures |Scan(input, s).queue| == 0 && AnyRemaining(Scan(input, s).remaining) ==> PInv(input, IdleTick(Scan(input, s)))
    ensures |Scan(input, s).queue| > 0 ==> PInv(input, Dispatch(input, Scan(input, s)))
  {
    LoopPass(input, s);
    ScanKeepsInv(input, s);
    SchedScan(input, s);
    ProcScan(input, s);
    ShapeScan(input, s);
    LogScan(input, s);
    var s1 := Scan(input, s);
    if |s1.queue| == 0 && AnyRemaining(s1.remaining) {
      SchedIdle(input, s1);
      ProcIdle(input, s1);
      ShapeIdle(input, s1);
      LogIdle(input, s1);
    } else if |s1.queue| > 0 {
      SchedDispatch(input, s1);
      ProcDispatch(input, s1);
      ShapeDispatch(input, s1);
      LogDispatch(input, s1);
    }
  }

  /** The invariants hold when the loop breaks. */
  lemma {:induction false} RunKeeps(input: Input, s: Sim)
    requires PInv(input, s)
    ensures PInv(input, Run(input, s))
    decreases Sum(s.remaining), MaxOf(input.arrivalTime) - s.currentTime
  {
    LoopPass(input, s);
    PassKeeps(input, s);
    var s1 := Scan(input, s);
    if |s1.queue| == 0 {
      if AnyRemaining(s1.remaining) {
        RunKeeps(input, IdleTick(s1));
      }
    } else {
      RunKeeps(input, Dispatch(input, s1));
    }
  }

  /** The state at the `break` of rr.js:135. */
  function Final(input: Input): (f: Sim)
    requires ValidInput(input)
    ensures Inv(input, f) && f.queue == []
    ensures forall j :: 0 <= j < |input.processId| ==> f.remaining[j] == 0
    ensures Simulate(input).schedule == f.schedule && Simulate(input).completionTime == f.completion
    ensures Simulate(input).responseTime == f.response && Simulate(input).timeLog == f.timeLog
    ensures Simulate(input).contextSwitches == f.contextSwitches
  {
    InitInv(input);
    Run(input, Init(input))
  }

  lemma FinalPInv(input: Input)
    requires ValidInput(input)
    ensures PInv(input, Final(input))
  {
    InitPInv(input);
    RunKeeps(input, Init(input));
  }

  lemma FinalSched(input: Input)
    requires ValidInput(input)
    ensures SchedInv(input, Final(input))
  {
    FinalPInv(input);
  }

  lemma FinalClock(input: Input)
    requires ValidInput(input)
    ensures Duration(Final(input).schedule) == Final(input).currentTime
  {
    FinalSched(input);
  }

  lemma FinalProc(input: Input)
    requires ValidInput(input)
    ensures ProcInv(input, Final(input))
  {
    FinalPInv(input);
  }

  lemma FinalShape(input: Input)
    requires ValidInput(input)
    ensures ShapeInv(input, Final(input))
  {
    FinalPInv(input);
  }

  lemma FinalLog(input: Input)
    requires ValidInput(input)
    ensures LogInv(input, Final(input))
  {
    FinalPInv(input);
  }

  lemma {:induction false} SumOfZeros(s: seq<int>)
    requires forall j :: 0 <= j < |s| ==> s[j] == 0
    ensures Sum(s) == 0
  {
    if s != [] {
      SumOfZeros(s[..|s| - 1]);
    }
  }

  /** Conservation of burst time (rr.js:149-150): each process is served
      exactly its burst, and the slices together serve the sum of all
      bursts. */
  lemma ServesBursts(input: Input)
    requires ValidInput(input)
    ensures forall j :: 0 <= j < |input.processId| ==> TimeOf(Simulate(input).schedule, Proc(j)) == input.burstTime[j]
    ensures BusyTime(Simulate(input).schedule) == Sum(input.burstTime)
  {
    var f := Final(input);
    FinalSched(input);
    SumOfZeros(f.remaining);
  }

  /** Every entry has the shape rr.js gives it and every slice is the
      smaller of the quantum and the time its process still had left
      (rr.js:131, 140, 149, 170). */
  lemma EntriesWellFormed(input: Input)
    requires ValidInput(input)
    ensures forall k :: 0 <= k < |Simulate(input).schedule| ==>
      EntryOk(input, Simulate(input).schedule[k]) && SliceOk(input, Simulate(input).schedule, k)
  {
    var f := Final(input);
    FinalSched(input);
  }

  /** Completion time (rr.js:165) is the end of the process's last slice. */
  lemma CompletionIsLastSliceEnd(input: Input)
    requires ValidInput(input)
    ensures var o := Simulate(input);
      forall j :: 0 <= j < |input.processId| ==>
        && LastIndex(o.schedule, Proc(j)) >= 0
        && o.completionTime[j] == Start(o.schedule, LastIndex(o.schedule, Proc(j)) + 1)
        && o.completionTime[j] <= Duration(o.schedule)
  {
    var f := Final(input);
    FinalClock(input);
    FinalProc(input);
    forall j: nat | j < |input.processId|
      ensures LastIndex(f.schedule, Proc(j)) >= 0
      ensures f.completion[j] == Start(f.schedule, LastIndex(f.schedule, Proc(j)) + 1) <= f.currentTime
    {
      assert ProcOkAt(input, f.schedule, f.remaining, f.started, f.response, f.completion, f.currentTime, j);
    }
  }

  /** Response time (rr.js:143-146) is recorded once, from the start of
      the first slice, and is never negative. */
  lemma ResponseIsFirstSliceStart(input: Input)
    requires ValidInput(input)
    ensures var o := Simulate(input);
      forall j :: 0 <= j < |input.processId| ==>
        && FirstIndex(o.schedule, Proc(j)) < |o.schedule|
        && o.responseTime[j] == Start(o.schedule, FirstIndex(o.schedule, Proc(j))) - input.arrivalTime[j]
        && o.responseTime[j] >= 0
  {
    var f := Final(input);
    FinalProc(input);
    forall j: nat | j < |input.processId|
      ensures FirstIndex(f.schedule, Proc(j)) < |f.schedule|
      ensures f.response[j] == Start(f.schedule, FirstIndex(f.schedule, Proc(j))) - input.arrivalTime[j] >= 0
    {
      assert ProcOkAt(input, f.schedule, f.remaining, f.started, f.response, f.completion, f.currentTime, j);
    }
  }

  /** The derived metrics (rr.js:188-191): turnaround is completion minus
      arrival, waiting is turnaround minus burst, and a process never
      waits less than its response time, because between its first start
      and its completion it is served its whole burst. */
  lemma MetricsBounds(input: Input)
    requires ValidInput(input)
    ensures var o := Simulate(input);
      && |o.turnAroundTime| == |input.processId| && |o.waitingTime| == |input.processId|
      && forall j :: 0 <= j < |input.processId| ==>
        && o.turnAroundTime[j] == o.completionTime[j] - input.arrivalTime[j]
        && o.waitingTime[j] == o.turnAroundTime[j] - input.burstTime[j]
        && 0 <= o.responseTime[j] <= o.waitingTime[j]
  {
    var f := Final(input);
    FinalSched(input);
    FinalProc(input);
    ScheduleNonNegative(input);
    var o := Simulate(input);
    assert o.turnAroundTime == Turnaround(f.completion, input.arrivalTime);
    assert o.waitingTime == Waiting(o.turnAroundTime, input.burstTime);
    MetricsOf(input, f.schedule, f.remaining, f.started, f.response, f.completion, f.currentTime, f.contextSwitches,
              o.turnAroundTime, o.waitingTime);
  }

  /** `MetricsBounds` over the fields of a finished state. */
  lemma MetricsOf(input: Input, h: seq<Entry>, remaining: seq<int>, started: seq<bool>, response: seq<int>,
                  completion: seq<int>, now: int, switches: int, turnaround: seq<int>, waiting: seq<int>)
    requires SchedOk(input, h, remaining, now, switches) && ProcOk(input, h, remaining, started, response, completion, now)
    requires NonNegative(h) && forall j :: 0 <= j < |input.processId| ==> remaining[j] == 0
    requires turnaround == Turnaround(completion, input.arrivalTime) && waiting == Waiting(turnaround, input.burstTime)
    ensures |turnaround| == |input.processId| && |waiting| == |input.processId|
    ensures forall j :: 0 <= j < |input.processId| ==>
      && turnaround[j] == completion[j] - input.arrivalTime[j]
      && waiting[j] == turnaround[j] - input.burstTime[j]
      && 0 <= response[j] <= waiting[j]
  {
    forall j: nat | j < |input.processId|
      ensures 0 <= response[j] <= waiting[j]
    {
      assert ProcOkAt(input, h, remaining, started, response, completion, now, j);
      assert TimeOf(h, Proc(j)) == input.burstTime[j];
      WaitAtLeastResponse(h, Proc(j), input.arrivalTime[j], input.burstTime[j], response[j], completion[j]);
    }
  }

  /** A subject that is served `burst` time units between its first start
      and its completion has waited at least its response time. */
  lemma WaitAtLeastResponse(h: seq<Entry>, w: Subject, arrival: int, burst: int, response: int, completion: int)
    requires NonNegative(h) && FirstIndex(h, w) < |h| && TimeOf(h, w) == burst
    requires response == Start(h, FirstIndex(h, w)) - arrival
    requires LastIndex(h, w) >= 0 && completion == Start(h, LastIndex(h, w) + 1)
    ensures response <= completion - arrival - burst
  {
    ServedBetween(h, w);
  }

  lemma ScheduleNonNegative(input: Input)
    requires ValidInput(input)
    ensures NonNegative(Simulate(input).schedule)
  {
    var h := Simulate(input).schedule;
    EntriesWellFormed(input);
    forall k | 0 <= k < |h|
      ensures h[k].duration >= 0
    {
      assert EntryOk(input, h[k]);
    }
  }

  /** Context switches (rr.js:169-173): the counter equals the number of
      switch entries, and every switch sits between two slices, so it is
      never the last entry and never comes right before an idle tick. */
  lemma SwitchesBetweenSlices(input: Input)
    requires ValidInput(input)
    ensures var h := Simulate(input).schedule;
      && Simulate(input).contextSwitches == Count(h, CS)
      && forall k :: 0 <= k < |h| && h[k].who == CS ==>
        && input.contextSwitch > 0 && h[k].duration == input.contextSwitch
        && 0 < k < |h| - 1 && h[k - 1].who.Proc? && h[k + 1].who.Proc?
  {
    var f := Final(input);
    var h := f.schedule;
    FinalSched(input);
    FinalShape(input);
    forall k | 0 <= k < |h| && h[k].who == CS
      ensures 0 < k < |h| - 1 && h[k - 1].who.Proc? && h[k + 1].who.Proc?
      ensures input.contextSwitch > 0 && h[k].duration == input.contextSwitch
    {
      assert CSFramed(h, k) && EntryOk(input, h[k]);
    }
  }

  /** Idle ticks (rr.js:126-132): each lasts one time unit and is taken only
      when every process that has arrived by then has already completed
      and some process is still to arrive. */
  lemma IdleOnlyWhenNothingReady(input: Input)
    requires ValidInput(input)
    ensures var o := Simulate(input);
      var h := o.schedule;
      forall k :: 0 <= k < |h| && h[k].who == Idle ==>
        && h[k].duration == 1
        && (forall j :: 0 <= j < |input.processId| && input.arrivalTime[j] <= Start(h, k) ==> o.completionTime[j] <= Start(h, k))
        && (exists j :: 0 <= j < |input.processId| && input.arrivalTime[j] > Start(h, k))
  {
    var f := Final(input);
    var h := f.schedule;
    FinalSched(input);
    FinalShape(input);
    forall k | 0 <= k < |h| && h[k].who == Idle
      ensures h[k].duration == 1
      ensures IdleOk(input, f.remaining, f.completion, Start(h, k))
    {
      assert IdleAt(input, h, f.remaining, f.completion, k) && EntryOk(input, h[k]);
    }
  }

  /** The clock: the schedule's length splits into served, idle and
      switching time, and it ends when the last process completes; with no
      processes the schedule is empty. */
  lemma Makespan(input: Input)
    requires ValidInput(input)
    ensures var h := Simulate(input).schedule;
      && Duration(h) == Sum(input.burstTime) + TimeOf(h, Idle) + TimeOf(h, CS)
      && (|input.processId| == 0 ==> h == [])
      && (|input.processId| > 0 ==> Duration(h) == MaxOf(Simulate(input).completionTime))
  {
    var f := Final(input);
    FinalSched(input);
    FinalShape(input);
    FinalClock(input);
    CompletionIsLastSliceEnd(input);
    MakespanOf(input, f.schedule, f.remaining, f.completion, f.queue, f.currentTime, f.contextSwitches);
  }

  /** `Makespan` over the fields of a finished state. */
  lemma MakespanOf(input: Input, h: seq<Entry>, remaining: seq<int>, completion: seq<int>, queue: seq<nat>,
                   now: int, switches: int)
    requires ValidInput(input)
    requires SchedOk(input, h, remaining, now, switches) && ShapeOk(input, h, remaining, completion, queue)
    requires queue == [] && forall j :: 0 <= j < |input.processId| ==> remaining[j] == 0
    requires forall j :: 0 <= j < |input.processId| ==> completion[j] <= Duration(h)
    ensures Duration(h) == Sum(input.burstTime) + TimeOf(h, Idle) + TimeOf(h, CS)
    ensures |input.processId| == 0 ==> h == []
    ensures |input.processId| > 0 ==> Duration(h) == MaxOf(completion)
  {
    SumOfZeros(remaining);
    DurationSplits(h);
    assert !AnyRemaining(remaining);
    if h != [] {
      assert TailOk(input, h, remaining, completion, queue);
      assert h[|h| - 1].who.Proc?;
    }
    if |input.processId| > 0 {
      assert TimeOf(h, Proc(0)) == input.burstTime[0];
      assert h != [];
      var m := MaxOf(completion);
      assert m >= completion[h[|h| - 1].who.id];
    }
  }

  /** The snapshot log (rr.js:107-110, 119-122, 175-184): it starts with
      the empty snapshot at time 0 and ends with an empty ready list, its
      times never decrease, no snapshot reports both a preempted and a
      terminated process, each process is reported terminated exactly
      once, and each slice of a process closes with one snapshot that
      reports it. */
  lemma SnapshotLog(input: Input)
    requires ValidInput(input)
    ensures var o := Simulate(input);
      var log := o.timeLog;
      && |log| > 0 && log[0] == TimeLog(0, [], [], []) && log[|log| - 1].ready == []
      && (forall a, b :: 0 <= a <= b < |log| ==> log[a].time <= log[b].time)
      && (forall k :: 0 <= k < |log| ==> log[k].running == [] || log[k].terminate == [])
      && (forall j :: 0 <= j < |input.processId| ==>
            Terminations(log, j) == 1 && Cycles(log, j) == Count(o.schedule, Proc(j)))
  {
    var f := Final(input);
    var log := f.timeLog;
    FinalLog(input);
    forall a, b | 0 <= a <= b < |log|
      ensures log[a].time <= log[b].time
    {
      TimesOrdered(log, a, b);
    }
  }

  /** When the arrived flags record exactly the arrivals up to `lo`, a scan
      at `t` admits, in index order, exactly the processes whose arrival
      time lies in `(lo, t]`. */
  lemma {:induction false} ArrivalsInWindow(arrival: seq<int>, arrived: seq<bool>, lo: int, t: int, k: nat)
    requires k <= |arrival| && k <= |arrived|
    requires forall j :: 0 <= j < k ==> (arrived[j] <==> arrival[j] <= lo)
    ensures Arrivals(arrival, arrived, t, k) == ArrivedBetween(arrival, lo, t, k)
  {
    if k > 0 {
      ArrivalsInWindow(arrival, arrived, lo, t, k - 1);
    }
  }

  /** At every dequeue (rr.js:138) the queue holds, each once, exactly the
      processes that have arrived by the current time and still have time
      left. */
  lemma ReadyAtDequeue(input: Input, s: Sim)
    requires Inv(input, s)
    ensures NoDups(Scan(input, s).queue)
    ensures forall j: nat :: j < |input.processId| ==>
      (j in Scan(input, s).queue <==> input.arrivalTime[j] <= s.currentTime && s.remaining[j] > 0)
  {
    ScanKeepsInv(input, s);
    MarkArrivedAt(input.arrivalTime, s.arrived, s.currentTime);
  }

  /** The tie-break of rr.js:154-164: processes that arrive during a slice,
      that is with arrival time in `(start, end]`, join the queue in index
      order ahead of the preempted process, which goes last. */
  lemma ArrivalsBeforePreempted(input: Input, s: Sim)
    requires Inv(input, s) && Scanned(input, s) && |s.queue| > 0
    ensures var p := s.queue[0];
      var t := s.currentTime + Min(input.timeQuantum, s.remaining[p]);
      var d := Dispatch(input, s);
      d.queue == s.queue[1..] + ArrivedBetween(input.arrivalTime, s.currentTime, t, |input.processId|)
                 + (if d.remaining[p] > 0 then [p] else [])
  {
    var p := s.queue[0];
    var t := s.currentTime + Min(input.timeQuantum, s.remaining[p]);
    ArrivalsInWindow(input.arrivalTime, s.arrived, s.currentTime, t, |input.processId|);
  }

  /** Processes that arrive during the context switch after a slice, that
      is with arrival time in `(end, end + contextSwitch]`, are admitted by
      the next top-of-loop scan (rr.js:114-118) and so queue behind the
      preempted process. */
  lemma SwitchArrivalsBehind(input: Input, s: Sim)
    requires Inv(input, s) && Scanned(input, s) && |s.queue| > 0
    ensures Inv(input, Dispatch(input, s))
    ensures var p := s.queue[0];
      var t := s.currentTime + Min(input.timeQuantum, s.remaining[p]);
      var d := Dispatch(input, s);
      Scan(input, d).queue == d.queue + ArrivedBetween(input.arrivalTime, t, d.currentTime, |input.processId|)
  {
    DispatchKeepsInv(input, s);
    var p := s.queue[0];
    var t := s.currentTime + Min(input.timeQuantum, s.remaining[p]);
    var d := Dispatch(input, s);
    MarkArrivedAt(input.arrivalTime, s.arrived, t);
    assert d.arrived == MarkArrived(input.arrivalTime, s.arrived, t);
    ArrivalsInWindow(input.arrivalTime, d.arrived, t, d.currentTime, |input.processId|);
  }
}
