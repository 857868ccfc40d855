/** Worked traces of `roundRobinScheduler`, proved one loop pass at a time. */
module Scenarios {
  import opened Timeline
  import opened RoundRobin
  import opened Scheduler

  // ---------------------------------------------------------------------
  // Three processes arriving at 0, 1 and 2 with bursts 5, 3 and 1, a
  // quantum of 2 and no switching overhead.

  const Staggered := Input([0, 1, 2], [0, 1, 2], [5, 3, 1], 2, 0)

  const AllIn := [true, true, true]

  /** The loop-top state after the `k`-th dispatch cycle. */
  function StaggeredState(k: nat): Sim
    requires 1 <= k <= 6
  {
    var l := [TimeLog(0, [], [], []), TimeLog(0, [0], [], []), TimeLog(2, [1, 2, 0], [0], [])];
    var h := [Entry(Proc(0), 2)];
    if k == 1 then Sim([3, 3, 1], 2, [1, 2, 0], AllIn, [true, false, false], [0, 0, 0], [0, 0, 0], h, l, 0)
    else
      var l := l + [TimeLog(4, [2, 0, 1], [1], [])];
      var h := h + [Entry(Proc(1), 2)];
      if k == 2 then Sim([3, 1, 1], 4, [2, 0, 1], AllIn, [true, true, false], [0, 0, 0], [0, 1, 0], h, l, 0)
      else
        var l := l + [TimeLog(5, [0, 1], [], [2])];
        var h := h + [Entry(Proc(2), 1)];
        if k == 3 then Sim([3, 1, 0], 5, [0, 1], AllIn, AllIn, [0, 0, 5], [0, 1, 2], h, l, 0)
        else
          var l := l + [TimeLog(7, [1, 0], [0], [])];
          var h := h + [Entry(Proc(0), 2)];
          if k == 4 then Sim([1, 1, 0], 7, [1, 0], AllIn, AllIn, [0, 0, 5], [0, 1, 2], h, l, 0)
          else
            var l := l + [TimeLog(8, [0], [], [1])];
            var h := h + [Entry(Proc(1), 1)];
            if k == 5 then Sim([1, 0, 0], 8, [0], AllIn, AllIn, [0, 8, 5], [0, 1, 2], h, l, 0)
            else
              Sim([0, 0, 0], 9, [], AllIn, AllIn, [9, 8, 5], [0, 1, 2], h + [Entry(Proc(0), 1)],
                  l + [TimeLog(9, [], [], [0])], 0)
  }

  /** The state after the first admission scan: P1 is admitted at
      time 0 and logged. */
  function StaggeredAdmitted(): Sim
  {
    Sim([5, 3, 1], 0, [0], [true, false, false], [false, false, false], [0, 0, 0], [0, 0, 0], [],
        [TimeLog(0, [], [], []), TimeLog(0, [0], [], [])], 0)
  }

  lemma StaggeredAdmit()
    ensures Sized(Staggered, Init(Staggered)) && Scan(Staggered, Init(Staggered)) == StaggeredAdmitted()
  {
    var s0 := Init(Staggered);
    assert s0.arrived == [false, false, false];
    assert s0.remaining == [5, 3, 1];
    assert Arrivals(Staggered.arrivalTime, [false, false, false], 0, 3) == [0];
    assert MarkArrived(Staggered.arrivalTime, [false, false, false], 0) == [true, false, false];
    assert [0][..1] == [0];
    assert AdmissionLog([], [0], 0) == [TimeLog(0, [0], [], [])];
    var d := Scan(Staggered, s0);
    var e := StaggeredAdmitted();
    assert d.queue == e.queue && d.arrived == e.arrived && d.timeLog == e.timeLog;
    assert d.started == e.started && d.completion == e.completion && d.response == e.response;
  }

  /** P1 runs for 2; P2 and P3 arrive during that slice and queue ahead
      of it. */
  lemma StaggeredStart()
    ensures Sized(Staggered, StaggeredAdmitted()) && StaggeredAdmitted().queue == [0]
    ensures Dispatch(Staggered, StaggeredAdmitted()) == StaggeredState(1)
  {
    var s := StaggeredAdmitted();
    assert Arrivals(Staggered.arrivalTime, [true, false, false], 2, 3) == [1, 2];
    assert MarkArrived(Staggered.arrivalTime, [true, false, false], 2) == AllIn;
    var d := Dispatch(Staggered, s);
    var e := StaggeredState(1);
    assert d.remaining == e.remaining && d.currentTime == e.currentTime && d.queue == e.queue;
    assert d.arrived == e.arrived && d.started == e.started;
    assert d.completion == e.completion && d.response == e.response;
    assert d.schedule == e.schedule && d.timeLog == e.timeLog;
  }

  lemma StaggeredStep1(input: Input, s: Sim)
    requires input == Staggered && s == StaggeredState(1)
    ensures Sized(input, s) && Scan(input, s) == s && |s.queue| > 0 && s.queue[0] < 3
    ensures Dispatch(input, s) == StaggeredState(2)
  {
    assert Arrivals(input.arrivalTime, AllIn, 4, 3) == [];
    assert MarkArrived(input.arrivalTime, AllIn, 4) == AllIn;
    var d := Dispatch(input, s);
    var e := StaggeredState(2);
    assert d.remaining == e.remaining && d.currentTime == e.currentTime && d.queue == e.queue;
    assert d.arrived == e.arrived && d.started == e.started;
    assert d.completion == e.completion && d.response == e.response;
    assert d.schedule == e.schedule && d.timeLog == e.timeLog;
    ScanNothingDue(input, s);
  }

  lemma StaggeredStep2(input: Input, s: Sim)
    requires input == Staggered && s == StaggeredState(2)
    ensures Sized(input, s) && Scan(input, s) == s && |s.queue| > 0 && s.queue[0] < 3
    ensures Dispatch(input, s) == StaggeredState(3)
  {
    assert Arrivals(input.arrivalTime, AllIn, 5, 3) == [];
    assert MarkArrived(input.arrivalTime, AllIn, 5) == AllIn;
    var d := Dispatch(input, s);
    var e := StaggeredState(3);
    assert d.remaining == e.remaining && d.currentTime == e.currentTime && d.queue == e.queue;
    assert d.arrived == e.arrived && d.started == e.started;
    assert d.completion == e.completion && d.response == e.response;
    assert d.schedule == e.schedule && d.timeLog == e.timeLog;
    ScanNothingDue(input, s);
  }

  lemma StaggeredStep3(input: Input, s: Sim)
    requires input == Staggered && s == StaggeredState(3)
    ensures Sized(input, s) && Scan(input, s) == s && |s.queue| > 0 && s.queue[0] < 3
    ensures Dispatch(input, s) == StaggeredState(4)
  {
    assert Arrivals(input.arrivalTime, AllIn, 7, 3) == [];
    assert MarkArrived(input.arrivalTime, AllIn, 7) == AllIn;
    var d := Dispatch(input, s);
    var e := StaggeredState(4);
    assert d.remaining == e.remaining && d.currentTime == e.currentTime && d.queue == e.queue;
    assert d.arrived == e.arrived && d.started == e.started;
    assert d.completion == e.completion && d.response == e.response;
    assert d.schedule == e.schedule && d.timeLog == e.timeLog;
    ScanNothingDue(input, s);
  }

  lemma StaggeredStep4(input: Input, s: Sim)
    requires input == Staggered && s == StaggeredState(4)
    ensures Sized(input, s) && Scan(input, s) == s && |s.queue| > 0 && s.queue[0] < 3
    ensures Dispatch(input, s) == StaggeredState(5)
  {
    assert Arrivals(input.arrivalTime, AllIn, 8, 3) == [];
    assert MarkArrived(input.arrivalTime, AllIn, 8) == AllIn;
    var d := Dispatch(input, s);
    var e := StaggeredState(5);
    assert d.remaining == e.remaining && d.currentTime == e.currentTime && d.queue == e.queue;
    assert d.arrived == e.arrived && d.started == e.started;
    assert d.completion == e.completion && d.response == e.response;
    assert d.schedule == e.schedule && d.timeLog == e.timeLog;
    ScanNothingDue(input, s);
  }

  lemma StaggeredStep5(input: Input, s: Sim)
    requires input == Staggered && s == StaggeredState(5)
    ensures Sized(input, s) && Scan(input, s) == s && |s.queue| > 0 && s.queue[0] < 3
    ensures Dispatch(input, s) == StaggeredState(6)
  {
    assert Arrivals(input.arrivalTime, AllIn, 9, 3) == [];
    assert MarkArrived(input.arrivalTime, AllIn, 9) == AllIn;
    var d := Dispatch(input, s);
    var e := StaggeredState(6);
    assert d.remaining == e.remaining && d.currentTime == e.currentTime && d.queue == e.queue;
    assert d.arrived == e.arrived && d.started == e.started;
    assert d.completion == e.completion && d.response == e.response;
    assert d.schedule == e.schedule && d.timeLog == e.timeLog;
    ScanNothingDue(input, s);
  }

  /** One loop pass of a worked trace: a scan that admits nobody, then a
      dispatch cycle from `s` to `s'`. */
  lemma PassTo(input: Input, s: Sim, s': Sim)
    requires Inv(input, s) && Scan(input, s) == s && |s.queue| > 0 && Dispatch(input, s) == s'
    ensures Inv(input, s') && Run(input, s) == Run(input, s')
  {
    RunDispatch(input, s);
  }

  /** After the last dispatch cycle nobody is waiting and nothing is left
      to run. */
  lemma StaggeredDone(input: Input, s: Sim)
    requires input == Staggered && s == StaggeredState(6)
    ensures Sized(input, s) && Scan(input, s) == s
    ensures |s.queue| == 0 && !AnyRemaining(s.remaining)
  {
    ScanNothingDue(input, s);
    assert s.remaining == [0, 0, 0];
  }

  /** From there the loop stops. */
  lemma StaggeredFinish(input: Input, s: Sim)
    requires input == Staggered && s == StaggeredState(6) && Inv(input, s)
    ensures Run(input, s) == s
  {
    StaggeredDone(input, s);
    RunDone(input, s);
  }

  lemma StaggeredRun5(input: Input, s: Sim)
    requires input == Staggered && s == StaggeredState(5) && Inv(input, s)
    ensures Run(input, s) == StaggeredState(6)
  {
    StaggeredStep5(input, s);
    var s' := StaggeredState(6);
    PassTo(input, s, s');
    StaggeredFinish(input, s');
  }

  lemma StaggeredRun4(input: Input, s: Sim)
    requires input == Staggered && s == StaggeredState(4) && Inv(input, s)
    ensures Run(input, s) == StaggeredState(6)
  {
    StaggeredStep4(input, s);
    var s' := StaggeredState(5);
    PassTo(input, s, s');
    StaggeredRun5(input, s');
  }

  lemma StaggeredRun3(input: Input, s: Sim)
    requires input == Staggered && s == StaggeredState(3) && Inv(input, s)
    ensures Run(input, s) == StaggeredState(6)
  {
    StaggeredStep3(input, s);
    var s' := StaggeredState(4);
    PassTo(input, s, s');
    StaggeredRun4(input, s');
  }

  lemma StaggeredRun2(input: Input, s: Sim)
    requires input == Staggered && s == StaggeredState(2) && Inv(input, s)
    ensures Run(input, s) == StaggeredState(6)
  {
    StaggeredStep2(input, s);
    var s' := StaggeredState(3);
    PassTo(input, s, s');
    StaggeredRun3(input, s');
  }

  lemma StaggeredRun1(input: Input, s: Sim)
    requires input == Staggered && s == StaggeredState(1) && Inv(input, s)
    ensures Run(input, s) == StaggeredState(6)
  {
    StaggeredStep1(input, s);
    var s' := StaggeredState(2);
    PassTo(input, s, s');
    StaggeredRun2(input, s');
  }

  /** The loop, from its first pass to the `break`. */
  lemma StaggeredLoop(input: Input)
    requires input == Staggered
    ensures ValidInput(input) && Inv(input, Init(input)) && Run(input, Init(input)) == StaggeredState(6)
  {
    InitInv(input);
    StaggeredAdmit();
    StaggeredStart();
    var s0 := Init(input);
    RunDispatch(input, s0);
    StaggeredRun1(input, StaggeredState(1));
  }

  /** What the final state holds, with the metrics of rr.js:188-191. */
  lemma StaggeredOutcome(input: Input, f: Sim)
    requires input == Staggered && f == StaggeredState(6)
    ensures f.schedule == [Entry(Proc(0), 2), Entry(Proc(1), 2), Entry(Proc(2), 1),
                           Entry(Proc(0), 2), Entry(Proc(1), 1), Entry(Proc(0), 1)]
    ensures f.completion == [9, 8, 5] && f.response == [0, 1, 2] && f.contextSwitches == 0
    ensures Turnaround(f.completion, input.arrivalTime) == [9, 7, 3]
    ensures Waiting([9, 7, 3], input.burstTime) == [4, 4, 2]
  {
    assert f.completion == [9, 8, 5];
  }

  /** The whole run: the slices go P1 P2 P3 P1 P2 P1, the processes
      complete at 9, 8 and 5, and each one first runs 0, 1 and 2 time
      units after it arrives. */
  lemma StaggeredTrace(input: Input)
    requires input == Staggered
    ensures var o := Simulate(input);
      && o.schedule == [Entry(Proc(0), 2), Entry(Proc(1), 2), Entry(Proc(2), 1),
                        Entry(Proc(0), 2), Entry(Proc(1), 1), Entry(Proc(0), 1)]
      && o.completionTime == [9, 8, 5] && o.responseTime == [0, 1, 2]
      && o.turnAroundTime == [9, 7, 3] && o.waitingTime == [4, 4, 2]
      && o.contextSwitches == 0
  {
    StaggeredLoop(input);
    StaggeredOutcome(input, StaggeredState(6));
  }

  // ---------------------------------------------------------------------
  // Two processes arriving at 0 and 5 with bursts of 3, a quantum of 1
  // and a switching overhead of 1.

  const LateArrival := Input([0, 1], [0, 5], [3, 3], 1, 1)

  /** The loop-top state after the `k`-th dispatch cycle. */
  function LateState(k: nat): Sim
    requires 1 <= k <= 6
  {
    var l := [TimeLog(0, [], [], []), TimeLog(0, [0], [], []), TimeLog(2, [0], [0], [])];
    var h := [Entry(Proc(0), 1), Entry(CS, 1)];
    if k == 1 then Sim([2, 3], 2, [0], [true, false], [true, false], [0, 0], [0, 0], h, l, 1)
    else
      var l := l + [TimeLog(4, [0], [0], [])];
      var h := h + [Entry(Proc(0), 1), Entry(CS, 1)];
      if k == 2 then Sim([1, 3], 4, [0], [true, false], [true, false], [0, 0], [0, 0], h, l, 2)
      else
        var l := l + [TimeLog(6, [1], [], [0])];
        var h := h + [Entry(Proc(0), 1), Entry(CS, 1)];
        if k == 3 then Sim([0, 3], 6, [1], [true, true], [true, false], [5, 0], [0, 0], h, l, 3)
        else
          var l := l + [TimeLog(8, [1], [1], [])];
          var h := h + [Entry(Proc(1), 1), Entry(CS, 1)];
          if k == 4 then Sim([0, 2], 8, [1], [true, true], [true, true], [5, 0], [0, 1], h, l, 4)
          else
            var l := l + [TimeLog(10, [1], [1], [])];
            var h := h + [Entry(Proc(1), 1), Entry(CS, 1)];
            if k == 5 then Sim([0, 1], 10, [1], [true, true], [true, true], [5, 0], [0, 1], h, l, 5)
            else
              Sim([0, 0], 11, [], [true, true], [true, true], [5, 11], [0, 1], h + [Entry(Proc(1), 1)],
                  l + [TimeLog(11, [], [], [1])], 5)
  }

  /** The state after the first admission scan: P1 is admitted at
      time 0 and logged. */
  function LateAdmitted(): Sim
  {
    Sim([3, 3], 0, [0], [true, false], [false, false], [0, 0], [0, 0], [],
        [TimeLog(0, [], [], []), TimeLog(0, [0], [], [])], 0)
  }

  lemma LateAdmit()
    ensures Sized(LateArrival, Init(LateArrival)) && Scan(LateArrival, Init(LateArrival)) == LateAdmitted()
  {
    var s0 := Init(LateArrival);
    assert s0.arrived == [false, false];
    assert s0.remaining == [3, 3];
    assert Arrivals(LateArrival.arrivalTime, [false, false], 0, 2) == [0];
    assert MarkArrived(LateArrival.arrivalTime, [false, false], 0) == [true, false];
    assert [0][..1] == [0];
    assert AdmissionLog([], [0], 0) == [TimeLog(0, [0], [], [])];
    var d := Scan(LateArrival, s0);
    var e := LateAdmitted();
    assert d.queue == e.queue && d.arrived == e.arrived && d.timeLog == e.timeLog;
    assert d.started == e.started && d.completion == e.completion && d.response == e.response;
  }

  /** P1 runs for 1 and, being the only process in the queue, is
      requeued behind a context switch. */
  lemma LateStart()
    ensures Sized(LateArrival, LateAdmitted()) && LateAdmitted().queue == [0]
    ensures Dispatch(LateArrival, LateAdmitted()) == LateState(1)
  {
    var s := LateAdmitted();
    assert Arrivals(LateArrival.arrivalTime, [true, false], 1, 2) == [];
    assert MarkArrived(LateArrival.arrivalTime, [true, false], 1) == [true, false];
    var d := Dispatch(LateArrival, s);
    var e := LateState(1);
    assert d.remaining == e.remaining && d.currentTime == e.currentTime && d.queue == e.queue;
    assert d.arrived == e.arrived && d.started == e.started;
    assert d.completion == e.completion && d.response == e.response;
    assert d.schedule == e.schedule && d.timeLog == e.timeLog;
  }

  /** P2 is due when P1's third slice ends at time 5. */
  lemma LateArrives()
    ensures Arrivals(LateArrival.arrivalTime, [true, false], 5, 2) == [1]
    ensures MarkArrived(LateArrival.arrivalTime, [true, false], 5) == [true, true]
  {
  }

  lemma LateStep1(input: Input, s: Sim)
    requires input == LateArrival && s == LateState(1)
    ensures Sized(input, s) && Scan(input, s) == s && |s.queue| > 0 && s.queue[0] < 2
    ensures Dispatch(input, s) == LateState(2)
  {
    assert Arrivals(input.arrivalTime, [true, false], 3, 2) == [];
    assert MarkArrived(input.arrivalTime, [true, false], 3) == [true, false];
    var d := Dispatch(input, s);
    var e := LateState(2);
    assert d.remaining == e.remaining && d.currentTime == e.currentTime && d.queue == e.queue;
    assert d.arrived == e.arrived && d.started == e.started;
    assert d.completion == e.completion && d.response == e.response;
    assert d.schedule == e.schedule && d.timeLog == e.timeLog;
    ScanNothingDue(input, s);
  }

  lemma LateStep2(input: Input, s: Sim)
    requires input == LateArrival && s == LateState(2)
    ensures Sized(input, s) && Scan(input, s) == s && |s.queue| > 0 && s.queue[0] < 2
    ensures Dispatch(input, s) == LateState(3)
  {
    LateArrives();
    var d := Dispatch(input, s);
    var e := LateState(3);
    assert d.remaining == e.remaining && d.currentTime == e.currentTime && d.queue == e.queue;
    assert d.arrived == e.arrived && d.started == e.started;
    assert d.completion == e.completion && d.response == e.response;
    assert d.schedule == e.schedule && d.timeLog == e.timeLog;
    ScanNothingDue(input, s);
  }

  lemma LateStep3(input: Input, s: Sim)
    requires input == LateArrival && s == LateState(3)
    ensures Sized(input, s) && Scan(input, s) == s && |s.queue| > 0 && s.queue[0] < 2
    ensures Dispatch(input, s) == LateState(4)
  {
    assert Arrivals(input.arrivalTime, [true, true], 7, 2) == [];
    assert MarkArrived(input.arrivalTime, [true, true], 7) == [true, true];
    var d := Dispatch(input, s);
    var e := LateState(4);
    assert d.remaining == e.remaining && d.currentTime == e.currentTime && d.queue == e.queue;
    assert d.arrived == e.arrived && d.started == e.started;
    assert d.completion == e.completion && d.response == e.response;
    assert d.schedule == e.schedule && d.timeLog == e.timeLog;
    ScanNothingDue(input, s);
  }

  lemma LateStep4(input: Input, s: Sim)
    requires input == LateArrival && s == LateState(4)
    ensures Sized(input, s) && Scan(input, s) == s && |s.queue| > 0 && s.queue[0] < 2
    ensures Dispatch(input, s) == LateState(5)
  {
    assert Arrivals(input.arrivalTime, [true, true], 9, 2) == [];
    assert MarkArrived(input.arrivalTime, [true, true], 9) == [true, true];
    var d := Dispatch(input, s);
    var e := LateState(5);
    assert d.remaining == e.remaining && d.currentTime == e.currentTime && d.queue == e.queue;
    assert d.arrived == e.arrived && d.started == e.started;
    assert d.completion == e.completion && d.response == e.response;
    assert d.schedule == e.schedule && d.timeLog == e.timeLog;
    ScanNothingDue(input, s);
  }

  lemma LateStep5(input: Input, s: Sim)
    requires input == LateArrival && s == LateState(5)
    ensures Sized(input, s) && Scan(input, s) == s && |s.queue| > 0 && s.queue[0] < 2
    ensures Dispatch(input, s) == LateState(6)
  {
    assert Arrivals(input.arrivalTime, [true, true], 11, 2) == [];
    assert MarkArrived(input.arrivalTime, [true, true], 11) == [true, true];
    var d := Dispatch(input, s);
    var e := LateState(6);
    assert d.remaining == e.remaining && d.currentTime == e.currentTime && d.queue == e.queue;
    assert d.arrived == e.arrived && d.started == e.started;
    assert d.completion == e.completion && d.response == e.response;
    assert d.schedule == e.schedule && d.timeLog == e.timeLog;
    ScanNothingDue(input, s);
  }

  lemma LateDone(input: Input, s: Sim)
    requires input == LateArrival && s == LateState(6)
    ensures Sized(input, s) && Scan(input, s) == s
    ensures |s.queue| == 0 && !AnyRemaining(s.remaining)
  {
    ScanNothingDue(input, s);
    assert s.remaining == [0, 0];
  }

  lemma LateFinish(input: Input, s: Sim)
    requires input == LateArrival && s == LateState(6) && Inv(input, s)
    ensures Run(input, s) == s
  {
    LateDone(input, s);
    RunDone(input, s);
  }

  lemma LateRun5(input: Input, s: Sim)
    requires input == LateArrival && s == LateState(5) && Inv(input, s)
    ensures Run(input, s) == LateState(6)
  {
    LateStep5(input, s);
    var s' := LateState(6);
    PassTo(input, s, s');
    LateFinish(input, s');
  }

  lemma LateRun4(input: Input, s: Sim)
    requires input == LateArrival && s == LateState(4) && Inv(input, s)
    ensures Run(input, s) == LateState(6)
  {
    LateStep4(input, s);
    var s' := LateState(5);
    PassTo(input, s, s');
    LateRun5(input, s');
  }

  lemma LateRun3(input: Input, s: Sim)
    requires input == LateArrival && s == LateState(3) && Inv(input, s)
    ensures Run(input, s) == LateState(6)
  {
    LateStep3(input, s);
    var s' := LateState(4);
    PassTo(input, s, s');
    LateRun4(input, s');
  }

  lemma LateRun2(input: Input, s: Sim)
    requires input == LateArrival && s == LateState(2) && Inv(input, s)
    ensures Run(input, s) == LateState(6)
  {
    LateStep2(input, s);
    var s' := LateState(3);
    PassTo(input, s, s');
    LateRun3(input, s');
  }

  lemma LateRun1(input: Input, s: Sim)
    requires input == LateArrival && s == LateState(1) && Inv(input, s)
    ensures Run(input, s) == LateState(6)
  {
    LateStep1(input, s);
    var s' := LateState(2);
    PassTo(input, s, s');
    LateRun2(input, s');
  }

  lemma LateLoop(input: Input)
    requires input == LateArrival
    ensures ValidInput(input) && Inv(input, Init(input)) && Run(input, Init(input)) == LateState(6)
  {
    InitInv(input);
    LateAdmit();
    LateStart();
    var s0 := Init(input);
    RunDispatch(input, s0);
    LateRun1(input, LateState(1));
  }

  lemma LateOutcome(input: Input, f: Sim)
    requires input == LateArrival && f == LateState(6)
    ensures f.schedule == [Entry(Proc(0), 1), Entry(CS, 1), Entry(Proc(0), 1), Entry(CS, 1), Entry(Proc(0), 1), Entry(CS, 1),
                           Entry(Proc(1), 1), Entry(CS, 1), Entry(Proc(1), 1), Entry(CS, 1), Entry(Proc(1), 1)]
    ensures f.completion == [5, 11] && f.response == [0, 1] && f.contextSwitches == 5
    ensures Turnaround(f.completion, input.arrivalTime) == [5, 6]
    ensures Waiting([5, 6], input.burstTime) == [2, 3]
    ensures TimeOf(f.schedule, Idle) == 0
  {
    assert f.completion == [5, 11];
    NoIdleTime(f.schedule);
  }

  /** The whole run. P2 arrives exactly when P1's last slice ends and is
      admitted by the scan during that slice, so the CPU is never idle; a
      context switch is charged after every slice but the last, even
      between two slices of the same process. */
  lemma LateTrace(input: Input)
    requires input == LateArrival
    ensures var o := Simulate(input);
      && o.schedule == [Entry(Proc(0), 1), Entry(CS, 1), Entry(Proc(0), 1), Entry(CS, 1), Entry(Proc(0), 1), Entry(CS, 1),
                        Entry(Proc(1), 1), Entry(CS, 1), Entry(Proc(1), 1), Entry(CS, 1), Entry(Proc(1), 1)]
      && TimeOf(o.schedule, Idle) == 0
      && o.completionTime == [5, 11] && o.responseTime == [0, 1]
      && o.turnAroundTime == [5, 6] && o.waitingTime == [2, 3]
      && o.contextSwitches == 5
  {
    LateLoop(input);
    var f := LateState(6);
    LateOutcome(input, f);
  }

  /** A schedule without idle entries has no idle time. */
  lemma {:induction false} NoIdleTime(h: seq<Entry>)
    requires forall k :: 0 <= k < |h| ==> h[k].who != Idle
    ensures TimeOf(h, Idle) == 0
  {
    if h != [] {
      NoIdleTime(h[..|h| - 1]);
    }
  }
}
