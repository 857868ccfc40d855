/** `roundRobinScheduler` (rr.js:99-191) as the imperative procedure it
    is: `remainingTime`, `arrived` and `started` are arrays updated in
    place, the queue and the output lists are sequences the code pushes
    onto, and the method is proved to produce exactly `Simulate(input)`. */
module Scheduler {
  import opened Timeline
  import opened RoundRobin

  /** `remainingTime.some(t => t > 0)` (rr.js:128). */
  method SomeRemaining(remaining: array<int>) returns (some: bool)
    ensures some == AnyRemaining(remaining[..])
  {
    var i := 0;
    while i < remaining.Length
      invariant 0 <= i <= remaining.Length
      invariant forall j :: 0 <= j < i ==> remaining[j] <= 0
    {
      if remaining[i] > 0 {
        assert remaining[..][i] > 0;
        return true;
      }
      i := i + 1;
    }
    return false;
  }

  lemma AdmissionLogSnoc(queue: seq<nat>, admitted: seq<nat>, x: nat, t: int)
    ensures AdmissionLog(queue, admitted + [x], t) == AdmissionLog(queue, admitted, t) + [TimeLog(t, queue + admitted + [x], [], [])]
  {
    var a := admitted + [x];
    var l := AdmissionLog(queue, a, t);
    var r := AdmissionLog(queue, admitted, t) + [TimeLog(t, queue + admitted + [x], [], [])];
    forall m | 0 <= m < |a|
      ensures l[m] == r[m]
    {
      if m < |admitted| {
        assert a[..m + 1] == admitted[..m + 1];
      } else {
        assert a[..m + 1] == a;
      }
    }
  }

  /** Admitting process `i` extends the queue and the log by one. */
  lemma AdmitOne(arrival: seq<int>, before: seq<bool>, queue: seq<nat>, log: seq<TimeLog>, now: int, i: nat)
    requires i < |arrival| && i < |before| && !before[i] && arrival[i] <= now
    ensures var admitted := Arrivals(arrival, before, now, i);
      && queue + Arrivals(arrival, before, now, i + 1) == queue + admitted + [i]
      && log + AdmissionLog(queue, Arrivals(arrival, before, now, i + 1), now)
         == log + AdmissionLog(queue, admitted, now) + [TimeLog(now, queue + admitted + [i], [], [])]
  {
    var admitted := Arrivals(arrival, before, now, i);
    assert Arrivals(arrival, before, now, i + 1) == admitted + [i];
    AdmissionLogSnoc(queue, admitted, i, now);
  }

  /** A process that is not admitted leaves the list of newcomers alone. */
  lemma AdmitNone(arrival: seq<int>, before: seq<bool>, now: int, i: nat)
    requires i < |arrival| && i < |before| && (before[i] || arrival[i] > now)
    ensures Arrivals(arrival, before, now, i + 1) == Arrivals(arrival, before, now, i)
  {
  }

  /** The admission scan at the top of the loop (rr.js:114-124): every
      process not yet arrived whose arrival time has come is flagged,
      pushed and logged with the queue right after the push. */
  method AdmitArrivals(input: Input, arrived: array<bool>, queue: seq<nat>, log: seq<TimeLog>, now: int)
    returns (queue': seq<nat>, log': seq<TimeLog>)
    requires arrived.Length == |input.processId| && |input.arrivalTime| == |input.processId|
    modifies arrived
    ensures arrived[..] == MarkArrived(input.arrivalTime, old(arrived[..]), now)
    ensures queue' == queue + Arrivals(input.arrivalTime, old(arrived[..]), now, arrived.Length)
    ensures log' == log + AdmissionLog(queue, Arrivals(input.arrivalTime, old(arrived[..]), now, arrived.Length), now)
  {
    ghost var before := arrived[..];
    queue', log' := queue, log;
    var i := 0;
    while i < arrived.Length
      invariant 0 <= i <= arrived.Length
      invariant forall j :: 0 <= j < i ==> arrived[j] == (before[j] || input.arrivalTime[j] <= now)
      invariant forall j :: i <= j < arrived.Length ==> arrived[j] == before[j]
      invariant queue' == queue + Arrivals(input.arrivalTime, before, now, i)
      invariant log' == log + AdmissionLog(queue, Arrivals(input.arrivalTime, before, now, i), now)
    {
      if !arrived[i] && input.arrivalTime[i] <= now {
        AdmitOne(input.arrivalTime, before, queue, log, now, i);
        arrived[i] := true;
        queue' := queue' + [i];
        log' := log' + [TimeLog(now, queue', [], [])];
      } else {
        AdmitNone(input.arrivalTime, before, now, i);
      }
      i := i + 1;
    }
    assert arrived[..] == MarkArrived(input.arrivalTime, before, now);
  }

  /** The admission scan after a slice (rr.js:154-159): the same test, but
      nothing is logged. */
  method AdmitDuringSlice(input: Input, arrived: array<bool>, queue: seq<nat>, now: int) returns (queue': seq<nat>)
    requires arrived.Length == |input.processId| && |input.arrivalTime| == |input.processId|
    modifies arrived
    ensures arrived[..] == MarkArrived(input.arrivalTime, old(arrived[..]), now)
    ensures queue' == queue + Arrivals(input.arrivalTime, old(arrived[..]), now, arrived.Length)
  {
    ghost var before := arrived[..];
    queue' := queue;
    var i := 0;
    while i < arrived.Length
      invariant 0 <= i <= arrived.Length
      invariant forall j :: 0 <= j < i ==> arrived[j] == (before[j] || input.arrivalTime[j] <= now)
      invariant forall j :: i <= j < arrived.Length ==> arrived[j] == before[j]
      invariant queue' == queue + Arrivals(input.arrivalTime, before, now, i)
    {
      if !arrived[i] && input.arrivalTime[i] <= now {
        assert Arrivals(input.arrivalTime, before, now, i + 1) == Arrivals(input.arrivalTime, before, now, i) + [i];
        arrived[i] := true;
        queue' := queue' + [i];
      } else {
        AdmitNone(input.arrivalTime, before, now, i);
      }
      i := i + 1;
    }
    assert arrived[..] == MarkArrived(input.arrivalTime, before, now);
  }

  /** The first half of a dispatch cycle (rr.js:139-151): shift the head
      of the queue, record its response time on its first run and run it
      for one slice. */
  method StartSlice(input: Input, remainingTime: array<int>, started: array<bool>,
                    currentTime: int, queue: seq<nat>, response: seq<int>, schedule: seq<Entry>)
    returns (p: nat, timeSlice: int, rest: seq<nat>, response': seq<int>, schedule': seq<Entry>, now: int)
    requires |queue| > 0 && queue[0] < remainingTime.Length == started.Length == |response|
    requires |input.arrivalTime| == remainingTime.Length
    modifies remainingTime, started
    ensures p == queue[0] && rest == queue[1..]
    ensures timeSlice == Min(input.timeQuantum, old(remainingTime[p]))
    ensures response' == if old(started[p]) then response else response[p := currentTime - input.arrivalTime[p]]
    ensures started[..] == if old(started[p]) then old(started[..]) else old(started[..])[p := true]
    ensures remainingTime[..] == old(remainingTime[..])[p := old(remainingTime[p]) - timeSlice]
    ensures schedule' == schedule + [Entry(Proc(p), timeSlice)] && now == currentTime + timeSlice
  {
    p := queue[0];
    rest := queue[1..];
    timeSlice := Min(input.timeQuantum, remainingTime[p]);
    response' := response;
    if !started[p] {
      response' := response[p := currentTime - input.arrivalTime[p]];
      started[p] := true;
    }
    schedule' := schedule + [Entry(Proc(p), timeSlice)];
    remainingTime[p] := remainingTime[p] - timeSlice;
    now := currentTime + timeSlice;
  }

  /** The second half of a dispatch cycle (rr.js:162-184): requeue the
      process or record its completion, charge a context switch when
      processes are left waiting, and log a snapshot. */
  method EndSlice(input: Input, p: nat, remaining: int, currentTime: int, queue: seq<nat>, completion: seq<int>,
                  schedule: seq<Entry>, timeLog: seq<TimeLog>, switches: int)
    returns (now: int, queue': seq<nat>, completion': seq<int>, schedule': seq<Entry>, timeLog': seq<TimeLog>, switches': int)
    requires p < |completion|
    ensures queue' == queue + (if remaining > 0 then [p] else [])
    ensures completion' == if remaining > 0 then completion else completion[p := currentTime]
    ensures var switch := input.contextSwitch > 0 && |queue'| > 0;
      && schedule' == schedule + (if switch then [Entry(CS, input.contextSwitch)] else [])
      && now == currentTime + (if switch then input.contextSwitch else 0)
      && switches' == switches + (if switch then 1 else 0)
    ensures timeLog' == timeLog + [TimeLog(now, queue', if remaining > 0 then [p] else [], if remaining > 0 then [] else [p])]
  {
    queue', completion' := queue, completion;
    if remaining > 0 {
      queue' := queue' + [p];
    } else {
      completion' := completion[p := currentTime];
      assert queue' == queue + [];
    }
    now, schedule', switches' := currentTime, schedule, switches;
    if input.contextSwitch > 0 && |queue'| > 0 {
      schedule' := schedule' + [Entry(CS, input.contextSwitch)];
      now := now + input.contextSwitch;
      switches' := switches' + 1;
    } else {
      assert schedule' == schedule + [];
    }
    timeLog' := timeLog + [TimeLog(now, queue', if remaining > 0 then [p] else [], if remaining > 0 then [] else [p])];
  }

  /** One dispatch cycle (rr.js:138-184): shift the head of the queue,
      run it for one slice, admit what arrived meanwhile, requeue or
      complete it, charge a context switch and log a snapshot. */
  method DispatchCycle(input: Input, remainingTime: array<int>, arrived: array<bool>, started: array<bool>,
                       currentTime: int, queue: seq<nat>, completion: seq<int>, response: seq<int>,
                       schedule: seq<Entry>, timeLog: seq<TimeLog>, switches: int)
    returns (now: int, queue': seq<nat>, completion': seq<int>, response': seq<int>,
             schedule': seq<Entry>, timeLog': seq<TimeLog>, switches': int)
    requires arrived != started
    requires Inv(input, Sim(remainingTime[..], currentTime, queue, arrived[..], started[..],
                            completion, response, schedule, timeLog, switches))
    requires |queue| > 0
    modifies remainingTime, arrived, started
    ensures Sim(remainingTime[..], now, queue', arrived[..], started[..], completion', response', schedule', timeLog', switches')
         == Dispatch(input, Sim(old(remainingTime[..]), currentTime, queue, old(arrived[..]), old(started[..]),
                                completion, response, schedule, timeLog, switches))
  {
    ghost var s := Sim(remainingTime[..], currentTime, queue, arrived[..], started[..],
                       completion, response, schedule, timeLog, switches);
    HeadReady(input, s);
    var p, timeSlice, rest, sliced;
    p, timeSlice, rest, response', sliced, now := StartSlice(input, remainingTime, started, currentTime, queue, response, schedule);
    var admitted := AdmitDuringSlice(input, arrived, rest, now);
    now, queue', completion', schedule', timeLog', switches' :=
      EndSlice(input, p, remainingTime[p], now, admitted, completion, sliced, timeLog, switches);
  }

  /** One unfolding of `Run` when the pass finds the queue empty and some
      process still has time left: the idle tick of rr.js:130-132. */
  lemma RunIdle(input: Input, s: Sim)
    requires Inv(input, s) && |Scan(input, s).queue| == 0 && AnyRemaining(s.remaining)
    ensures Inv(input, IdleTick(Scan(input, s)))
    ensures Run(input, s) == Run(input, IdleTick(Scan(input, s)))
    ensures MaxOf(input.arrivalTime) > s.currentTime
  {
    LoopPass(input, s);
  }

  /** One unfolding of `Run` when the pass finds nothing left to do: the
      `break` of rr.js:134. */
  lemma RunDone(input: Input, s: Sim)
    requires Inv(input, s) && |Scan(input, s).queue| == 0 && !AnyRemaining(s.remaining)
    ensures Run(input, s) == Scan(input, s)
  {
    LoopPass(input, s);
  }

  /** One unfolding of `Run` when the pass dispatches the head of the queue
      (rr.js:138-184). */
  lemma RunDispatch(input: Input, s: Sim)
    requires Inv(input, s) && |Scan(input, s).queue| > 0
    ensures Inv(input, Scan(input, s))
    ensures Inv(input, Dispatch(input, Scan(input, s)))
    ensures Run(input, s) == Run(input, Dispatch(input, Scan(input, s)))
    ensures 0 <= Sum(Dispatch(input, Scan(input, s)).remaining) < Sum(s.remaining)
  {
    LoopPass(input, s);
    SumNonNegative(Dispatch(input, Scan(input, s)).remaining);
  }

  /** One pass of the body of the `while (true)` loop (rr.js:113-184):
      the admission scan, then the idle tick (`continue`), the end of the
      run (`break`, reported as `done`) or one dispatch cycle. */
  method Pass(input: Input, remainingTime: array<int>, arrived: array<bool>, started: array<bool>,
              currentTime: int, queue: seq<nat>, completion: seq<int>, response: seq<int>,
              schedule: seq<Entry>, timeLog: seq<TimeLog>, switches: int)
    returns (done: bool, now: int, queue': seq<nat>, completion': seq<int>, response': seq<int>,
             schedule': seq<Entry>, timeLog': seq<TimeLog>, switches': int)
    requires arrived != started
    requires Inv(input, Sim(remainingTime[..], currentTime, queue, arrived[..], started[..],
                            completion, response, schedule, timeLog, switches))
    modifies remainingTime, arrived, started
    ensures Inv(input, Scan(input, Sim(old(remainingTime[..]), currentTime, queue, old(arrived[..]), old(started[..]),
                                       completion, response, schedule, timeLog, switches)))
    ensures var s := Sim(old(remainingTime[..]), currentTime, queue, old(arrived[..]), old(started[..]),
                         completion, response, schedule, timeLog, switches);
      var s' := Sim(remainingTime[..], now, queue', arrived[..], started[..], completion', response', schedule', timeLog', switches');
      && (done <==> |Scan(input, s).queue| == 0 && !AnyRemaining(s.remaining))
      && (done ==> s' == Scan(input, s))
      && (!done && |Scan(input, s).queue| == 0 ==> s' == IdleTick(Scan(input, s)))
      && (|Scan(input, s).queue| > 0 ==> s' == Dispatch(input, Scan(input, s)))
  {
    ghost var s := Sim(remainingTime[..], currentTime, queue, arrived[..], started[..], completion, response, schedule, timeLog, switches);
    ScanKeepsInv(input, s);
    now, completion', response', schedule', switches' := currentTime, completion, response, schedule, switches;
    queue', timeLog' := AdmitArrivals(input, arrived, queue, timeLog, currentTime);
    ghost var s1 := Scan(input, s);
    assert s1 == Sim(remainingTime[..], now, queue', arrived[..], started[..], completion', response', schedule', timeLog', switches');
    if |queue'| == 0 {
      var some := SomeRemaining(remainingTime);
      if some {
        now := now + 1;
        schedule' := schedule' + [Entry(Idle, 1)];
        return false, now, queue', completion', response', schedule', timeLog', switches';
      } else {
        return true, now, queue', completion', response', schedule', timeLog', switches';
      }
    }
    done := false;
    now, queue', completion', response', schedule', timeLog', switches' :=
      DispatchCycle(input, remainingTime, arrived, started, now, queue', completion', response', schedule', timeLog', switches');
  }

  /** The `while (true)` loop of rr.js:112-185, run from any state the
      loop can be in: its arrays and outputs end as in the state `Run`
      computes. */
  method SchedulerLoop(input: Input, remainingTime: array<int>, arrived: array<bool>, started: array<bool>,
                       currentTime0: int, queue0: seq<nat>, completion0: seq<int>, response0: seq<int>,
                       schedule0: seq<Entry>, timeLog0: seq<TimeLog>, switches0: int)
    returns (completion: seq<int>, response: seq<int>, schedule: seq<Entry>, timeLog: seq<TimeLog>, switches: int)
    requires arrived != started
    requires Inv(input, Sim(remainingTime[..], currentTime0, queue0, arrived[..], started[..],
                            completion0, response0, schedule0, timeLog0, switches0))
    modifies remainingTime, arrived, started
    ensures var f := Run(input, Sim(old(remainingTime[..]), currentTime0, queue0, old(arrived[..]), old(started[..]),
                                    completion0, response0, schedule0, timeLog0, switches0));
      && completion == f.completion && response == f.response && schedule == f.schedule
      && timeLog == f.timeLog && switches == f.contextSwitches
      && remainingTime[..] == f.remaining && arrived[..] == f.arrived && started[..] == f.started
  {
    ghost var target := Run(input, Sim(remainingTime[..], currentTime0, queue0, arrived[..], started[..],
                                       completion0, response0, schedule0, timeLog0, switches0));
    var currentTime, queue := currentTime0, queue0;
    completion, response, schedule, timeLog, switches := completion0, response0, schedule0, timeLog0, switches0;
    ghost var s := Sim(remainingTime[..], currentTime, queue, arrived[..], started[..], completion, response, schedule, timeLog, switches);
    while true
      invariant s == Sim(remainingTime[..], currentTime, queue, arrived[..], started[..], completion, response, schedule, timeLog, switches)
      invariant Inv(input, s) && Run(input, s) == target
      decreases Sum(s.remaining), MaxOf(input.arrivalTime) - s.currentTime
    {
      var done;
      done, currentTime, queue, completion, response, schedule, timeLog, switches :=
        Pass(input, remainingTime, arrived, started, currentTime, queue, completion, response, schedule, timeLog, switches);
      if done {
        RunDone(input, s);
        break;
      }
      if |Scan(input, s).queue| == 0 {
        RunIdle(input, s);
        s := IdleTick(Scan(input, s));
      } else {
        RunDispatch(input, s);
        s := Dispatch(input, Scan(input, s));
      }
    }
  }

  /** `roundRobinScheduler(input, output)` (rr.js:99-191) without the
      averages of rr.js:194-198; the output record it fills in is
      returned. */
  method RoundRobinScheduler(input: Input) returns (output: Output)
    requires ValidInput(input)
    ensures output == Simulate(input)
  {
    var n := |input.processId|;
    var remainingTime := new int[n](i requires 0 <= i < n => input.burstTime[i]);
    var arrived := new bool[n](_ => false);
    var started := new bool[n](_ => false);
    InitInv(input);
    assert remainingTime[..] == input.burstTime;
    assert Sim(remainingTime[..], 0, [], arrived[..], started[..], seq(n, _ => 0), seq(n, _ => 0), [], [TimeLog(0, [], [], [])], 0)
        == Init(input);
    var completion, response, schedule, timeLog, switches :=
      SchedulerLoop(input, remainingTime, arrived, started, 0, [], seq(n, _ => 0), seq(n, _ => 0), [], [TimeLog(0, [], [], [])], 0);
    var turnAroundTime, waitingTime := Metrics(completion, input.arrivalTime, input.burstTime);
    output := Output(completion, turnAroundTime, waitingTime, response, schedule, timeLog, switches);
  }

  /** Turnaround and waiting time of every process (rr.js:188-191). */
  method Metrics(completion: seq<int>, arrival: seq<int>, burst: seq<int>) returns (turnAround: seq<int>, waiting: seq<int>)
    requires |completion| == |arrival| == |burst|
    ensures turnAround == Turnaround(completion, arrival)
    ensures waiting == Waiting(turnAround, burst)
  {
    turnAround := [];
    waiting := [];
    var i := 0;
    while i < |completion|
      invariant 0 <= i <= |completion| && |turnAround| == i && |waiting| == i
      invariant forall k :: 0 <= k < i ==> turnAround[k] == completion[k] - arrival[k]
      invariant forall k :: 0 <= k < i ==> waiting[k] == turnAround[k] - burst[k]
    {
      turnAround := turnAround + [completion[i] - arrival[i]];
      waiting := waiting + [turnAround[i] - burst[i]];
      i := i + 1;
    }
  }
}
