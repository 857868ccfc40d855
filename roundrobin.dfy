/** The records rr.js passes to and fills in by `roundRobinScheduler`
    (rr.js:65-96) and a functional reference model of that function
    (rr.js:99-191): one pass of its `while (true)` loop is `Scan` followed
    by `IdleTick` or `Dispatch`, the loop is `Run`, the whole call is
    `Simulate`. */
module RoundRobin {
  import opened Timeline

  /** `class Input` (rr.js:65-74) without its unused `algorithm` field.
      Process `i` is the `i`-th entry of the three arrays. */
  datatype Input = Input(
    processId: seq<int>,
    arrivalTime: seq<int>,
    burstTime: seq<int>,
    timeQuantum: int,
    contextSwitch: int)

  /** `class TimeLog` (rr.js:89-96): a snapshot of the ready queue, with the
      process that was just preempted (`running`) or just finished
      (`terminate`) when the snapshot closes a dispatch. */
  datatype TimeLog = TimeLog(time: int, ready: seq<nat>, running: seq<nat>, terminate: seq<nat>)

  /** `class Output` (rr.js:76-87) without the floating-point `averageTimes`. */
  datatype Output = Output(
    completionTime: seq<int>,
    turnAroundTime: seq<int>,
    waitingTime: seq<int>,
    responseTime: seq<int>,
    schedule: seq<Entry>,
    timeLog: seq<TimeLog>,
    contextSwitches: int)

  /** What the input form guarantees before the scheduler runs: one arrival
      and one burst per process, a quantum of at least 1, arrivals of at
      least 0 and bursts of at least 1. */
  predicate ValidInput(input: Input)
  {
    && |input.arrivalTime| == |input.processId|
    && |input.burstTime| == |input.processId|
    && input.timeQuantum >= 1
    && (forall i :: 0 <= i < |input.processId| ==> input.arrivalTime[i] >= 0 && input.burstTime[i] >= 1)
  }

  function Min(a: int, b: int): int
  {
    if a <= b then a else b
  }

  predicate NoDups(q: seq<nat>)
  {
    forall a, b :: 0 <= a < b < |q| ==> q[a] != q[b]
  }

  function Sum(s: seq<int>): int
  {
    if s == [] then 0 else Sum(s[..|s| - 1]) + s[|s| - 1]
  }

  /** The largest element, as `reduce((a, b) => Math.max(a, b), 0)` computes
      it for non-negative elements; 0 for the empty sequence. */
  function MaxOf(s: seq<int>): (r: int)
    ensures forall i :: 0 <= i < |s| ==> s[i] <= r
    ensures s == [] ==> r == 0
    ensures s != [] ==> exists i :: 0 <= i < |s| && s[i] == r
  {
    if s == [] then 0
    else
      var m := MaxOf(s[..|s| - 1]);
      assert forall i :: 0 <= i < |s| - 1 ==> s[..|s| - 1][i] == s[i];
      if |s| == 1 || s[|s| - 1] >= m then s[|s| - 1] else m
  }

  /** `remainingTime.some(t => t > 0)` (rr.js:128). */
  predicate AnyRemaining(remaining: seq<int>)
  {
    exists j :: 0 <= j < |remaining| && remaining[j] > 0
  }

  /** The processes among the first `k` that an admission scan at time `t`
      enqueues (rr.js:114-115 and 154-155): not yet arrived and with an
      arrival time of at most `t`, in index order. */
  function Arrivals(arrival: seq<int>, arrived: seq<bool>, t: int, k: nat): seq<nat>
    requires k <= |arrival| && k <= |arrived|
  {
    if k == 0 then []
    else Arrivals(arrival, arrived, t, k - 1) + (if !arrived[k - 1] && arrival[k - 1] <= t then [k - 1] else [])
  }

  /** The newcomers are exactly the processes among the first `k` that
      had not arrived and whose arrival time has come. */
  lemma {:induction false} ArrivalsAre(arrival: seq<int>, arrived: seq<bool>, t: int, k: nat)
    requires k <= |arrival| && k <= |arrived|
    ensures forall m :: 0 <= m < |Arrivals(arrival, arrived, t, k)| ==>
      && Arrivals(arrival, arrived, t, k)[m] < k
      && !arrived[Arrivals(arrival, arrived, t, k)[m]]
      && arrival[Arrivals(arrival, arrived, t, k)[m]] <= t
    ensures forall j: nat {:trigger j in Arrivals(arrival, arrived, t, k)} :: j < k ==>
      (j in Arrivals(arrival, arrived, t, k) <==> !arrived[j] && arrival[j] <= t)
  {
    if k > 0 {
      var r := Arrivals(arrival, arrived, t, k);
      var r' := Arrivals(arrival, arrived, t, k - 1);
      ArrivalsAre(arrival, arrived, t, k - 1);
      if !arrived[k - 1] && arrival[k - 1] <= t {
        assert r == r' + [k - 1];
      } else {
        assert r == r';
      }
      forall m | 0 <= m < |r|
        ensures r[m] < k && !arrived[r[m]] && arrival[r[m]] <= t
      {
        if m < |r'| {
          assert r[m] == r'[m];
        }
      }
      forall j: nat | j < k
        ensures j in r <==> !arrived[j] && arrival[j] <= t
      {
        assert j in r <==> j in r' || (j == k - 1 && !arrived[k - 1] && arrival[k - 1] <= t);
      }
    }
  }

  /** Newcomers are admitted in index order, so none is admitted twice. */
  lemma {:induction false} ArrivalsIncreasing(arrival: seq<int>, arrived: seq<bool>, t: int, k: nat)
    requires k <= |arrival| && k <= |arrived|
    ensures forall a, b :: 0 <= a < b < |Arrivals(arrival, arrived, t, k)| ==>
      Arrivals(arrival, arrived, t, k)[a] < Arrivals(arrival, arrived, t, k)[b]
  {
    if k > 0 {
      var r := Arrivals(arrival, arrived, t, k);
      var r' := Arrivals(arrival, arrived, t, k - 1);
      ArrivalsIncreasing(arrival, arrived, t, k - 1);
      ArrivalsAre(arrival, arrived, t, k - 1);
      if !arrived[k - 1] && arrival[k - 1] <= t {
        assert r == r' + [k - 1];
      } else {
        assert r == r';
      }
      forall a, b | 0 <= a < b < |r|
        ensures r[a] < r[b]
      {
        if b < |r'| {
          assert r[a] == r'[a] && r[b] == r'[b];
        } else {
          assert r[a] == r'[a] && r[b] == k - 1;
        }
      }
    }
  }

  /** The processes among the first `k` whose arrival time lies in
      `(lo, hi]`, in index order. */
  function ArrivedBetween(arrival: seq<int>, lo: int, hi: int, k: nat): (r: seq<nat>)
    requires k <= |arrival|
    ensures forall j: nat {:trigger j in r} :: j < k ==> (j in r <==> lo < arrival[j] <= hi)
    ensures forall m :: 0 <= m < |r| ==> r[m] < k
  {
    if k == 0 then []
    else ArrivedBetween(arrival, lo, hi, k - 1) + (if lo < arrival[k - 1] <= hi then [k - 1] else [])
  }

  /** The `arrived` flags after an admission scan at time `t`. */
  function MarkArrived(arrival: seq<int>, arrived: seq<bool>, t: int): seq<bool>
    requires |arrived| <= |arrival|
  {
    seq(|arrived|, j requires 0 <= j < |arrived| => arrived[j] || arrival[j] <= t)
  }

  /** The snapshots the top-of-loop scan logs (rr.js:119-122): one per
      admitted process, holding the queue right after that push. */
  function AdmissionLog(queue: seq<nat>, admitted: seq<nat>, t: int): seq<TimeLog>
  {
    seq(|admitted|, m requires 0 <= m < |admitted| => TimeLog(t, queue + admitted[..m + 1], [], []))
  }

  /** Turnaround times (rr.js:189). */
  function Turnaround(completion: seq<int>, arrival: seq<int>): seq<int>
    requires |completion| <= |arrival|
  {
    seq(|completion|, i requires 0 <= i < |completion| => completion[i] - arrival[i])
  }

  /** Waiting times (rr.js:190). */
  function Waiting(turnaround: seq<int>, burst: seq<int>): seq<int>
    requires |turnaround| <= |burst|
  {
    seq(|turnaround|, i requires 0 <= i < |turnaround| => turnaround[i] - burst[i])
  }

  /** The local state of `roundRobinScheduler` at the top of its loop,
      together with the parts of `output` that the loop writes. */
  datatype Sim = Sim(
    remaining: seq<int>,
    currentTime: int,
    queue: seq<nat>,
    arrived: seq<bool>,
    started: seq<bool>,
    completion: seq<int>,
    response: seq<int>,
    schedule: seq<Entry>,
    timeLog: seq<TimeLog>,
    contextSwitches: int)

  /** The state before the loop (rr.js:100-110). The sparse JavaScript
      arrays `completionTime` and `responseTime` start as zeros here. */
  function Init(input: Input): Sim
  {
    var n := |input.processId|;
    Sim(input.burstTime, 0, [], seq(n, _ => false), seq(n, _ => false),
        seq(n, _ => 0), seq(n, _ => 0), [], [TimeLog(0, [], [], [])], 0)
  }

  /** What holds at the top of every loop pass: the ready queue holds,
      each once, exactly the arrived processes with time left; a process
      that has not arrived has all of its burst left. */
  predicate Inv(input: Input, s: Sim)
  {
    && ValidInput(input)
    && |s.started| == |input.processId|
    && |s.completion| == |input.processId|
    && |s.response| == |input.processId|
    && QueueInv(input, s.remaining, s.arrived, s.queue, s.currentTime)
  }

  predicate QueueInv(input: Input, remaining: seq<int>, arrived: seq<bool>, queue: seq<nat>, now: int)
  {
    && |remaining| == |input.processId|
    && |arrived| == |input.processId|
    && |input.arrivalTime| == |input.processId|
    && |input.burstTime| == |input.processId|
    && (forall j :: 0 <= j < |input.processId| ==> 0 <= remaining[j] <= input.burstTime[j])
    && (forall j :: 0 <= j < |input.processId| && arrived[j] ==> input.arrivalTime[j] <= now)
    && (forall j :: 0 <= j < |input.processId| && !arrived[j] ==> remaining[j] == input.burstTime[j])
    && (forall m :: 0 <= m < |queue| ==> queue[m] < |input.processId|)
    && NoDups(queue)
    && (forall j: nat {:trigger j in queue} :: j < |input.processId| ==> (j in queue <==> arrived[j] && remaining[j] > 0))
  }

  /** Right after an admission scan: every process whose arrival time has
      come has arrived. */
  predicate Scanned(input: Input, s: Sim)
    requires Inv(input, s)
  {
    forall j :: 0 <= j < |input.processId| && !s.arrived[j] ==> input.arrivalTime[j] > s.currentTime
  }

  /** The per-process arrays of the state have one slot per process: all
      that `Scan` and `Dispatch` need to be defined. */
  predicate Sized(input: Input, s: Sim)
  {
    && |input.arrivalTime| == |input.processId|
    && |s.remaining| == |input.processId| && |s.arrived| == |input.processId|
    && |s.started| == |input.processId| && |s.completion| == |input.processId|
    && |s.response| == |input.processId|
  }

  /** The admission scan at the top of the loop (rr.js:114-124). */
  function Scan(input: Input, s: Sim): Sim
    requires Sized(input, s)
  {
    var admitted := Arrivals(input.arrivalTime, s.arrived, s.currentTime, |input.processId|);
    s.(arrived := MarkArrived(input.arrivalTime, s.arrived, s.currentTime),
       queue := s.queue + admitted,
       timeLog := s.timeLog + AdmissionLog(s.queue, admitted, s.currentTime))
  }

  /** An idle tick (rr.js:130-132). */
  function IdleTick(s: Sim): Sim
  {
    s.(currentTime := s.currentTime + 1, schedule := s.schedule + [Entry(Idle, 1)])
  }

  /** One dispatch cycle (rr.js:139-184): run the head of the queue for
      one slice, admit what arrived meanwhile, requeue or complete the
      process, charge a context switch and log a snapshot. */
  function Dispatch(input: Input, s: Sim): Sim
    requires Sized(input, s) && |s.queue| > 0 && s.queue[0] < |input.processId|
  {
    var p := s.queue[0];
    var slice := Min(input.timeQuantum, s.remaining[p]);
    var response := if s.started[p] then s.response else s.response[p := s.currentTime - input.arrivalTime[p]];
    var started := if s.started[p] then s.started else s.started[p := true];
    var remaining := s.remaining[p := s.remaining[p] - slice];
    var t := s.currentTime + slice;
    var sliced := s.schedule + [Entry(Proc(p), slice)];
    var newcomers := Arrivals(input.arrivalTime, s.arrived, t, |input.processId|);
    var arrived := MarkArrived(input.arrivalTime, s.arrived, t);
    var queue := s.queue[1..] + newcomers + (if remaining[p] > 0 then [p] else []);
    var completion := if remaining[p] > 0 then s.completion else s.completion[p := t];
    var switch := input.contextSwitch > 0 && |queue| > 0;
    var gap := if switch then [Entry(CS, input.contextSwitch)] else [];
    var schedule := sliced + gap;
    var now := t + (if switch then input.contextSwitch else 0);
    var switches := s.contextSwitches + (if switch then 1 else 0);
    var log := TimeLog(now, queue, if remaining[p] > 0 then [p] else [], if remaining[p] > 0 then [] else [p]);
    Sim(remaining, now, queue, arrived, started, completion, response, schedule, s.timeLog + [log], switches)
  }

  /** The `while (true)` loop of rr.js:112-185, from a loop-top state to
      the state at the `break`. It ends because every dispatch lowers the
      total remaining time and an idle tick only happens while some
      process is still to arrive. */
  function Run(input: Input, s: Sim): (r: Sim)
    requires Inv(input, s)
    ensures Inv(input, r)
    ensures r.queue == []
    ensures forall j :: 0 <= j < |input.processId| ==> r.remaining[j] == 0
    decreases Sum(s.remaining), MaxOf(input.arrivalTime) - s.currentTime
  {
    LoopPass(input, s);
    var s1 := Scan(input, s);
    if |s1.queue| == 0 then
      if AnyRemaining(s1.remaining) then Run(input, IdleTick(s1)) else s1
    else
      Run(input, Dispatch(input, s1))
  }

  /** `roundRobinScheduler` (rr.js:99-191) as a function of its input. */
  function Simulate(input: Input): Output
    requires ValidInput(input)
  {
    InitInv(input);
    var f := Run(input, Init(input));
    var turnaround := Turnaround(f.completion, input.arrivalTime);
    Output(f.completion, turnaround, Waiting(turnaround, input.burstTime), f.response,
           f.schedule, f.timeLog, f.contextSwitches)
  }

  // ---------------------------------------------------------------------
  // Lemmas that keep Run well defined

  /** What one pass of the loop needs for the next pass to be well
      defined and closer to the end. */
  lemma LoopPass(input: Input, s: Sim)
    requires Inv(input, s)
    ensures Inv(input, Scan(input, s))
    ensures Sum(s.remaining) >= 0
    ensures Scan(input, s).remaining == s.remaining && Scan(input, s).currentTime == s.currentTime
    ensures |Scan(input, s).queue| == 0 && AnyRemaining(s.remaining) ==>
      Inv(input, IdleTick(Scan(input, s))) && MaxOf(input.arrivalTime) > s.currentTime
    ensures |Scan(input, s).queue| == 0 && !AnyRemaining(s.remaining) ==>
      forall j :: 0 <= j < |input.processId| ==> s.remaining[j] == 0
    ensures |Scan(input, s).queue| > 0 ==>
      Inv(input, Dispatch(input, Scan(input, s))) && Sum(Dispatch(input, Scan(input, s)).remaining) < Sum(s.remaining)
  {
    ScanKeepsInv(input, s);
    SumNonNegative(s.remaining);
    var s1 := Scan(input, s);
    if |s1.queue| > 0 {
      DispatchKeepsInv(input, s1);
    } else if AnyRemaining(s.remaining) {
      IdleProgress(input, s1);
    } else {
      forall j | 0 <= j < |input.processId|
        ensures s.remaining[j] == 0
      {
        assert !(s.remaining[j] > 0);
      }
    }
  }

  lemma InitInv(input: Input)
    requires ValidInput(input)
    ensures Inv(input, Init(input))
  {
  }

  lemma {:induction false} SumUpdate(s: seq<int>, p: nat, v: int)
    requires p < |s|
    ensures Sum(s[p := v]) == Sum(s) - s[p] + v
  {
    if p < |s| - 1 {
      assert s[p := v][..|s| - 1] == s[..|s| - 1][p := v];
      SumUpdate(s[..|s| - 1], p, v);
    } else {
      assert s[p := v][..|s| - 1] == s[..|s| - 1];
    }
  }

  lemma {:induction false} SumNonNegative(s: seq<int>)
    requires forall j :: 0 <= j < |s| ==> s[j] >= 0
    ensures Sum(s) >= 0
  {
    if s != [] {
      SumNonNegative(s[..|s| - 1]);
    }
  }

  lemma NoDupsAppend(a: seq<nat>, b: seq<nat>)
    requires NoDups(a) && NoDups(b)
    requires forall m :: 0 <= m < |b| ==> b[m] !in a
    ensures NoDups(a + b)
  {
    forall x, y | 0 <= x < y < |a + b|
      ensures (a + b)[x] != (a + b)[y]
    {
      if y >= |a| && x < |a| {
        assert (a + b)[y] == b[y - |a|];
        assert (a + b)[x] in a;
      }
    }
  }

  lemma IncreasingNoDups(r: seq<nat>)
    requires forall a, b :: 0 <= a < b < |r| ==> r[a] < r[b]
    ensures NoDups(r)
  {
  }

  /** The flags after a scan: a process has arrived when it had before or
      when its arrival time has come. */
  lemma MarkArrivedAt(arrival: seq<int>, arrived: seq<bool>, t: int)
    requires |arrived| <= |arrival|
    ensures |MarkArrived(arrival, arrived, t)| == |arrived|
    ensures forall j :: 0 <= j < |arrived| ==> MarkArrived(arrival, arrived, t)[j] == (arrived[j] || arrival[j] <= t)
  {
  }

  /** A scan finds nobody when every process has either arrived already
      or is still to come. */
  lemma ArrivalsNone(arrival: seq<int>, arrived: seq<bool>, t: int, k: nat)
    requires k <= |arrival| && k <= |arrived|
    requires forall j :: 0 <= j < k ==> arrived[j] || arrival[j] > t
    ensures Arrivals(arrival, arrived, t, k) == []
  {
    ArrivalsAre(arrival, arrived, t, k);
  }

  /** With nothing due, the top-of-loop scan leaves the state as it was:
      no process is admitted and no snapshot is logged. */
  lemma ScanNothingDue(input: Input, s: Sim)
    requires Sized(input, s)
    requires forall j :: 0 <= j < |input.processId| ==> s.arrived[j] || input.arrivalTime[j] > s.currentTime
    ensures Scan(input, s) == s
  {
    ArrivalsNone(input.arrivalTime, s.arrived, s.currentTime, |input.processId|);
    MarkArrivedAt(input.arrivalTime, s.arrived, s.currentTime);
    assert MarkArrived(input.arrivalTime, s.arrived, s.currentTime) == s.arrived;
    assert AdmissionLog(s.queue, [], s.currentTime) == [];
    assert s.queue + [] == s.queue && s.timeLog + [] == s.timeLog;
  }

  lemma ScanKeepsInv(input: Input, s: Sim)
    requires Inv(input, s)
    ensures Inv(input, Scan(input, s))
    ensures Scanned(input, Scan(input, s))
    ensures Scan(input, s).remaining == s.remaining && Scan(input, s).currentTime == s.currentTime
    ensures Scan(input, s).schedule == s.schedule
  {
    var n := |input.processId|;
    var admitted := Arrivals(input.arrivalTime, s.arrived, s.currentTime, n);
    MarkArrivedAt(input.arrivalTime, s.arrived, s.currentTime);
    ArrivalsIncreasing(input.arrivalTime, s.arrived, s.currentTime, n);
    ArrivalsAre(input.arrivalTime, s.arrived, s.currentTime, n);
    IncreasingNoDups(admitted);
    forall m | 0 <= m < |admitted|
      ensures admitted[m] !in s.queue
    {
      var j := admitted[m];
      assert !s.arrived[j];
    }
    NoDupsAppend(s.queue, admitted);
    var s1 := Scan(input, s);
    forall j: nat | j < n
      ensures j in s1.queue <==> s1.arrived[j] && s1.remaining[j] > 0
    {
      assert j in s1.queue <==> j in s.queue || j in admitted;
    }
  }

  /** An idle tick happens only while some process is still to arrive, so
      the clock stays below the latest arrival time. */
  lemma IdleProgress(input: Input, s: Sim)
    requires Inv(input, s) && Scanned(input, s)
    requires s.queue == [] && AnyRemaining(s.remaining)
    ensures Inv(input, IdleTick(s))
    ensures exists j :: 0 <= j < |input.processId| && input.arrivalTime[j] > s.currentTime
    ensures MaxOf(input.arrivalTime) > s.currentTime
  {
    var j :| 0 <= j < |s.remaining| && s.remaining[j] > 0;
    assert j !in s.queue;
  }

  lemma DispatchKeepsInv(input: Input, s: Sim)
    requires Inv(input, s) && |s.queue| > 0
    ensures Inv(input, Dispatch(input, s))
    ensures Sum(Dispatch(input, s).remaining) < Sum(s.remaining)
  {
    var n := |input.processId|;
    var p := s.queue[0];
    var slice := Min(input.timeQuantum, s.remaining[p]);
    var t := s.currentTime + slice;
    var d := Dispatch(input, s);
    DispatchQueue(input, s);
    assert d.arrived == MarkArrived(input.arrivalTime, s.arrived, t);
    assert d.currentTime >= t;
    assert |d.started| == n && |d.completion| == n && |d.response| == n;
    assert p in s.queue;
    SumUpdate(s.remaining, p, s.remaining[p] - slice);
    RequeueKeepsInv(input, s.remaining, s.arrived, s.queue, s.currentTime, slice, d.remaining, d.arrived, d.queue);
    QueueInvLater(input, d.remaining, d.arrived, d.queue, t, d.currentTime);
  }

  /** The queue after a dispatch cycle: the rest of the old queue, then the
      processes that arrived during the slice, then the dispatched process
      if it has time left (rr.js:139, 154-164). */
  lemma DispatchQueue(input: Input, s: Sim)
    requires Inv(input, s) && |s.queue| > 0
    ensures Dispatch(input, s).remaining == s.remaining[s.queue[0] := s.remaining[s.queue[0]] - Min(input.timeQuantum, s.remaining[s.queue[0]])]
    ensures Dispatch(input, s).queue
         == s.queue[1..] + Arrivals(input.arrivalTime, s.arrived, s.currentTime + Min(input.timeQuantum, s.remaining[s.queue[0]]), |input.processId|)
            + (if Dispatch(input, s).remaining[s.queue[0]] > 0 then [s.queue[0]] else [])
    ensures Dispatch(input, s).remaining[s.queue[0]] > 0 ==> |Dispatch(input, s).queue| > 0
  {
  }

  /** The head of the queue is a process that has arrived and has time left. */
  lemma HeadReady(input: Input, s: Sim)
    requires Inv(input, s) && |s.queue| > 0
    ensures s.queue[0] < |input.processId| && s.arrived[s.queue[0]]
    ensures 0 < s.remaining[s.queue[0]] <= input.burstTime[s.queue[0]]
    ensures input.arrivalTime[s.queue[0]] <= s.currentTime
  {
    assert s.queue[0] in s.queue;
  }

  /** The queue invariant only depends on the clock through "arrived
      processes have arrival times that have come". */
  lemma QueueInvLater(input: Input, remaining: seq<int>, arrived: seq<bool>, queue: seq<nat>, now: int, later: int)
    requires QueueInv(input, remaining, arrived, queue, now) && now <= later
    ensures QueueInv(input, remaining, arrived, queue, later)
  {
  }

  /** Membership in the queue after its head is shifted off. */
  lemma ShiftMembership(queue: seq<nat>, j: nat)
    requires |queue| > 0 && NoDups(queue)
    ensures j in queue[1..] <==> j in queue && j != queue[0]
  {
    assert queue == [queue[0]] + queue[1..];
    if j in queue[1..] {
      var m :| 0 <= m < |queue[1..]| && queue[1..][m] == j;
      assert queue[m + 1] == j;
    }
  }

  /** The requeued queue holds no process twice and only real processes. */
  lemma RequeueShape(input: Input, arrived: seq<bool>, queue: seq<nat>, newcomers: seq<nat>, back: seq<nat>)
    requires NoDups(queue) && |queue| > 0 && |arrived| == |input.processId|
    requires forall m :: 0 <= m < |queue| ==> queue[m] < |input.processId| && arrived[queue[m]]
    requires forall m :: 0 <= m < |newcomers| ==> newcomers[m] < |input.processId| && !arrived[newcomers[m]]
    requires forall a, b :: 0 <= a < b < |newcomers| ==> newcomers[a] < newcomers[b]
    requires back == [] || back == [queue[0]]
    ensures NoDups(queue[1..] + newcomers + back)
    ensures forall m :: 0 <= m < |queue[1..] + newcomers + back| ==> (queue[1..] + newcomers + back)[m] < |input.processId|
  {
    var p := queue[0];
    var rest := queue[1..];
    IncreasingNoDups(newcomers);
    assert p !in rest by {
      ShiftMembership(queue, p);
    }
    assert forall m :: 0 <= m < |newcomers| ==> newcomers[m] !in rest;
    NoDupsAppend(rest, newcomers);
    var front := rest + newcomers;
    if back != [] {
      assert p !in newcomers;
      assert p !in front;
    }
    NoDupsAppend(front, back);
    forall m | 0 <= m < |front|
      ensures front[m] < |input.processId|
    {
      if m < |rest| {
        assert front[m] == queue[m + 1];
      } else {
        assert front[m] == newcomers[m - |rest|];
      }
    }
    forall m | 0 <= m < |front + back|
      ensures (front + back)[m] < |input.processId|
    {
      if m >= |front| {
        assert (front + back)[m] == p;
      }
    }
  }

  /** The queue invariant survives one slice of the head process, the
      admission scan at the end of the slice and the requeue. */
  lemma RequeueKeepsInv(input: Input, remaining: seq<int>, arrived: seq<bool>, queue: seq<nat>, now: int, slice: int,
                        rem: seq<int>, arr: seq<bool>, q: seq<nat>)
    requires ValidInput(input) && QueueInv(input, remaining, arrived, queue, now) && |queue| > 0
    requires 1 <= slice <= remaining[queue[0]]
    requires rem == remaining[queue[0] := remaining[queue[0]] - slice]
    requires arr == MarkArrived(input.arrivalTime, arrived, now + slice)
    requires q == queue[1..] + Arrivals(input.arrivalTime, arrived, now + slice, |input.processId|)
                  + (if rem[queue[0]] > 0 then [queue[0]] else [])
    ensures QueueInv(input, rem, arr, q, now + slice)
  {
    var n := |input.processId|;
    var p := queue[0];
    var t := now + slice;
    var newcomers := Arrivals(input.arrivalTime, arrived, t, n);
    MarkArrivedAt(input.arrivalTime, arrived, t);
    forall m | 0 <= m < |queue|
      ensures queue[m] < n && arrived[queue[m]]
    {
      var j: nat := queue[m];
      assert j in queue;
    }
    var back: seq<nat> := if rem[p] > 0 then [p] else [];
    ArrivalsIncreasing(input.arrivalTime, arrived, t, n);
    ArrivalsAre(input.arrivalTime, arrived, t, n);
    RequeueShape(input, arrived, queue, newcomers, back);
    assert p in queue;
    forall j: nat | j < n
      ensures j in q <==> arr[j] && rem[j] > 0
    {
      assert j in newcomers <==> !arrived[j] && input.arrivalTime[j] <= t;
      RequeueMember(queue, newcomers, back, j, arrived[j], remaining[j], arr[j], rem[j], input.arrivalTime[j] <= t);
    }
    assert q == queue[1..] + newcomers + back;
    RequeueFlags(input, remaining, arrived, p, slice, rem, arr, now, t);
    assert forall m :: 0 <= m < |q| ==> q[m] < n;
    assert NoDups(q);
  }

  /** The per-process records after a slice of `p` and the scan at its
      end: times stay within the burst, arrived processes have come and
      processes not yet arrived are untouched. */
  lemma RequeueFlags(input: Input, remaining: seq<int>, arrived: seq<bool>, p: nat, slice: int,
                     rem: seq<int>, arr: seq<bool>, now: int, t: int)
    requires |remaining| == |arrived| == |input.arrivalTime| == |input.burstTime| == |input.processId|
    requires forall j :: 0 <= j < |input.processId| ==> 0 <= remaining[j] <= input.burstTime[j]
    requires forall j :: 0 <= j < |input.processId| && arrived[j] ==> input.arrivalTime[j] <= now
    requires forall j :: 0 <= j < |input.processId| && !arrived[j] ==> remaining[j] == input.burstTime[j]
    requires p < |input.processId| && arrived[p] && 1 <= slice <= remaining[p] && now <= t
    requires rem == remaining[p := remaining[p] - slice] && arr == MarkArrived(input.arrivalTime, arrived, t)
    ensures |rem| == |arr| == |input.processId|
    ensures forall j :: 0 <= j < |input.processId| ==> 0 <= rem[j] <= input.burstTime[j]
    ensures forall j :: 0 <= j < |input.processId| && arr[j] ==> input.arrivalTime[j] <= t
    ensures forall j :: 0 <= j < |input.processId| && !arr[j] ==> rem[j] == input.burstTime[j]
  {
    MarkArrivedAt(input.arrivalTime, arrived, t);
  }

  /** Membership of one process in the requeued queue: the head is back
      exactly when it has time left, a newcomer is in when it has just
      arrived, and every other process keeps its place. */
  lemma RequeueMember(queue: seq<nat>, newcomers: seq<nat>, back: seq<nat>, j: nat,
                      wasArrived: bool, wasRemaining: int, isArrived: bool, isRemaining: int, hasCome: bool)
    requires NoDups(queue) && |queue| > 0 && queue[0] in queue
    requires j in queue <==> wasArrived && wasRemaining > 0
    requires j in newcomers <==> !wasArrived && hasCome
    requires isArrived == (wasArrived || hasCome)
    requires !wasArrived ==> wasRemaining > 0
    requires j != queue[0] ==> isRemaining == wasRemaining && j !in back
    requires j == queue[0] ==> (j in back <==> isRemaining > 0)
    ensures j in queue[1..] + newcomers + back <==> isArrived && isRemaining > 0
  {
    ShiftMembership(queue, j);
  }
}
