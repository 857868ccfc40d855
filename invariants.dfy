/** Facts about the schedule, the per-process records and the snapshot
    log that every pass of the loop in rr.js:112-185 keeps, each proved
    for the admission scan, an idle tick and a dispatch cycle. */
module Invariants {
  import opened Timeline
  import opened RoundRobin

  /** The shape rr.js gives each kind of entry: a slice of a real process
      lasting 1 to `timeQuantum`, an idle tick of 1, or a context switch of
      `contextSwitch` when that is positive (rr.js:131, 149, 170). */
  predicate EntryOk(input: Input, e: Entry)
  {
    match e.who
    case Proc(i) => i < |input.processId| && 1 <= e.duration <= input.timeQuantum
    case Idle => e.duration == 1
    case CS => input.contextSwitch > 0 && e.duration == input.contextSwitch
  }

  /** Entry `k`, when it is a slice, is the smaller of the quantum and the
      time its process still had left at that point (rr.js:140). */
  predicate SliceOk(input: Input, h: seq<Entry>, k: nat)
    requires k < |h|
  {
    h[k].who.Proc? && h[k].who.id < |input.burstTime| ==>
      h[k].duration == Min(input.timeQuantum, input.burstTime[h[k].who.id] - TimeOf(h[..k], h[k].who))
  }

  /** The schedule accounts for the clock, for every unit of burst time
      already served and for every context switch charged. */
  predicate SchedInv(input: Input, s: Sim)
  {
    SchedOk(input, s.schedule, s.remaining, s.currentTime, s.contextSwitches)
  }

  predicate SchedOk(input: Input, h: seq<Entry>, remaining: seq<int>, now: int, switches: int)
  {
    && |remaining| == |input.processId|
    && |input.burstTime| == |input.processId|
    && (forall k :: 0 <= k < |h| ==> EntryOk(input, h[k]) && SliceOk(input, h, k))
    && Duration(h) == now
    && BusyTime(h) + Sum(remaining) == Sum(input.burstTime)
    && (forall j :: 0 <= j < |input.processId| ==> TimeOf(h, Proc(j)) + remaining[j] == input.burstTime[j])
    && switches == Count(h, CS)
  }

  lemma SlicesTimes(h: seq<Entry>, e: Entry)
    ensures forall j: nat :: TimeOf(h + [e], Proc(j)) == TimeOf(h, Proc(j)) + (if e.who == Proc(j) then e.duration else 0)
  {
    forall j: nat
      ensures TimeOf(h + [e], Proc(j)) == TimeOf(h, Proc(j)) + (if e.who == Proc(j) then e.duration else 0)
    {
      AppendSums(h, e, Proc(j));
    }
  }

  lemma ExtendSlices(input: Input, h: seq<Entry>, e: Entry)
    requires forall k :: 0 <= k < |h| ==> SliceOk(input, h, k)
    ensures forall k :: 0 <= k < |h| ==> SliceOk(input, h + [e], k)
  {
    forall k | 0 <= k < |h|
      ensures SliceOk(input, h + [e], k)
    {
      assert SliceOk(input, h, k);
      assert (h + [e])[..k] == h[..k];
      assert (h + [e])[k] == h[k];
    }
  }

  /** What may follow a slice or stand alone without serving burst time:
      nothing, an idle tick, or a context switch when switching costs time. */
  predicate Gap(input: Input, gap: seq<Entry>)
  {
    gap == [] || gap == [Entry(Idle, 1)] || (input.contextSwitch > 0 && gap == [Entry(CS, input.contextSwitch)])
  }

  /** Appending a gap: the clock moves, no burst time is served. */
  lemma SchedAppendGap(input: Input, h: seq<Entry>, remaining: seq<int>, now: int, switches: int, gap: seq<Entry>)
    requires SchedOk(input, h, remaining, now, switches) && Gap(input, gap)
    ensures SchedOk(input, h + gap, remaining, now + Duration(gap), switches + Count(gap, CS))
  {
    if gap == [] {
      assert h + gap == h;
    } else {
      var e := gap[0];
      assert [e][..0] == [];
      AppendSums(h, e, CS);
      SlicesTimes(h, e);
      ExtendSlices(input, h, e);
      assert SliceOk(input, h + [e], |h|);
      forall k | 0 <= k < |h + [e]|
        ensures EntryOk(input, (h + [e])[k])
      {
        if k < |h| {
          assert (h + [e])[k] == h[k];
        }
      }
    }
  }

  /** Appending a slice of `p`: the clock and the served time of `p` move
      by the slice. */
  lemma SchedAppendSlice(input: Input, h: seq<Entry>, remaining: seq<int>, now: int, switches: int, p: nat)
    requires SchedOk(input, h, remaining, now, switches)
    requires input.timeQuantum >= 1 && p < |input.processId| && remaining[p] > 0
    ensures var slice := Min(input.timeQuantum, remaining[p]);
      SchedOk(input, h + [Entry(Proc(p), slice)], remaining[p := remaining[p] - slice], now + slice, switches)
  {
    var slice := Min(input.timeQuantum, remaining[p]);
    var e := Entry(Proc(p), slice);
    AppendSums(h, e, CS);
    SlicesTimes(h, e);
    ExtendSlices(input, h, e);
    SumUpdate(remaining, p, remaining[p] - slice);
    assert (h + [e])[..|h|] == h;
    assert SliceOk(input, h + [e], |h|);
    forall k | 0 <= k < |h + [e]|
      ensures EntryOk(input, (h + [e])[k])
    {
      if k < |h| {
        assert (h + [e])[k] == h[k];
      }
    }
  }

  lemma SchedScan(input: Input, s: Sim)
    requires Inv(input, s) && SchedInv(input, s)
    ensures Inv(input, Scan(input, s)) && SchedInv(input, Scan(input, s))
  {
    ScanKeepsInv(input, s);
  }

  lemma SchedIdle(input: Input, s: Sim)
    requires SchedInv(input, s)
    ensures SchedInv(input, IdleTick(s))
  {
    assert [Entry(Idle, 1)][..0] == [];
    SchedAppendGap(input, s.schedule, s.remaining, s.currentTime, s.contextSwitches, [Entry(Idle, 1)]);
  }

  lemma SchedDispatch(input: Input, s: Sim)
    requires Inv(input, s) && |s.queue| > 0 && SchedInv(input, s)
    ensures SchedInv(input, Dispatch(input, s))
  {
    var p := s.queue[0];
    var slice := Min(input.timeQuantum, s.remaining[p]);
    var d := Dispatch(input, s);
    var sliced := s.schedule + [Entry(Proc(p), slice)];
    var rem := s.remaining[p := s.remaining[p] - slice];
    var gap := DispatchGap(input, s);
    assert p in s.queue;
    assert d.remaining == rem;
    assert d.schedule == sliced + gap;
    assert d.currentTime == s.currentTime + slice + Duration(gap);
    assert d.contextSwitches == s.contextSwitches + Count(gap, CS);
    SchedAppendSlice(input, s.schedule, s.remaining, s.currentTime, s.contextSwitches, p);
    SchedAppendGap(input, sliced, rem, s.currentTime + slice, s.contextSwitches, gap);
  }

  /** The context switch a dispatch cycle appends after its slice, if any. */
  function DispatchGap(input: Input, s: Sim): (gap: seq<Entry>)
    requires Inv(input, s) && |s.queue| > 0
    ensures Gap(input, gap)
    ensures Dispatch(input, s).schedule == s.schedule + [Entry(Proc(s.queue[0]), Min(input.timeQuantum, s.remaining[s.queue[0]]))] + gap
    ensures Dispatch(input, s).currentTime == s.currentTime + Min(input.timeQuantum, s.remaining[s.queue[0]]) + Duration(gap)
    ensures Dispatch(input, s).contextSwitches == s.contextSwitches + Count(gap, CS)
    ensures gap != [] <==> input.contextSwitch > 0 && |Dispatch(input, s).queue| > 0
  {
    var gap := if input.contextSwitch > 0 && |Dispatch(input, s).queue| > 0 then [Entry(CS, input.contextSwitch)] else [];
    assert gap != [] ==> gap[..0] == [];
    gap
  }

  /** The per-process records of rr.js:143-146 and 165, read off the
      schedule: a process has started exactly when it has had a slice, its
      response time is the start of its first slice minus its arrival, and
      once it is done its completion time is the end of its last slice. */
  predicate ProcOkAt(input: Input, h: seq<Entry>, remaining: seq<int>, started: seq<bool>,
                     response: seq<int>, completion: seq<int>, now: int, j: nat)
    requires j < |remaining| && j < |started| && j < |response| && j < |completion|
    requires j < |input.arrivalTime| && j < |input.burstTime|
  {
    && (started[j] <==> remaining[j] < input.burstTime[j])
    && (started[j] <==> FirstIndex(h, Proc(j)) < |h|)
    && (started[j] ==> response[j] == Start(h, FirstIndex(h, Proc(j))) - input.arrivalTime[j] && response[j] >= 0)
    && (remaining[j] == 0 ==>
          LastIndex(h, Proc(j)) >= 0 && completion[j] == Start(h, LastIndex(h, Proc(j)) + 1) && completion[j] <= now)
  }

  predicate ProcOk(input: Input, h: seq<Entry>, remaining: seq<int>, started: seq<bool>,
                   response: seq<int>, completion: seq<int>, now: int)
  {
    && |remaining| == |input.processId| && |started| == |input.processId|
    && |response| == |input.processId| && |completion| == |input.processId|
    && |input.arrivalTime| == |input.processId| && |input.burstTime| == |input.processId|
    && (forall j: nat :: j < |input.processId| ==> ProcOkAt(input, h, remaining, started, response, completion, now, j))
  }

  predicate ProcInv(input: Input, s: Sim)
  {
    ProcOk(input, s.schedule, s.remaining, s.started, s.response, s.completion, s.currentTime)
  }

  /** A gap changes no process record. */
  lemma ProcAppendGap(input: Input, h: seq<Entry>, remaining: seq<int>, started: seq<bool>,
                      response: seq<int>, completion: seq<int>, now: int, gap: seq<Entry>)
    requires ProcOk(input, h, remaining, started, response, completion, now) && Gap(input, gap)
    ensures ProcOk(input, h + gap, remaining, started, response, completion, now + Duration(gap))
  {
    if gap == [] {
      assert h + gap == h;
    } else {
      var e := gap[0];
      assert [e][..0] == [];
      var h' := h + [e];
      var later := now + e.duration;
      assert h + gap == h' && Duration(gap) == e.duration;
      forall j: nat | j < |input.processId|
        ensures ProcOkAt(input, h', remaining, started, response, completion, later, j)
      {
        ProcGapAt(input, h, remaining, started, response, completion, now, e, j);
      }
    }
  }

  lemma ProcGapAt(input: Input, h: seq<Entry>, remaining: seq<int>, started: seq<bool>,
                  response: seq<int>, completion: seq<int>, now: int, e: Entry, j: nat)
    requires ProcOk(input, h, remaining, started, response, completion, now)
    requires !e.who.Proc? && e.duration >= 0 && j < |input.processId|
    ensures ProcOkAt(input, h + [e], remaining, started, response, completion, now + e.duration, j)
  {
    assert ProcOkAt(input, h, remaining, started, response, completion, now, j);
    AppendPositions(h, e, Proc(j));
  }

  /** A slice of `p` that starts at `now`: `p` is started (its response
      time recorded if this is its first slice) and, if the slice uses up
      its time, completed at the end of the slice. */
  lemma ProcAppendSlice(input: Input, h: seq<Entry>, remaining: seq<int>, started: seq<bool>,
                        response: seq<int>, completion: seq<int>, now: int, p: nat, slice: int,
                        rem: seq<int>, st: seq<bool>, resp: seq<int>, comp: seq<int>)
    requires ProcOk(input, h, remaining, started, response, completion, now)
    requires Duration(h) == now
    requires p < |input.processId| && 0 < remaining[p] <= input.burstTime[p] && input.arrivalTime[p] <= now
    requires 1 <= slice <= remaining[p]
    requires rem == remaining[p := remaining[p] - slice]
    requires st == if started[p] then started else started[p := true]
    requires resp == if started[p] then response else response[p := now - input.arrivalTime[p]]
    requires comp == if rem[p] > 0 then completion else completion[p := now + slice]
    ensures ProcOk(input, h + [Entry(Proc(p), slice)], rem, st, resp, comp, now + slice)
  {
    var h' := h + [Entry(Proc(p), slice)];
    var later := now + slice;
    forall j: nat | j < |input.processId|
      ensures ProcOkAt(input, h', rem, st, resp, comp, later, j)
    {
      assert ProcOkAt(input, h, remaining, started, response, completion, now, j);
      if j == p {
        ProcSliceOwner(input, h, remaining, started, response, completion, now, p, slice, rem, st, resp, comp);
      } else {
        ProcSliceOther(input, h, remaining, started, response, completion, now, p, slice, rem, st, resp, comp, j);
      }
    }
  }

  /** The process that gets the slice. */
  lemma ProcSliceOwner(input: Input, h: seq<Entry>, remaining: seq<int>, started: seq<bool>,
                       response: seq<int>, completion: seq<int>, now: int, p: nat, slice: int,
                       rem: seq<int>, st: seq<bool>, resp: seq<int>, comp: seq<int>)
    requires |remaining| == |input.processId| && |started| == |input.processId|
    requires |response| == |input.processId| && |completion| == |input.processId|
    requires |input.arrivalTime| == |input.processId| && |input.burstTime| == |input.processId|
    requires p < |input.processId| && ProcOkAt(input, h, remaining, started, response, completion, now, p)
    requires Duration(h) == now
    requires 0 < remaining[p] <= input.burstTime[p] && input.arrivalTime[p] <= now
    requires 1 <= slice <= remaining[p]
    requires rem == remaining[p := remaining[p] - slice]
    requires st == if started[p] then started else started[p := true]
    requires resp == if started[p] then response else response[p := now - input.arrivalTime[p]]
    requires comp == if rem[p] > 0 then completion else completion[p := now + slice]
    ensures ProcOkAt(input, h + [Entry(Proc(p), slice)], rem, st, resp, comp, now + slice, p)
  {
    var h' := h + [Entry(Proc(p), slice)];
    AppendPositions(h, Entry(Proc(p), slice), Proc(p));
    assert Start(h', |h|) == now by {
      assert h'[..|h|] == h;
    }
    assert Start(h', |h| + 1) == now + slice by {
      assert h'[..|h| + 1] == h';
      AppendSums(h, Entry(Proc(p), slice), Proc(p));
    }
  }

  /** Every other process. */
  lemma ProcSliceOther(input: Input, h: seq<Entry>, remaining: seq<int>, started: seq<bool>,
                       response: seq<int>, completion: seq<int>, now: int, p: nat, slice: int,
                       rem: seq<int>, st: seq<bool>, resp: seq<int>, comp: seq<int>, j: nat)
    requires |remaining| == |input.processId| && |started| == |input.processId|
    requires |response| == |input.processId| && |completion| == |input.processId|
    requires |input.arrivalTime| == |input.processId| && |input.burstTime| == |input.processId|
    requires p < |input.processId| && j < |input.processId| && j != p && slice >= 0
    requires ProcOkAt(input, h, remaining, started, response, completion, now, j)
    requires rem == remaining[p := remaining[p] - slice]
    requires st == if started[p] then started else started[p := true]
    requires resp == if started[p] then response else response[p := now - input.arrivalTime[p]]
    requires comp == if rem[p] > 0 then completion else completion[p := now + slice]
    ensures ProcOkAt(input, h + [Entry(Proc(p), slice)], rem, st, resp, comp, now + slice, j)
  {
    AppendPositions(h, Entry(Proc(p), slice), Proc(j));
  }

  lemma ProcScan(input: Input, s: Sim)
    requires Inv(input, s) && ProcInv(input, s)
    ensures ProcInv(input, Scan(input, s))
  {
  }

  lemma ProcIdle(input: Input, s: Sim)
    requires ProcInv(input, s)
    ensures ProcInv(input, IdleTick(s))
  {
    assert [Entry(Idle, 1)][..0] == [];
    ProcAppendGap(input, s.schedule, s.remaining, s.started, s.response, s.completion, s.currentTime, [Entry(Idle, 1)]);
  }

  lemma ProcDispatch(input: Input, s: Sim)
    requires Inv(input, s) && |s.queue| > 0 && Duration(s.schedule) == s.currentTime && ProcInv(input, s)
    ensures ProcInv(input, Dispatch(input, s))
  {
    var p := s.queue[0];
    var slice := Min(input.timeQuantum, s.remaining[p]);
    var d := Dispatch(input, s);
    var gap := DispatchGap(input, s);
    DispatchRecords(input, s);
    HeadReady(input, s);
    ProcCycle(input, s.schedule, s.remaining, s.started, s.response, s.completion, s.currentTime, p, slice,
              d.remaining, d.started, d.response, d.completion, gap);
  }

  /** A slice of `p` followed by a gap, over the fields of the state. */
  lemma ProcCycle(input: Input, h: seq<Entry>, remaining: seq<int>, started: seq<bool>,
                  response: seq<int>, completion: seq<int>, now: int, p: nat, slice: int,
                  rem: seq<int>, st: seq<bool>, resp: seq<int>, comp: seq<int>, gap: seq<Entry>)
    requires ProcOk(input, h, remaining, started, response, completion, now)
    requires Duration(h) == now
    requires p < |input.processId| && 0 < remaining[p] <= input.burstTime[p] && input.arrivalTime[p] <= now
    requires 1 <= slice <= remaining[p]
    requires rem == remaining[p := remaining[p] - slice]
    requires st == if started[p] then started else started[p := true]
    requires resp == if started[p] then response else response[p := now - input.arrivalTime[p]]
    requires comp == if rem[p] > 0 then completion else completion[p := now + slice]
    requires Gap(input, gap)
    ensures ProcOk(input, h + [Entry(Proc(p), slice)] + gap, rem, st, resp, comp, now + slice + Duration(gap))
  {
    ProcAppendSlice(input, h, remaining, started, response, completion, now, p, slice, rem, st, resp, comp);
    ProcAppendGap(input, h + [Entry(Proc(p), slice)], rem, st, resp, comp, now + slice, gap);
  }

  /** The records a dispatch cycle writes (rr.js:143-146, 150, 162-166). */
  lemma DispatchRecords(input: Input, s: Sim)
    requires Inv(input, s) && |s.queue| > 0
    ensures var p := s.queue[0];
      var slice := Min(input.timeQuantum, s.remaining[p]);
      var d := Dispatch(input, s);
      && d.remaining == s.remaining[p := s.remaining[p] - slice]
      && d.started == (if s.started[p] then s.started else s.started[p := true])
      && d.response == (if s.started[p] then s.response else s.response[p := s.currentTime - input.arrivalTime[p]])
      && d.completion == (if d.remaining[p] > 0 then s.completion else s.completion[p := s.currentTime + slice])
  {
  }

  /** A context switch entry sits right after a slice and, unless it is
      the last entry so far, right before one (rr.js:149, 169-173). */
  predicate CSFramed(h: seq<Entry>, k: nat)
    requires k < |h|
  {
    h[k].who == CS ==> 0 < k && h[k - 1].who.Proc? && (k + 1 < |h| ==> h[k + 1].who.Proc?)
  }

  /** What the last entry so far says about the state: an idle tick means
      work is still to come, a context switch means the queue it was
      charged for is waiting, and a slice not followed by a switch either
      leaves processes waiting or was the last slice of its process. */
  predicate TailOk(input: Input, h: seq<Entry>, remaining: seq<int>, completion: seq<int>, queue: seq<nat>)
  {
    |h| > 0 ==>
      match h[|h| - 1].who
      case Idle => AnyRemaining(remaining)
      case CS => |queue| > 0
      case Proc(p) =>
        |queue| > 0 || (p < |remaining| && p < |completion| && remaining[p] == 0 && completion[p] == Duration(h))
  }

  /** What an idle tick starting at `t` says: every process that had
      arrived by `t` had completed by `t`, and some process arrives
      later (rr.js:126-132). */
  predicate IdleOk(input: Input, remaining: seq<int>, completion: seq<int>, t: int)
    requires |remaining| == |input.processId| && |completion| == |input.processId|
    requires |input.arrivalTime| == |input.processId|
  {
    && (forall j :: 0 <= j < |input.processId| && input.arrivalTime[j] <= t ==> remaining[j] == 0 && completion[j] <= t)
    && (exists j :: 0 <= j < |input.processId| && input.arrivalTime[j] > t)
  }

  predicate IdleAt(input: Input, h: seq<Entry>, remaining: seq<int>, completion: seq<int>, k: nat)
    requires k < |h|
    requires |remaining| == |input.processId| && |completion| == |input.processId|
    requires |input.arrivalTime| == |input.processId|
  {
    h[k].who == Idle ==> IdleOk(input, remaining, completion, Start(h, k))
  }

  /** The shape of the schedule around context switches and idle ticks. */
  predicate ShapeOk(input: Input, h: seq<Entry>, remaining: seq<int>, completion: seq<int>, queue: seq<nat>)
  {
    && |remaining| == |input.processId| && |completion| == |input.processId|
    && |input.arrivalTime| == |input.processId|
    && (forall k :: 0 <= k < |h| ==> CSFramed(h, k) && IdleAt(input, h, remaining, completion, k))
    && TailOk(input, h, remaining, completion, queue)
  }

  predicate ShapeInv(input: Input, s: Sim)
  {
    ShapeOk(input, s.schedule, s.remaining, s.completion, s.queue)
  }

  lemma ShapeScan(input: Input, s: Sim)
    requires Inv(input, s) && ShapeInv(input, s)
    ensures ShapeInv(input, Scan(input, s))
  {
    var s1 := Scan(input, s);
    assert |s1.queue| >= |s.queue|;
  }

  /** An idle tick, taken when the scan left the queue empty. */
  lemma ShapeIdle(input: Input, s: Sim)
    requires Inv(input, s) && Scanned(input, s) && s.queue == [] && AnyRemaining(s.remaining)
    requires SchedInv(input, s) && ProcInv(input, s) && ShapeInv(input, s)
    ensures ShapeInv(input, IdleTick(s))
  {
    var h := s.schedule;
    var e := Entry(Idle, 1);
    var h' := h + [e];
    assert IdleTick(s).schedule == h';
    AppendSums(h, e, Idle);
    forall k | 0 <= k < |h'|
      ensures CSFramed(h', k) && IdleAt(input, h', s.remaining, s.completion, k)
    {
      AppendPositions(h, e, Idle);
      if k < |h| {
        assert h'[k] == h[k];
        assert CSFramed(h, k) && IdleAt(input, h, s.remaining, s.completion, k);
      } else {
        IdleStart(input, s);
      }
    }
  }

  /** The idle tick starting at the current time is justified. */
  lemma IdleStart(input: Input, s: Sim)
    requires Inv(input, s) && Scanned(input, s) && s.queue == [] && AnyRemaining(s.remaining)
    requires ProcInv(input, s)
    ensures IdleOk(input, s.remaining, s.completion, s.currentTime)
  {
    IdleProgress(input, s);
    forall j | 0 <= j < |input.processId| && input.arrivalTime[j] <= s.currentTime
      ensures s.remaining[j] == 0 && s.completion[j] <= s.currentTime
    {
      assert (j as nat) !in s.queue;
      assert ProcOkAt(input, s.schedule, s.remaining, s.started, s.response, s.completion, s.currentTime, j);
    }
  }

  lemma ShapeDispatch(input: Input, s: Sim)
    requires Inv(input, s) && |s.queue| > 0 && Duration(s.schedule) == s.currentTime && ShapeInv(input, s)
    ensures ShapeInv(input, Dispatch(input, s))
  {
    var p := s.queue[0];
    var slice := Min(input.timeQuantum, s.remaining[p]);
    var d := Dispatch(input, s);
    var gap := DispatchGap(input, s);
    DispatchRecords(input, s);
    HeadReady(input, s);
    DispatchQueue(input, s);
    ShapeAppend(input, s.schedule, s.remaining, s.completion, s.queue, p, slice, gap,
                d.remaining, d.completion, d.queue);
  }

  /** Appending a slice of `p` and then `gap`, where `gap` is a context
      switch exactly when processes are left waiting. */
  lemma ShapeAppend(input: Input, h: seq<Entry>, remaining: seq<int>, completion: seq<int>, queue: seq<nat>,
                    p: nat, slice: int, gap: seq<Entry>, rem: seq<int>, comp: seq<int>, q: seq<nat>)
    requires ShapeOk(input, h, remaining, completion, queue)
    requires p < |input.processId| && remaining[p] > 0 && slice >= 1
    requires rem == remaining[p := remaining[p] - slice]
    requires comp == if rem[p] > 0 then completion else completion[p := Duration(h) + slice]
    requires gap == [] || gap == [Entry(CS, input.contextSwitch)]
    requires gap != [] ==> |q| > 0
    requires gap == [] && |q| == 0 ==> rem[p] == 0
    ensures ShapeOk(input, h + [Entry(Proc(p), slice)] + gap, rem, comp, q)
  {
    var e := Entry(Proc(p), slice);
    var sliced := h + [e];
    var h' := sliced + gap;
    var n := |input.processId|;
    assert forall j :: 0 <= j < n && j != p ==> rem[j] == remaining[j] && comp[j] == completion[j];
    forall k | 0 <= k < |h'|
      ensures CSFramed(h', k) && IdleAt(input, h', rem, comp, k)
    {
      if k < |h| {
        assert CSFramed(h, k) && IdleAt(input, h, remaining, completion, k);
        ShapeOldEntry(input, h, remaining, completion, p, slice, gap, rem, comp, k);
      } else if k == |h| {
        assert h'[k] == e;
      } else {
        assert h'[k] == gap[0] && h'[k - 1] == e;
      }
    }
    if gap == [] {
      assert h' == sliced;
    } else {
      assert h'[|h'| - 1] == gap[0];
    }
  }

  /** An entry already in the schedule keeps its frame and its idle
      justification when a slice of `p` and a gap are appended. */
  lemma ShapeOldEntry(input: Input, h: seq<Entry>, remaining: seq<int>, completion: seq<int>,
                      p: nat, slice: int, gap: seq<Entry>, rem: seq<int>, comp: seq<int>, k: nat)
    requires |remaining| == |input.processId| && |completion| == |input.processId|
    requires |input.arrivalTime| == |input.processId| && |rem| == |remaining| && |comp| == |completion|
    requires k < |h| && CSFramed(h, k) && IdleAt(input, h, remaining, completion, k)
    requires p < |input.processId| && remaining[p] > 0
    requires forall j :: 0 <= j < |input.processId| && j != p ==> rem[j] == remaining[j] && comp[j] == completion[j]
    ensures CSFramed(h + [Entry(Proc(p), slice)] + gap, k)
    ensures IdleAt(input, h + [Entry(Proc(p), slice)] + gap, rem, comp, k)
  {
    var h' := h + [Entry(Proc(p), slice)] + gap;
    assert h'[k] == h[k];
    if k > 0 {
      assert h'[k - 1] == h[k - 1];
    }
    if k + 1 < |h| {
      assert h'[k + 1] == h[k + 1];
    } else {
      assert h'[k + 1] == Entry(Proc(p), slice);
    }
    if h[k].who == Idle {
      assert Start(h', k) == Start(h, k) by {
        assert h'[..k] == h[..k];
      }
      IdleAfterSlice(input, remaining, completion, p, rem, comp, Start(h, k));
    }
  }

  /** A justified idle tick stays justified when a process that still had
      time left runs later. */
  lemma IdleAfterSlice(input: Input, remaining: seq<int>, completion: seq<int>, p: nat,
                       rem: seq<int>, comp: seq<int>, t: int)
    requires |remaining| == |input.processId| && |completion| == |input.processId|
    requires |input.arrivalTime| == |input.processId|
    requires IdleOk(input, remaining, completion, t)
    requires p < |input.processId| && remaining[p] > 0
    requires |rem| == |remaining| && |comp| == |completion|
    requires forall j :: 0 <= j < |input.processId| && j != p ==> rem[j] == remaining[j] && comp[j] == completion[j]
    ensures IdleOk(input, rem, comp, t)
  {
  }

  /** How many snapshots report `j` as just terminated. */
  function Terminations(log: seq<TimeLog>, j: nat): nat
  {
    if log == [] then 0
    else Terminations(log[..|log| - 1], j) + (if log[|log| - 1].terminate == [j] then 1 else 0)
  }

  /** How many snapshots close a dispatch cycle of `j`. */
  function Cycles(log: seq<TimeLog>, j: nat): nat
  {
    if log == [] then 0
    else Cycles(log[..|log| - 1], j) + (if log[|log| - 1].running == [j] || log[|log| - 1].terminate == [j] then 1 else 0)
  }

  /** A snapshot taken by an admission scan: no process is reported. */
  predicate Quiet(e: TimeLog)
  {
    e.running == [] && e.terminate == []
  }

  /** Snapshot `k` is not older than the one before it. */
  predicate TimeStep(log: seq<TimeLog>, k: nat)
    requires k < |log|
  {
    k > 0 ==> log[k - 1].time <= log[k].time
  }

  /** The snapshot log (rr.js:107-110, 119-122, 175-184): it starts with
      the empty snapshot at time 0, its times never decrease, its last
      snapshot shows the current queue, each snapshot reports at most one
      of a preempted and a terminated process, every finished process has
      been reported terminated once and every slice closes with one
      snapshot. */
  predicate LogOk(input: Input, log: seq<TimeLog>, h: seq<Entry>, queue: seq<nat>, remaining: seq<int>, now: int)
  {
    && |remaining| == |input.processId|
    && |log| > 0 && log[0] == TimeLog(0, [], [], [])
    && log[|log| - 1].ready == queue && log[|log| - 1].time <= now
    && (forall k :: 0 <= k < |log| ==> TimeStep(log, k) && (log[k].running == [] || log[k].terminate == []))
    && (forall j :: 0 <= j < |input.processId| ==>
          Terminations(log, j) == (if remaining[j] == 0 then 1 else 0) && Cycles(log, j) == Count(h, Proc(j)))
  }

  predicate LogInv(input: Input, s: Sim)
  {
    LogOk(input, s.timeLog, s.schedule, s.queue, s.remaining, s.currentTime)
  }

  /** Snapshots that report no process leave both counts alone. */
  lemma {:induction false} QuietAppend(log: seq<TimeLog>, more: seq<TimeLog>, j: nat)
    requires forall m :: 0 <= m < |more| ==> Quiet(more[m])
    ensures Terminations(log + more, j) == Terminations(log, j)
    ensures Cycles(log + more, j) == Cycles(log, j)
  {
    if more == [] {
      assert log + more == log;
    } else {
      var init := more[..|more| - 1];
      QuietAppend(log, init, j);
      assert (log + more)[..|log + more| - 1] == log + init;
      assert Quiet(more[|more| - 1]);
    }
  }

  lemma LogScan(input: Input, s: Sim)
    requires Inv(input, s) && LogInv(input, s)
    ensures LogInv(input, Scan(input, s))
  {
    var admitted := Arrivals(input.arrivalTime, s.arrived, s.currentTime, |input.processId|);
    var more := AdmissionLog(s.queue, admitted, s.currentTime);
    assert Scan(input, s).timeLog == s.timeLog + more;
    assert Scan(input, s).queue == s.queue + admitted;
    if admitted != [] {
      assert admitted[..|admitted|] == admitted;
    } else {
      assert s.queue + admitted == s.queue;
    }
    LogAppendQuiet(input, s.timeLog, more, s.schedule, s.queue, s.queue + admitted, s.remaining, s.currentTime);
  }

  /** Appending snapshots that report no process, all taken now, keeps the
      log well formed; the last one shows the new queue. */
  lemma LogAppendQuiet(input: Input, log: seq<TimeLog>, more: seq<TimeLog>, h: seq<Entry>,
                       queue: seq<nat>, queue': seq<nat>, remaining: seq<int>, now: int)
    requires LogOk(input, log, h, queue, remaining, now)
    requires forall m :: 0 <= m < |more| ==> Quiet(more[m]) && more[m].time == now
    requires more == [] ==> queue' == queue
    requires more != [] ==> more[|more| - 1].ready == queue'
    ensures LogOk(input, log + more, h, queue', remaining, now)
  {
    var log' := log + more;
    forall j | 0 <= j < |input.processId|
      ensures Terminations(log', j) == Terminations(log, j) && Cycles(log', j) == Cycles(log, j)
    {
      QuietAppend(log, more, j);
    }
    forall k | 0 <= k < |log'|
      ensures TimeStep(log', k) && (log'[k].running == [] || log'[k].terminate == [])
    {
      if k < |log| {
        assert log'[k] == log[k];
        assert TimeStep(log, k);
        if k > 0 {
          assert log'[k - 1] == log[k - 1];
        }
      } else {
        assert log'[k] == more[k - |log|];
        if k > |log| {
          assert log'[k - 1] == more[k - 1 - |log|];
        } else {
          assert log'[k - 1] == log[|log| - 1];
        }
      }
    }
    if more == [] {
      assert log' == log;
    } else {
      assert log'[|log'| - 1] == more[|more| - 1];
    }
  }

  lemma LogIdle(input: Input, s: Sim)
    requires LogInv(input, s)
    ensures LogInv(input, IdleTick(s))
  {
    forall j: nat
      ensures Count(s.schedule + [Entry(Idle, 1)], Proc(j)) == Count(s.schedule, Proc(j))
    {
      AppendSums(s.schedule, Entry(Idle, 1), Proc(j));
    }
  }

  lemma LogDispatch(input: Input, s: Sim)
    requires Inv(input, s) && |s.queue| > 0 && LogInv(input, s)
    ensures LogInv(input, Dispatch(input, s))
  {
    var p := s.queue[0];
    var slice := Min(input.timeQuantum, s.remaining[p]);
    var d := Dispatch(input, s);
    var gap := DispatchGap(input, s);
    DispatchRecords(input, s);
    HeadReady(input, s);
    var entry := TimeLog(d.currentTime, d.queue, if d.remaining[p] > 0 then [p] else [], if d.remaining[p] > 0 then [] else [p]);
    assert d.timeLog == s.timeLog + [entry];
    LogAppendCycle(input, s.timeLog, s.schedule, s.queue, s.remaining, s.currentTime, p, slice, gap,
                   d.remaining, d.queue, d.currentTime);
  }

  /** One dispatch cycle closes with one snapshot at the time after its
      context switch. */
  lemma LogAppendCycle(input: Input, log: seq<TimeLog>, h: seq<Entry>, queue: seq<nat>, remaining: seq<int>, now: int,
                       p: nat, slice: int, gap: seq<Entry>, rem: seq<int>, q: seq<nat>, later: int)
    requires LogOk(input, log, h, queue, remaining, now)
    requires p < |input.processId| && 1 <= slice <= remaining[p] && now <= later
    requires rem == remaining[p := remaining[p] - slice]
    requires gap == [] || gap == [Entry(CS, input.contextSwitch)]
    ensures LogOk(input, log + [TimeLog(later, q, if rem[p] > 0 then [p] else [], if rem[p] > 0 then [] else [p])],
                  h + [Entry(Proc(p), slice)] + gap, q, rem, later)
  {
    var entry := TimeLog(later, q, if rem[p] > 0 then [p] else [], if rem[p] > 0 then [] else [p]);
    var log' := log + [entry];
    var e := Entry(Proc(p), slice);
    var h' := h + [e] + gap;
    assert log'[..|log|] == log;
    assert log'[0] == log[0];
    forall j | 0 <= j < |input.processId|
      ensures Terminations(log', j) == Terminations(log, j) + (if j == p && rem[p] == 0 then 1 else 0)
      ensures Cycles(log', j) == Cycles(log, j) + (if j == p then 1 else 0)
      ensures Count(h', Proc(j)) == Count(h, Proc(j)) + (if j == p then 1 else 0)
    {
      AppendSums(h, e, Proc(j));
      if gap != [] {
        AppendSums(h + [e], gap[0], Proc(j));
        assert h' == h + [e] + [gap[0]];
      } else {
        assert h' == h + [e];
      }
    }
    forall k | 0 <= k < |log'|
      ensures TimeStep(log', k) && (log'[k].running == [] || log'[k].terminate == [])
    {
      if k < |log| {
        assert log'[k] == log[k];
        assert TimeStep(log, k);
        if k > 0 {
          assert log'[k - 1] == log[k - 1];
        }
      } else {
        assert log'[k - 1] == log[|log| - 1];
      }
    }
  }

  /** Steps between neighbours give the order of any two snapshots. */
  lemma {:induction false} TimesOrdered(log: seq<TimeLog>, a: nat, b: nat)
    requires forall k :: 0 <= k < |log| ==> TimeStep(log, k)
    requires a <= b < |log|
    ensures log[a].time <= log[b].time
    decreases b - a
  {
    if a < b {
      TimesOrdered(log, a, b - 1);
      assert TimeStep(log, b);
    }
  }
}
