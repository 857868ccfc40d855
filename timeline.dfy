/** Schedule entries of the round-robin simulation and the sums and
    positions that the rest of the model reads off a schedule. */
module Timeline {

  /** Who holds the CPU during one schedule entry. rr.js writes these as the
      integer tags `p + 1`, `-1` and `-2`; `Tag` and `Untag` give that encoding. */
  datatype Subject = Proc(id: nat) | Idle | CS

  /** One `[tag, duration]` pair of `output.schedule`. */
  datatype Entry = Entry(who: Subject, duration: int)

  datatype Option<T> = None | Some(value: T)

  /** The integer tag rr.js stores in the first slot of a schedule entry. */
  function Tag(w: Subject): int
  {
    match w
    case Proc(i) => i + 1
    case Idle => -1
    case CS => -2
  }

  /** Reads a tag back the way the chart code does: -1 is idle, -2 a context
      switch and any positive tag a process slice. */
  function Untag(t: int): (r: Option<Subject>)
    ensures r.Some? <==> t >= 1 || t == -1 || t == -2
    ensures r.Some? ==> Tag(r.value) == t
  {
    if t == -1 then Some(Idle)
    else if t == -2 then Some(CS)
    else if t >= 1 then Some(Proc(t - 1))
    else None
  }

  lemma TagRoundTrip(w: Subject)
    ensures Untag(Tag(w)) == Some(w)
    ensures w.Proc? ==> Tag(w) >= 1
  {
  }

  /** Total length of a schedule: the clock value once every entry has run. */
  function Duration(h: seq<Entry>): int
  {
    if h == [] then 0 else Duration(h[..|h| - 1]) + h[|h| - 1].duration
  }

  /** The clock value at which entry `k` starts. */
  function Start(h: seq<Entry>, k: nat): int
    requires k <= |h|
  {
    Duration(h[..k])
  }

  /** Total duration of the entries that belong to `w`. */
  function TimeOf(h: seq<Entry>, w: Subject): int
  {
    if h == [] then 0
    else TimeOf(h[..|h| - 1], w) + (if h[|h| - 1].who == w then h[|h| - 1].duration else 0)
  }

  /** Total duration of all process slices, whoever they belong to. */
  function BusyTime(h: seq<Entry>): int
  {
    if h == [] then 0
    else BusyTime(h[..|h| - 1]) + (if h[|h| - 1].who.Proc? then h[|h| - 1].duration else 0)
  }

  /** Number of entries that belong to `w`. */
  function Count(h: seq<Entry>, w: Subject): nat
  {
    if h == [] then 0
    else Count(h[..|h| - 1], w) + (if h[|h| - 1].who == w then 1 else 0)
  }

  /** Position of the first entry of `w`, or `|h|` when there is none. */
  function FirstIndex(h: seq<Entry>, w: Subject): (r: nat)
    ensures r <= |h|
    ensures r < |h| ==> h[r].who == w
    ensures forall m :: 0 <= m < r ==> h[m].who != w
  {
    if h == [] then 0
    else
      var r := FirstIndex(h[..|h| - 1], w);
      if r < |h| - 1 then r
      else if h[|h| - 1].who == w then |h| - 1
      else |h|
  }

  /** Position of the last entry of `w`, or -1 when there is none. */
  function LastIndex(h: seq<Entry>, w: Subject): (r: int)
    ensures -1 <= r < |h|
    ensures r >= 0 ==> h[r].who == w
    ensures forall m :: r < m < |h| ==> h[m].who != w
  {
    if h == [] then -1
    else if h[|h| - 1].who == w then |h| - 1
    else LastIndex(h[..|h| - 1], w)
  }

  /** Every entry has a non-negative duration. */
  predicate NonNegative(h: seq<Entry>)
  {
    forall k :: 0 <= k < |h| ==> h[k].duration >= 0
  }

  /** How each of the sums above changes when one entry is appended: the
      step every proof about a growing schedule uses. */
  lemma AppendSums(h: seq<Entry>, e: Entry, w: Subject)
    ensures Duration(h + [e]) == Duration(h) + e.duration
    ensures TimeOf(h + [e], w) == TimeOf(h, w) + (if e.who == w then e.duration else 0)
    ensures BusyTime(h + [e]) == BusyTime(h) + (if e.who.Proc? then e.duration else 0)
    ensures Count(h + [e], w) == Count(h, w) + (if e.who == w then 1 else 0)
  {
    assert (h + [e])[..|h|] == h;
  }

  /** How the positions above change when one entry is appended. */
  lemma AppendPositions(h: seq<Entry>, e: Entry, w: Subject)
    ensures FirstIndex(h + [e], w) == (if FirstIndex(h, w) < |h| then FirstIndex(h, w) else if e.who == w then |h| else |h| + 1)
    ensures LastIndex(h + [e], w) == (if e.who == w then |h| else LastIndex(h, w))
    ensures forall k :: 0 <= k <= |h| ==> Start(h + [e], k) == Start(h, k)
  {
    assert (h + [e])[..|h|] == h;
    forall k | 0 <= k <= |h|
      ensures Start(h + [e], k) == Start(h, k)
    {
      assert (h + [e])[..k] == h[..k];
    }
  }

  /** Start times never decrease along a schedule of non-negative entries,
      and the gap between two start times is at least the time `w` runs in
      between. */
  lemma {:induction false} StartGap(h: seq<Entry>, a: nat, b: nat, w: Subject)
    requires a <= b <= |h|
    requires NonNegative(h)
    ensures Start(h, a) <= Start(h, b)
    ensures Start(h, b) - Start(h, a) >= TimeOf(h[..b], w) - TimeOf(h[..a], w)
  {
    if a < b {
      StartGap(h, a, b - 1, w);
      assert h[..b][..b - 1] == h[..b - 1];
      assert h[..b][b - 1] == h[b - 1];
    }
  }

  /** Nothing of `w` runs before its first entry. */
  lemma {:induction false} TimeBeforeFirst(h: seq<Entry>, w: Subject, k: nat)
    requires k <= FirstIndex(h, w)
    ensures TimeOf(h[..k], w) == 0
  {
    if k > 0 {
      TimeBeforeFirst(h, w, k - 1);
      assert h[..k][..k - 1] == h[..k - 1];
      assert h[..k][k - 1] == h[k - 1];
    }
  }

  /** Everything `w` runs lies at or before its last entry. */
  lemma {:induction false} TimeThroughLast(h: seq<Entry>, w: Subject, k: nat)
    requires LastIndex(h, w) < k <= |h|
    ensures TimeOf(h[..k], w) == TimeOf(h, w)
    decreases |h| - k
  {
    if k < |h| {
      TimeThroughLast(h, w, k + 1);
      assert h[..k + 1][..k] == h[..k];
      assert h[..k + 1][k] == h[k];
    } else {
      assert h[..k] == h;
    }
  }

  /** A schedule's length splits into busy, idle and switching time. */
  lemma {:induction false} DurationSplits(h: seq<Entry>)
    ensures Duration(h) == BusyTime(h) + TimeOf(h, Idle) + TimeOf(h, CS)
  {
    if h != [] {
      DurationSplits(h[..|h| - 1]);
    }
  }

  /** From the start of its first entry to the end of its last, `w` runs
      at least for its total time. */
  lemma ServedBetween(h: seq<Entry>, w: Subject)
    requires NonNegative(h) && FirstIndex(h, w) < |h|
    ensures 0 <= LastIndex(h, w)
    ensures Start(h, LastIndex(h, w) + 1) - Start(h, FirstIndex(h, w)) >= TimeOf(h, w)
  {
    var first := FirstIndex(h, w);
    var last := LastIndex(h, w);
    FirstBeforeLast(h, w);
    StartGap(h, first, last + 1, w);
    TimeBeforeFirst(h, w, first);
    TimeThroughLast(h, w, last + 1);
  }

  /** A subject that occurs somewhere has a first and a last entry, in that order. */
  lemma FirstBeforeLast(h: seq<Entry>, w: Subject)
    requires FirstIndex(h, w) < |h|
    ensures 0 <= FirstIndex(h, w) <= LastIndex(h, w)
  {
  }
}
