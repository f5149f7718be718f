/** Balanced schedules: every cell once, in alternating order, and what identity of cells means. */
module Schedules {
  import opened ResampleModel
  import ResampleDecision

  // --- The run schedule --------------------------------------------------------------------

  datatype Lane = Single | Multi

  datatype Slot = Slot(
    position: nat, pairPosition: nat, order: seq<Variant>, repetition: nat, lane: Lane, variant: Variant)

  const BASELINE_FIRST := [Baseline, Candidate]
  const CANDIDATE_FIRST := [Candidate, Baseline]

  /** The order of a pair: alternating with the repetition, and opposite in the two lanes. */
  function PairOrder(repetition: nat, lane: Lane, available: set<Variant>): seq<Variant> {
    if Baseline in available && Candidate in available then
      if (repetition % 2 == 1) == (lane == Single) then BASELINE_FIRST else CANDIDATE_FIRST
    else if Baseline in available then [Baseline]
    else if Candidate in available then [Candidate]
    else []
  }

  function PairSlots(start: nat, repetition: nat, lane: Lane, order: seq<Variant>, k: nat): seq<Slot>
    requires k <= |order|
    decreases k, start
  {
    if k == 0 then []
    else
      PairSlots(start, repetition, lane, order, k - 1)
      + [Slot(start + k, k, order, repetition, lane, order[k - 1])]
  }

  /** The first `k` lanes of one repetition. */
  function LaneSlots(start: nat, repetition: nat, lanes: seq<Lane>, available: set<Variant>, k: nat): seq<Slot>
    requires k <= |lanes|
    decreases k, start
  {
    if k == 0 then []
    else
      var before := LaneSlots(start, repetition, lanes, available, k - 1);
      var order := PairOrder(repetition, lanes[k - 1], available);
      before + PairSlots(start + |before|, repetition, lanes[k - 1], order, |order|)
  }

  function RunSchedule(lanes: seq<Lane>, available: set<Variant>, n: nat): seq<Slot> {
    if n == 0 then []
    else
      var before := RunSchedule(lanes, available, n - 1);
      before + LaneSlots(|before|, n, lanes, available, |lanes|)
  }

  /** One pair, appended with a running position. */
  method AddPair(schedule: seq<Slot>, repetition: nat, lane: Lane, order: seq<Variant>) returns (r: seq<Slot>)
    ensures r == schedule + PairSlots(|schedule|, repetition, lane, order, |order|)
  {
    r := schedule;
    var position := |schedule|;
    for p := 0 to |order|
      invariant position == |schedule| + p
      invariant r == schedule + PairSlots(|schedule|, repetition, lane, order, p)
    {
      position := position + 1;
      r := r + [Slot(position, p + 1, order, repetition, lane, order[p])];
    }
  }

  lemma LaneNext(start: nat, repetition: nat, lanes: seq<Lane>, available: set<Variant>, l: nat)
    requires l < |lanes|
    ensures var before, order := LaneSlots(start, repetition, lanes, available, l),
                                 PairOrder(repetition, lanes[l], available);
            LaneSlots(start, repetition, lanes, available, l + 1)
            == before + PairSlots(start + |before|, repetition, lanes[l], order, |order|)
  {
  }

  lemma Associate(a: seq<Slot>, b: seq<Slot>, c: seq<Slot>)
    ensures a + b + c == a + (b + c)
  {
  }

  method AddRepetition(schedule: seq<Slot>, repetition: nat, lanes: seq<Lane>, available: set<Variant>)
    returns (r: seq<Slot>)
    ensures r == schedule + LaneSlots(|schedule|, repetition, lanes, available, |lanes|)
  {
    r := schedule;
    for l := 0 to |lanes|
      invariant r == schedule + LaneSlots(|schedule|, repetition, lanes, available, l)
    {
      var order := PairOrder(repetition, lanes[l], available);
      ghost var before := LaneSlots(|schedule|, repetition, lanes, available, l);
      Associate(schedule, before, PairSlots(|schedule| + |before|, repetition, lanes[l], order, |order|));
      LaneNext(|schedule|, repetition, lanes, available, l);
      r := AddPair(r, repetition, lanes[l], order);
    }
  }

  /** Every repetition, lane by lane; the variants are read as a set, so their order does not matter. */
  method BuildRunSchedule(lanes: seq<Lane>, variants: seq<Variant>, n: nat) returns (schedule: seq<Slot>)
    ensures schedule == RunSchedule(lanes, SetOf(variants), n)
  {
    var available := SetOf(variants);
    schedule := [];
    for repetition := 1 to n + 1
      invariant schedule == RunSchedule(lanes, available, repetition - 1)
    {
      schedule := AddRepetition(schedule, repetition, lanes, available);
    }
  }

  // --- Any lanes, any variants --------------------------------------------------------------------

  ghost predicate Has(s: seq<Slot>, r: nat, lane: Lane, v: Variant) {
    exists i :: 0 <= i < |s| && s[i].repetition == r && s[i].lane == lane && s[i].variant == v
  }

  lemma HasConcat(s: seq<Slot>, t: seq<Slot>, r: nat, lane: Lane, v: Variant)
    ensures Has(s + t, r, lane, v) <==> Has(s, r, lane, v) || Has(t, r, lane, v)
  {
    var all := s + t;
    if i :| 0 <= i < |s| && s[i].repetition == r && s[i].lane == lane && s[i].variant == v { assert all[i] == s[i]; }
    if i :| 0 <= i < |t| && t[i].repetition == r && t[i].lane == lane && t[i].variant == v {
      assert all[|s| + i] == t[i];
    }
  }

  lemma {:induction false} PairHas(
    start: nat, repetition: nat, of: Lane, order: seq<Variant>, k: nat, r: nat, lane: Lane, v: Variant)
    requires k <= |order|
    ensures Has(PairSlots(start, repetition, of, order, k), r, lane, v) <==>
      r == repetition && lane == of && v in order[..k]
    decreases k
  {
    if k > 0 {
      var last := [Slot(start + k, k, order, repetition, of, order[k - 1])];
      PairHas(start, repetition, of, order, k - 1, r, lane, v);
      HasConcat(PairSlots(start, repetition, of, order, k - 1), last, r, lane, v);
      assert Has(last, r, lane, v) <==> last[0].repetition == r && last[0].lane == lane && last[0].variant == v;
      assert order[..k] == order[..k - 1] + [order[k - 1]];
    }
  }

  lemma OrderIsAvailable(repetition: nat, lane: Lane, available: set<Variant>, v: Variant)
    ensures v in PairOrder(repetition, lane, available) <==> v in available
  {
  }

  lemma LanesNext(
    start: nat, repetition: nat, lanes: seq<Lane>, available: set<Variant>, k: nat, r: nat, lane: Lane, v: Variant)
    requires 1 <= k <= |lanes|
    ensures Has(LaneSlots(start, repetition, lanes, available, k), r, lane, v) <==>
      || Has(LaneSlots(start, repetition, lanes, available, k - 1), r, lane, v)
      || (r == repetition && lane == lanes[k - 1] && v in available)
  {
    var before := LaneSlots(start, repetition, lanes, available, k - 1);
    var order := PairOrder(repetition, lanes[k - 1], available);
    PairHas(start + |before|, repetition, lanes[k - 1], order, |order|, r, lane, v);
    HasConcat(before, PairSlots(start + |before|, repetition, lanes[k - 1], order, |order|), r, lane, v);
    OrderIsAvailable(repetition, lanes[k - 1], available, v);
    assert order[..|order|] == order;
  }

  lemma {:induction false} LanesHave(
    start: nat, repetition: nat, lanes: seq<Lane>, available: set<Variant>, k: nat, r: nat, lane: Lane, v: Variant)
    requires k <= |lanes|
    ensures Has(LaneSlots(start, repetition, lanes, available, k), r, lane, v) <==>
      r == repetition && lane in lanes[..k] && v in available
    decreases k
  {
    if k > 0 {
      LanesHave(start, repetition, lanes, available, k - 1, r, lane, v);
      LanesNext(start, repetition, lanes, available, k, r, lane, v);
      assert lanes[..k] == lanes[..k - 1] + [lanes[k - 1]];
    }
  }

  lemma ScheduledNext(lanes: seq<Lane>, available: set<Variant>, n: nat, r: nat, lane: Lane, v: Variant)
    requires n >= 1
    ensures Has(RunSchedule(lanes, available, n), r, lane, v) <==>
      Has(RunSchedule(lanes, available, n - 1), r, lane, v) || (r == n && lane in lanes && v in available)
  {
    var before := RunSchedule(lanes, available, n - 1);
    LanesHave(|before|, n, lanes, available, |lanes|, r, lane, v);
    HasConcat(before, LaneSlots(|before|, n, lanes, available, |lanes|), r, lane, v);
    assert lanes[..|lanes|] == lanes;
  }

  /** For any lanes and any variants, exactly the repetitions 1 to n of each are scheduled. */
  lemma {:induction false} ScheduledIff(
    lanes: seq<Lane>, available: set<Variant>, n: nat, r: nat, lane: Lane, v: Variant)
    ensures Has(RunSchedule(lanes, available, n), r, lane, v) <==> 1 <= r <= n && lane in lanes && v in available
    decreases n
  {
    if n > 0 {
      ScheduledIff(lanes, available, n - 1, r, lane, v);
      ScheduledNext(lanes, available, n, r, lane, v);
    }
  }

  // --- Both lanes, both variants ----------------------------------------------------------------

  const BOTH := {Baseline, Candidate}

  /** Which of the pair the slots 0, 1, 2, 3 of a repetition are. */
  function Side(j: nat): nat {
    if j == 0 || j == 2 then 0 else 1
  }

  /** Slot `j` of a repetition over two lanes; its index in the schedule is 4 * (repetition - 1) + j. */
  function SlotOf(first: Lane, second: Lane, repetition: nat, j: nat): Slot
    requires repetition >= 1
  {
    var lane := if j < 2 then first else second;
    var order := PairOrder(repetition, lane, BOTH);
    Slot(4 * (repetition - 1) + j + 1, Side(j) + 1, order, repetition, lane, order[Side(j)])
  }

  lemma PairUnfolded(start: nat, repetition: nat, lane: Lane, order: seq<Variant>)
    requires |order| == 2
    ensures PairSlots(start, repetition, lane, order, 2)
         == [Slot(start + 1, 1, order, repetition, lane, order[0]),
             Slot(start + 2, 2, order, repetition, lane, order[1])]
  {
    assert PairSlots(start, repetition, lane, order, 1) == [Slot(start + 1, 1, order, repetition, lane, order[0])];
  }

  lemma LanesUnfolded(start: nat, repetition: nat, first: Lane, second: Lane)
    ensures var lanes := [first, second];
            var a, b := PairOrder(repetition, first, BOTH), PairOrder(repetition, second, BOTH);
            LaneSlots(start, repetition, lanes, BOTH, 2)
            == PairSlots(start, repetition, first, a, 2) + PairSlots(start + 2, repetition, second, b, 2)
  {
    var lanes := [first, second];
    var a := PairOrder(repetition, first, BOTH);
    PairUnfolded(start, repetition, first, a);
    assert LaneSlots(start, repetition, lanes, BOTH, 1) == PairSlots(start, repetition, first, a, 2);
  }

  lemma RepetitionAt(first: Lane, second: Lane, n: nat, j: nat)
    requires n >= 1 && j < 4
    ensures var slots := LaneSlots(4 * (n - 1), n, [first, second], BOTH, 2);
            |slots| == 4 && slots[j] == SlotOf(first, second, n, j)
  {
    var start := 4 * (n - 1);
    LanesUnfolded(start, n, first, second);
    PairUnfolded(start, n, first, PairOrder(n, first, BOTH));
    PairUnfolded(start + 2, n, second, PairOrder(n, second, BOTH));
  }

  /** Slot `j` of repetition `r` is at index 4 * (r - 1) + j of the whole schedule. */
  ghost predicate SlotAt(first: Lane, second: Lane, n: nat, r: nat, j: nat)
    requires 1 <= r <= n && j < 4
  {
    var s := RunSchedule([first, second], BOTH, n);
    |s| == 4 * n && s[4 * (r - 1) + j] == SlotOf(first, second, r, j)
  }

  lemma SlotLast(first: Lane, second: Lane, n: nat, j: nat)
    requires n >= 1 && j < 4
    ensures SlotAt(first, second, n, n, j)
  {
    ScheduleLength(first, second, n - 1);
    RepetitionAt(first, second, n, j);
  }

  lemma SlotStays(first: Lane, second: Lane, n: nat, r: nat, j: nat)
    requires 1 <= r < n && j < 4 && SlotAt(first, second, n - 1, r, j)
    ensures SlotAt(first, second, n, r, j)
  {
    ScheduleLength(first, second, n);
  }

  lemma {:induction false} ScheduleAt(first: Lane, second: Lane, n: nat, r: nat, j: nat)
    requires 1 <= r <= n && j < 4
    ensures SlotAt(first, second, n, r, j)
  {
    if r < n {
      ScheduleAt(first, second, n - 1, r, j);
      SlotStays(first, second, n, r, j);
    } else {
      SlotLast(first, second, n, j);
    }
  }

  lemma {:induction false} ScheduleLength(first: Lane, second: Lane, n: nat)
    ensures |RunSchedule([first, second], BOTH, n)| == 4 * n
  {
    if n > 0 {
      ScheduleLength(first, second, n - 1);
      RepetitionAt(first, second, n, 0);
    }
  }

  predicate Names(s: Slot, repetition: nat, lane: Lane, variant: Variant) {
    s.repetition == repetition && s.lane == lane && s.variant == variant
  }

  /** The slot of a repetition that holds this lane and variant. */
  function Place(first: Lane, repetition: nat, lane: Lane, variant: Variant): nat {
    (if lane == first then 0 else 2) + if PairOrder(repetition, lane, BOTH)[0] == variant then 0 else 1
  }

  /** Each repetition, lane and variant is scheduled exactly once, and positions count from 1. */
  lemma EachOnce(first: Lane, second: Lane, n: nat, r: nat, j: nat, repetition: nat, lane: Lane, variant: Variant)
    requires first != second && 1 <= r <= n && j < 4
    ensures var s, i := RunSchedule([first, second], BOTH, n), 4 * (r - 1) + j;
            && |s| == 4 * n && s[i].position == i + 1
            && (Names(s[i], repetition, lane, variant) <==>
                  r == repetition && j == Place(first, repetition, lane, variant))
  {
    ScheduleAt(first, second, n, r, j);
  }

  lemma SlotFlips(first: Lane, second: Lane, r: nat, j: nat)
    requires r >= 1 && j < 4
    ensures var a, b := SlotOf(first, second, r, j), SlotOf(first, second, r + 1, j);
            a.lane == b.lane && a.pairPosition == b.pairPosition && a.variant != b.variant
  {
  }

  /** The two variants of a slot in one repetition and the next differ, in every lane and at every place of the pair. */
  lemma Alternating(first: Lane, second: Lane, n: nat, r: nat, j: nat)
    requires 1 <= r < n && j < 4
    ensures var s := RunSchedule([first, second], BOTH, n);
            var a, b := 4 * (r - 1) + j, 4 * r + j;
            |s| == 4 * n && s[a].lane == s[b].lane && s[a].pairPosition == s[b].pairPosition
            && s[a].variant != s[b].variant
  {
    ScheduleAt(first, second, n, r, j);
    ScheduleAt(first, second, n, r + 1, j);
    SlotFlips(first, second, r, j);
    var s := RunSchedule([first, second], BOTH, n);
    assert s[4 * (r - 1) + j] == SlotOf(first, second, r, j) && s[4 * r + j] == SlotOf(first, second, r + 1, j);
  }

  /** The baseline comes first in the odd repetitions of the single lane and in the even ones of the other. */
  lemma BaselineFirst(first: Lane, second: Lane, n: nat, r: nat, j: nat)
    requires 1 <= r <= n && j < 4
    ensures var s, i := RunSchedule([first, second], BOTH, n), 4 * (r - 1) + j;
            && |s| == 4 * n && s[i].repetition == r
            && (s[i].pairPosition == 1 ==> (s[i].variant == Baseline <==> (r % 2 == 1) == (s[i].lane == Single)))
            && (s[i].pairPosition == 2 ==> (s[i].variant == Candidate <==> (r % 2 == 1) == (s[i].lane == Single)))
  {
    ScheduleAt(first, second, n, r, j);
  }

  // --- Balance -------------------------------------------------------------------------------------

  /** The pairs that start in the given order. */
  function Heads(schedule: seq<Slot>, order: seq<Variant>): nat {
    if schedule == [] then 0
    else
      var s := schedule[|schedule| - 1];
      Heads(schedule[..|schedule| - 1], order) + if s.pairPosition == 1 && s.order == order then 1 else 0
  }

  lemma {:induction false} HeadsSnoc(front: seq<Slot>, s: Slot, order: seq<Variant>)
    ensures Heads(front + [s], order) == Heads(front, order) + if s.pairPosition == 1 && s.order == order then 1 else 0
  {
    assert (front + [s])[..|front|] == front;
  }

  lemma {:induction false} HeadsPair(front: seq<Slot>, a: Slot, b: Slot, order: seq<Variant>)
    requires a.pairPosition == 1 && b.pairPosition == 2
    ensures Heads(front + [a, b], order) == Heads(front, order) + if a.order == order then 1 else 0
  {
    HeadsSnoc(front, a, order);
    HeadsSnoc(front + [a], b, order);
    assert front + [a] + [b] == front + [a, b];
  }

  lemma {:induction false} HeadsRepetition(
    front: seq<Slot>, start: nat, n: nat, first: Lane, second: Lane, order: seq<Variant>)
    ensures Heads(front + LaneSlots(start, n, [first, second], BOTH, 2), order)
         == Heads(front, order) + (if PairOrder(n, first, BOTH) == order then 1 else 0)
                                + (if PairOrder(n, second, BOTH) == order then 1 else 0)
  {
    var p, q := PairOrder(n, first, BOTH), PairOrder(n, second, BOTH);
    LanesUnfolded(start, n, first, second);
    PairUnfolded(start, n, first, p);
    PairUnfolded(start + 2, n, second, q);
    var a, b := PairSlots(start, n, first, p, 2), PairSlots(start + 2, n, second, q, 2);
    assert a == [a[0], a[1]] && b == [b[0], b[1]];
    HeadsPair(front, a[0], a[1], order);
    HeadsPair(front + a, b[0], b[1], order);
    assert front + a + b == front + (a + b);
  }

  /** In every repetition exactly one of the two lanes starts with the baseline. */
  lemma OppositeOrders(first: Lane, second: Lane, n: nat)
    requires first != second
    ensures var a, b := PairOrder(n, first, BOTH), PairOrder(n, second, BOTH);
            (a == BASELINE_FIRST && b == CANDIDATE_FIRST) || (a == CANDIDATE_FIRST && b == BASELINE_FIRST)
    ensures BASELINE_FIRST != CANDIDATE_FIRST
  {
    assert BASELINE_FIRST[0] != CANDIDATE_FIRST[0];
  }

  predicate IsPairOrder(order: seq<Variant>) {
    order == BASELINE_FIRST || order == CANDIDATE_FIRST
  }

  /** Over these lanes and variants, `n` pairs start in this order. */
  ghost predicate BalancedAt(lanes: seq<Lane>, available: set<Variant>, n: nat, order: seq<Variant>) {
    Heads(RunSchedule(lanes, available, n), order) == n
  }

  lemma BalancedNone(lanes: seq<Lane>, available: set<Variant>, order: seq<Variant>)
    ensures BalancedAt(lanes, available, 0, order)
  {
  }

  lemma BalancedStep(first: Lane, second: Lane, n: nat, order: seq<Variant>)
    requires n > 0 && first != second && IsPairOrder(order)
    requires BalancedAt([first, second], BOTH, n - 1, order)
    ensures BalancedAt([first, second], BOTH, n, order)
  {
    var before := RunSchedule([first, second], BOTH, n - 1);
    HeadsRepetition(before, |before|, n, first, second, order);
    OppositeOrders(first, second, n);
  }

  lemma {:induction false} BalancedOver(lanes: seq<Lane>, available: set<Variant>, n: nat, order: seq<Variant>)
    requires |lanes| == 2 && lanes[0] != lanes[1] && available == BOTH && IsPairOrder(order)
    ensures BalancedAt(lanes, available, n, order)
  {
    if n == 0 {
      BalancedNone(lanes, available, order);
    } else {
      BalancedOver(lanes, available, n - 1, order);
      assert lanes == [lanes[0], lanes[1]];
      BalancedStep(lanes[0], lanes[1], n, order);
    }
  }

  /** Over both lanes and both variants, n pairs start with the baseline and n with the candidate. */
  lemma Balanced(first: Lane, second: Lane, n: nat, order: seq<Variant>)
    requires first != second && IsPairOrder(order)
    ensures BalancedAt([first, second], BOTH, n, order)
  {
    BalancedOver([first, second], BOTH, n, order);
  }

  // --- Cell identity --------------------------------------------------------------------------------

  function SetOf<T(==)>(s: seq<T>): set<T> {
    set x | x in s
  }

  function WithRepetition(before: set<Entry>, n: nat): set<Entry> {
    before + {Entry(Baseline, TaskA, n)} + {Entry(Candidate, TaskA, n)}
    + {Entry(Baseline, TaskB, n)} + {Entry(Candidate, TaskB, n)}
  }

  /** The expected cells: repetitions 1..n of both variants and both scenarios. */
  function Cells(n: nat): set<Entry> {
    if n == 0 then {} else WithRepetition(Cells(n - 1), n)
  }

  predicate ExactCellIdentity(records: seq<Entry>, n: nat) {
    |records| == |Cells(n)| && SetOf(records) == Cells(n)
  }

  lemma RepetitionMembers(before: set<Entry>, n: nat, e: Entry)
    ensures e in WithRepetition(before, n) <==> e in before || e.repetition == n
  {
    var Entry(v, s, r) := e;
    match (v, s)
    case (Baseline, TaskA) =>
    case (Candidate, TaskA) =>
    case (Baseline, TaskB) =>
    case (Candidate, TaskB) =>
  }

  lemma {:induction false} CellsMembers(n: nat, e: Entry)
    ensures e in Cells(n) <==> 1 <= e.repetition <= n
  {
    if n > 0 {
      CellsMembers(n - 1, e);
      RepetitionMembers(Cells(n - 1), n, e);
    }
  }

  lemma RepetitionCount(before: set<Entry>, n: nat)
    requires forall e :: e in before ==> e.repetition < n
    ensures |WithRepetition(before, n)| == |before| + 4
  {
    var a := before + {Entry(Baseline, TaskA, n)};
    var b := a + {Entry(Candidate, TaskA, n)};
    var c := b + {Entry(Baseline, TaskB, n)};
    assert |a| == |before| + 1;
    assert |b| == |a| + 1;
    assert |c| == |b| + 1;
  }

  lemma CellsBelow(n: nat)
    ensures forall e :: e in Cells(n) ==> e.repetition < n + 1
  {
    forall e | e in Cells(n) ensures e.repetition < n + 1 { CellsMembers(n, e); }
  }

  predicate CellsNumber(n: nat) {
    |Cells(n)| == 4 * n
  }

  lemma CellsGrow(n: nat)
    requires n > 0 && CellsNumber(n - 1)
    ensures CellsNumber(n)
  {
    CellsBelow(n - 1);
    RepetitionCount(Cells(n - 1), n);
  }

  lemma {:induction false} CellsCount(n: nat)
    ensures CellsNumber(n)
  {
    if n > 0 {
      CellsCount(n - 1);
      CellsGrow(n);
    }
  }

  lemma {:induction false} SetSize<T>(s: seq<T>)
    ensures |SetOf(s)| <= |s|
    ensures |SetOf(s)| == |s| ==> forall x :: multiset(s)[x] == if x in s then 1 else 0
  {
    if s != [] {
      var front, last := s[..|s| - 1], s[|s| - 1];
      SetSize(front);
      assert s == front + [last];
      if last in front {
        assert SetOf(s) == SetOf(front);
      } else {
        assert SetOf(s) == SetOf(front) + {last};
      }
    }
  }

  /** The schedule itself has the identity. */
  lemma ScheduleHasIdentity(n: nat)
    ensures ExactCellIdentity(Schedule(n), n)
  {
    ResampleDecision.BlockSize(0, TaskA, n);
    ResampleDecision.BlockSize(1, TaskB, n);
    CellsCount(n);
    forall e: Entry ensures e in Schedule(n) <==> e in Cells(n) {
      ResampleDecision.ScheduleReps(n, e.variant, e.scenario);
      ResampleDecision.RepsMembers(Schedule(n), e.variant, e.scenario, e.repetition);
      ResampleDecision.CountMembers(n, e.repetition);
      CellsMembers(n, e);
      assert e == Entry(e.variant, e.scenario, e.repetition);
    }
  }

  lemma SameCounts(records: seq<Entry>, n: nat, e: Entry)
    requires ExactCellIdentity(records, n)
    ensures multiset(records)[e] == if e in Cells(n) then 1 else 0
  {
    SetSize(records);
    assert e in records <==> e in SetOf(records);
  }

  lemma SameSet(records: seq<Entry>, other: seq<Entry>)
    requires multiset(records) == multiset(other)
    ensures |records| == |other| && SetOf(records) == SetOf(other)
  {
    assert |multiset(records)| == |multiset(other)|;
    forall e ensures e in records <==> e in other {
      assert e in multiset(records) <==> e in multiset(other);
    }
  }

  /** Records have the identity exactly when they are a permutation of the schedule. */
  lemma IdentityIsPermutation(records: seq<Entry>, n: nat)
    ensures ExactCellIdentity(records, n) <==> multiset(records) == multiset(Schedule(n))
  {
    ScheduleHasIdentity(n);
    if ExactCellIdentity(records, n) {
      forall e ensures multiset(records)[e] == multiset(Schedule(n))[e] {
        SameCounts(records, n, e);
        SameCounts(Schedule(n), n, e);
      }
    }
    if multiset(records) == multiset(Schedule(n)) {
      SameSet(records, Schedule(n));
    }
  }
}
