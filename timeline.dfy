/** The project timeline: the overall-progress card, the ten week headers
    around the current week, each milestone's horizontal position, and the
    add-milestone dialog. */
module Timeline {
  import opened Wrappers
  import opened Seqs
  import opened Types
  import opened Store

  /** Fixed in the view: the mock current week and the length of the plan. */
  const CurrentWeek := 5
  const TotalWeeks := 10

  // ---------------------------------------------------------------------
  // Overall progress
  // ---------------------------------------------------------------------

  /** `milestones.filter(m => m.status === "completed").length`. */
  function CompletedCount(ms: seq<Milestone>): (n: nat)
    ensures n <= |ms|
    ensures n == |ms| <==> forall i :: 0 <= i < |ms| ==> ms[i].status == MilestoneCompleted
    ensures n == 0 <==> forall i :: 0 <= i < |ms| ==> ms[i].status != MilestoneCompleted
  {
    var done := (m: Milestone) => m.status == MilestoneCompleted;
    CountFullIff(ms, done);
    CountZeroIff(ms, done);
    Count(ms, done)
  }

  /** `getProgressPercentage`, in exact arithmetic. An empty list divides 0
      by 0, which is `None` here. */
  function ProgressPercent(ms: seq<Milestone>): (r: Option<real>)
    ensures r.None? <==> ms == []
    ensures r.Some? ==> 0.0 <= r.value <= 100.0
    ensures r.Some? ==> (r.value == 100.0 <==> forall i :: 0 <= i < |ms| ==> ms[i].status == MilestoneCompleted)
    ensures r.Some? ==> (r.value == 0.0 <==> forall i :: 0 <= i < |ms| ==> ms[i].status != MilestoneCompleted)
  {
    if ms == [] then None
    else
      var c := CompletedCount(ms) as real;
      var n := |ms| as real;
      PercentBounds(c, n);
      Some((c / n) * 100.0)
  }

  /** A share of `c` out of `n`, in percent, lies between 0 and 100 and hits
      either end exactly when `c` does. */
  lemma PercentBounds(c: real, n: real)
    requires 0.0 <= c <= n && 0.0 < n
    ensures 0.0 <= (c / n) * 100.0 <= 100.0
    ensures (c / n) * 100.0 == 100.0 <==> c == n
    ensures (c / n) * 100.0 == 0.0 <==> c == 0.0
  {
    ShareAtMostOne(c, n);
  }

  lemma ShareAtMostOne(c: real, n: real)
    requires 0.0 <= c <= n && 0.0 < n
    ensures c / n <= 1.0
  {
    var q := c / n;
    assert q * n == c;
    if q > 1.0 {
      assert false;
    }
  }

  /** `Math.round`: the nearest integer, halves rounded up. */
  function Round(x: real): (r: int)
    ensures r as real - 0.5 <= x < r as real + 0.5
  {
    (x + 0.5).Floor
  }

  /** The number on the card: a whole percentage between 0 and 100. */
  function DisplayedPercent(ms: seq<Milestone>): (r: Option<int>)
    ensures r.None? <==> ms == []
    ensures r.Some? ==> 0 <= r.value <= 100
    ensures r.Some? ==> (r.value == 100 <== forall i :: 0 <= i < |ms| ==> ms[i].status == MilestoneCompleted)
    ensures r.Some? ==> (r.value == 0 <== forall i :: 0 <= i < |ms| ==> ms[i].status != MilestoneCompleted)
  {
    match ProgressPercent(ms)
    case None => None
    case Some(p) => Some(Round(p))
  }

  // ---------------------------------------------------------------------
  // Week headers and positions
  // ---------------------------------------------------------------------

  datatype WeekClass = CurrentHeader | PastHeader | FutureHeader

  /** A header's style: the current week, one before it, or one after it. */
  function ClassifyWeek(week: int, current: int): (r: WeekClass)
    ensures r == CurrentHeader <==> week == current
    ensures r == PastHeader <==> week < current
    ensures r == FutureHeader <==> week > current
  {
    if week == current then CurrentHeader
    else if week < current then PastHeader
    else FutureHeader
  }

  /** The header row: weeks 1 to `total`. */
  function Headers(total: nat, current: int): (r: seq<WeekClass>)
    ensures |r| == total
    ensures forall i :: 0 <= i < total ==> r[i] == ClassifyWeek(i + 1, current)
  {
    seq(total, i requires 0 <= i < total => ClassifyWeek(i + 1, current))
  }

  /** With the current week inside the plan, exactly one header is current,
      the `current - 1` before it are past and the rest are future. */
  lemma {:induction false} HeaderCounts(total: nat, current: int)
    requires 1 <= current <= total
    ensures Count(Headers(total, current), (h: WeekClass) => h == CurrentHeader) == 1
    ensures Count(Headers(total, current), (h: WeekClass) => h == PastHeader) == current - 1
    ensures Count(Headers(total, current), (h: WeekClass) => h == FutureHeader) == total - current
    decreases total
  {
    var hs := Headers(total, current);
    var last := [ClassifyWeek(total, current)];
    assert hs == Headers(total - 1, current) + last;
    FilterAppend(Headers(total - 1, current), last, (h: WeekClass) => h == CurrentHeader);
    FilterAppend(Headers(total - 1, current), last, (h: WeekClass) => h == PastHeader);
    FilterAppend(Headers(total - 1, current), last, (h: WeekClass) => h == FutureHeader);
    if current < total {
      HeaderCounts(total - 1, current);
    } else {
      BeforeCurrent(total - 1, current);
    }
  }

  /** When every week lies before the current one, all headers are past. */
  lemma {:induction false} BeforeCurrent(total: nat, current: int)
    requires total < current
    ensures Count(Headers(total, current), (h: WeekClass) => h == CurrentHeader) == 0
    ensures Count(Headers(total, current), (h: WeekClass) => h == PastHeader) == total
    ensures Count(Headers(total, current), (h: WeekClass) => h == FutureHeader) == 0
  {
    var hs := Headers(total, current);
    CountZeroIff(hs, (h: WeekClass) => h == CurrentHeader);
    CountFullIff(hs, (h: WeekClass) => h == PastHeader);
    CountZeroIff(hs, (h: WeekClass) => h == FutureHeader);
  }

  /** The plan shown: weeks 1 to 10 with week 5 current. */
  lemma ShownHeaders()
    ensures Count(Headers(TotalWeeks, CurrentWeek), (h: WeekClass) => h == CurrentHeader) == 1
    ensures Count(Headers(TotalWeeks, CurrentWeek), (h: WeekClass) => h == PastHeader) == 4
    ensures Count(Headers(TotalWeeks, CurrentWeek), (h: WeekClass) => h == FutureHeader) == 5
  {
    HeaderCounts(TotalWeeks, CurrentWeek);
  }

  /** A milestone's left offset, in percent of the row. */
  function Position(week: int): (r: real)
    ensures 1 <= week <= TotalWeeks ==> 0.0 <= r <= 90.0
    ensures week == 1 ==> r == 0.0
  {
    ((week - 1) as real / TotalWeeks as real) * 100.0
  }

  /** Later weeks sit further right, ten points per week. */
  lemma PositionSteps(a: int, b: int)
    ensures Position(b) - Position(a) == (b - a) as real * 10.0
    ensures a < b ==> Position(a) < Position(b)
  {
  }

  // ---------------------------------------------------------------------
  // The add dialog
  // ---------------------------------------------------------------------

  datatype MilestoneDraft = MilestoneDraft(title: string, week: int, status: MilestoneStatus)

  const EmptyMilestoneDraft := MilestoneDraft("", 1, Pending)

  /** What `handleCreateMilestone` passes to the store: a title and a
      non-zero week are required, and the project is always "1". */
  function SubmittedMilestone(d: MilestoneDraft): (r: Option<MilestoneInput>)
    ensures r.Some? <==> d.title != "" && d.week != 0
    ensures r.Some? ==> (r.value.title == d.title && r.value.week == d.week
                         && r.value.status == d.status && r.value.projectId == Some("1"))
  {
    if d.title != "" && d.week != 0 then Some(MilestoneInput(d.title, d.week, d.status, Some("1")))
    else None
  }

  /** The stored milestone belongs to project "1" and keeps the draft's week
      and status. */
  lemma SubmittedMilestoneStored(d: MilestoneDraft, count: nat)
    requires SubmittedMilestone(d).Some?
    ensures var m := NewMilestone(count, SubmittedMilestone(d).value);
            m.projectId == "1" && m.title == d.title && m.week == d.week && m.status == d.status
  {
  }

  class TimelineView {
    var isCreateModalOpen: bool
    var newMilestone: MilestoneDraft

    constructor ()
      ensures !isCreateModalOpen && newMilestone == EmptyMilestoneDraft
    {
      isCreateModalOpen := false;
      newMilestone := EmptyMilestoneDraft;
    }

    /** The dialog's open-state callback: the trigger opens it, dismissing closes it. */
    method SetDialogOpen(open: bool)
      modifies this
      ensures isCreateModalOpen == open && newMilestone == old(newMilestone)
    {
      isCreateModalOpen := open;
    }

    method EditDraft(d: MilestoneDraft)
      modifies this
      ensures newMilestone == d && isCreateModalOpen == old(isCreateModalOpen)
    {
      newMilestone := d;
    }

    method CreateMilestone(store: EntityStore)
      modifies this, store
      ensures var r := SubmittedMilestone(old(newMilestone));
              (r.None? ==> store.State() == old(store.State()) && newMilestone == old(newMilestone)
                           && isCreateModalOpen == old(isCreateModalOpen))
              && (r.Some? ==>
                    store.State() == old(store.State()).(milestones := old(store.milestones)
                      + [NewMilestone(|old(store.milestones)|, r.value)])
                    && newMilestone == EmptyMilestoneDraft && !isCreateModalOpen)
    {
      var r := SubmittedMilestone(newMilestone);
      if r.Some? {
        store.CreateMilestone(r.value);
        isCreateModalOpen := false;
        newMilestone := EmptyMilestoneDraft;
      }
    }
  }
}
