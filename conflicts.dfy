/** Conflict detection, candidate match scoring and the ranked suggestion
    list offered to a manager for an open shift. Shift and user tables are
    snapshots passed in as sequences; a storage error is a `StorageFailure`. */
module ShiftConflicts {
  import opened Domain

  // ---------------------------------------------------------------------
  // Time overlap
  // ---------------------------------------------------------------------

  /** The instant `t` lies in [start, end). */
  predicate Covers(start: int, end: int, t: int)
  {
    start <= t < end
  }

  /** Strict test on [start1, end1) and [start2, end2): the two intervals
      overlap exactly when some instant lies in both (the later start is
      one), so intervals that only touch do not overlap. */
  function HasTimeOverlap(start1: int, end1: int, start2: int, end2: int): (b: bool)
    ensures start1 < end1 && start2 < end2 && b ==>
              Covers(start1, end1, Max(start1, start2)) && Covers(start2, end2, Max(start1, start2))
    ensures (exists t :: Covers(start1, end1, t) && Covers(start2, end2, t)) ==> b
  {
    start1 < end2 && start2 < end1
  }

  lemma OverlapSymmetric(start1: int, end1: int, start2: int, end2: int)
    ensures HasTimeOverlap(start1, end1, start2, end2) == HasTimeOverlap(start2, end2, start1, end1)
  {
  }

  lemma TouchingIntervalsDoNotOverlap(start1: int, end1: int, end2: int)
    ensures !HasTimeOverlap(start1, end1, end1, end2)
    ensures !HasTimeOverlap(end1, end2, start1, end1)
  {
  }

  /** A zero-length interval strictly inside another counts as
      overlapping it, so the conflict query reports such a shift. */
  lemma EmptyIntervalInsideOverlaps(start: int, end: int, t: int)
    requires start < t < end
    ensures HasTimeOverlap(t, t, start, end)
    ensures HasTimeOverlap(start, end, t, t)
  {
  }

  lemma NestedIntervalOverlaps(start1: int, end1: int, start2: int, end2: int)
    requires start1 <= start2 < end2 <= end1
    ensures HasTimeOverlap(start1, end1, start2, end2)
  {
  }

  // ---------------------------------------------------------------------
  // Conflict detection
  // ---------------------------------------------------------------------

  /** Only OPEN and ASSIGNED shifts can conflict. */
  predicate Blocking(s: Shift)
  {
    s.status == OPEN || s.status == ASSIGNED
  }

  /** The query condition together with the overlap filter: the shift is
      assigned to `staffId`, still OPEN or ASSIGNED, and overlaps the
      proposed interval. */
  predicate ConflictsWith(staffId: int, start: int, end: int, s: Shift)
  {
    s.assignedToId == Some(staffId) && Blocking(s) && HasTimeOverlap(start, end, s.start, s.end)
  }

  /** The staff member's conflicting shifts, in table order. */
  function ConflictsOf(shifts: seq<Shift>, staffId: int, start: int, end: int): (r: seq<Shift>)
    ensures |r| <= |shifts|
    ensures forall s :: s in r ==> s in shifts && ConflictsWith(staffId, start, end, s)
    ensures forall s :: s in shifts && ConflictsWith(staffId, start, end, s) ==> s in r
  {
    if |shifts| == 0 then []
    else
      (if ConflictsWith(staffId, start, end, shifts[0]) then [shifts[0]] else [])
      + ConflictsOf(shifts[1..], staffId, start, end)
  }

  /** `ConflictsOf` keeps its input's order: it is the subsequence picked by
      the condition. */
  lemma {:induction false} ConflictsOfIsSubsequence(shifts: seq<Shift>, staffId: int, start: int, end: int)
    ensures IsSubsequence(ConflictsOf(shifts, staffId, start, end), shifts)
  {
    if |shifts| > 0 {
      ConflictsOfIsSubsequence(shifts[1..], staffId, start, end);
      if ConflictsWith(staffId, start, end, shifts[0]) {
        assert ConflictsOf(shifts, staffId, start, end)
            == [shifts[0]] + ConflictsOf(shifts[1..], staffId, start, end);
      } else {
        assert ConflictsOf(shifts, staffId, start, end) == ConflictsOf(shifts[1..], staffId, start, end);
      }
    }
  }

  /** `sub` is obtained from `s` by deleting elements. */
  predicate IsSubsequence<T(==)>(sub: seq<T>, s: seq<T>)
    decreases |s|
  {
    if |sub| == 0 then true
    else if |s| == 0 then false
    else if sub[0] == s[0] then IsSubsequence(sub[1..], s[1..])
    else IsSubsequence(sub, s[1..])
  }

  datatype ShiftConflict = ShiftConflict(hasConflict: bool, conflictingShifts: seq<Shift>)

  /** The conflict check for one staff member. A failed read of the shift
      table reports no conflict at all (fail-open). */
  function CheckStaffConflicts(table: Fetch<seq<Shift>>, staffId: int, start: int, end: int): (r: ShiftConflict)
    ensures table.StorageFailure? ==> r == ShiftConflict(false, [])
    ensures table.Fetched? ==> r.conflictingShifts == ConflictsOf(table.rows, staffId, start, end)
    ensures r.hasConflict <==> |r.conflictingShifts| > 0
    ensures table.Fetched? ==>
              (r.hasConflict <==> exists s :: s in table.rows && ConflictsWith(staffId, start, end, s))
  {
    match table
    case StorageFailure => ShiftConflict(false, [])
    case Fetched(rows) =>
      var found := ConflictsOf(rows, staffId, start, end);
      assert |found| > 0 ==> found[0] in found;
      ShiftConflict(|found| > 0, found)
  }

  // ---------------------------------------------------------------------
  // Match score of one candidate
  // ---------------------------------------------------------------------

  /** The human-readable reasons, one per scoring step. */
  datatype Reason =
    | ExcellentReliability | GoodReliability | FairReliability | ReliabilityNeedsImprovement
    | AvailableForAssignment | NotAvailableForAssignment
    | NoScheduleConflicts | ConflictingShifts(count: nat)
    | ActiveUser | InactiveUser
  {
    function Text(): string
    {
      match this
      case ExcellentReliability => "Excellent reliability"
      case GoodReliability => "Good reliability"
      case FairReliability => "Fair reliability"
      case ReliabilityNeedsImprovement => "Needs improvement in reliability"
      case AvailableForAssignment => "Available for assignment"
      case NotAvailableForAssignment => "Not available for shift assignment"
      case NoScheduleConflicts => "No schedule conflicts"
      case ConflictingShifts(n) => "Has " + NatToString(n) + " conflicting shift(s)"
      case ActiveUser => "Active user"
      case InactiveUser => "Inactive user"
    }

    predicate IsReliabilityReason()
    {
      ExcellentReliability? || GoodReliability? || FairReliability? || ReliabilityNeedsImprovement?
    }
  }

  /** The reliability reason, by the thresholds 0.9, 0.8 and 0.6. */
  function ReliabilityReason(reliability: real): (r: Reason)
    ensures r.IsReliabilityReason()
    ensures r == ExcellentReliability <==> reliability >= 0.9
    ensures r == GoodReliability <==> 0.8 <= reliability < 0.9
    ensures r == FairReliability <==> 0.6 <= reliability < 0.8
    ensures r == ReliabilityNeedsImprovement <==> reliability < 0.6
  {
    if reliability >= 0.9 then ExcellentReliability
    else if reliability >= 0.8 then GoodReliability
    else if reliability >= 0.6 then FairReliability
    else ReliabilityNeedsImprovement
  }

  /** Up to 40 points for reliability. */
  function ReliabilityPoints(reliability: real): (p: int)
    ensures 0.0 <= reliability ==> 0 <= p
    ensures reliability <= 1.0 ==> p <= 40
  {
    JsRound(reliability * 40.0)
  }

  /** The composite score: reliability points, 30 for a STAFF role, 30 for no
      conflict, then +10 when active or a 50-point penalty floored at 0 when
      inactive, capped at 100. */
  function Points(reliability: real, isStaff: bool, hasConflict: bool, active: bool): (p: int)
    ensures p <= 100
    ensures 0.0 <= reliability ==> 0 <= p
    ensures reliability <= 1.0 && !active ==> p <= 50
    ensures 0.0 <= reliability && active && isStaff && !hasConflict ==> p >= 70
    ensures reliability <= 1.0 && (hasConflict || !isStaff) ==> p <= 80
  {
    var base := ReliabilityPoints(reliability)
      + (if isStaff then 30 else 0)
      + (if hasConflict then 0 else 30);
    Min(100, if active then base + 10 else Max(0, base - 50))
  }

  /** More reliability never lowers the score. */
  lemma PointsMonotoneInReliability(r1: real, r2: real, isStaff: bool, hasConflict: bool, active: bool)
    requires r1 <= r2
    ensures Points(r1, isStaff, hasConflict, active) <= Points(r2, isStaff, hasConflict, active)
  {
    assert ReliabilityPoints(r1) <= ReliabilityPoints(r2) by {
      assert r1 * 40.0 <= r2 * 40.0;
    }
  }

  /** A conflict never raises the score. */
  lemma ConflictNeverHelps(reliability: real, isStaff: bool, active: bool)
    ensures Points(reliability, isStaff, true, active) <= Points(reliability, isStaff, false, active)
  {
  }

  datatype StaffMatchScore = StaffMatchScore(
    staff: User,
    score: int,
    hasConflict: bool,
    reliabilityScore: real,
    skillMatch: bool,
    conflictingShifts: seq<Shift>,
    reasons: seq<Reason>)

  /** The four reasons shown with a candidate, in order: reliability, role,
      conflicts (with their number) and account state. */
  function ReasonsOf(staff: User, conflicts: ShiftConflict): (reasons: seq<Reason>)
    ensures |reasons| == 4
    ensures reasons[0] == ReliabilityReason(staff.reliabilityScore)
    ensures reasons[1] in {AvailableForAssignment, NotAvailableForAssignment}
    ensures reasons[1] == AvailableForAssignment <==> staff.role == STAFF
    ensures reasons[2].ConflictingShifts? <==> conflicts.hasConflict
    ensures reasons[2].ConflictingShifts? ==> reasons[2] == ConflictingShifts(|conflicts.conflictingShifts|)
    ensures !reasons[2].ConflictingShifts? ==> reasons[2] == NoScheduleConflicts
    ensures reasons[3] in {ActiveUser, InactiveUser}
    ensures reasons[3] == ActiveUser <==> staff.active
  {
    [ ReliabilityReason(staff.reliabilityScore),
      if staff.role == STAFF then AvailableForAssignment else NotAvailableForAssignment,
      if conflicts.hasConflict then ConflictingShifts(|conflicts.conflictingShifts|) else NoScheduleConflicts,
      if staff.active then ActiveUser else InactiveUser ]
  }

  /** What scoring `staff` against the conflict report yields: the value the
      method `MatchScore` builds step by step. */
  function MatchOf(staff: User, conflicts: ShiftConflict): (m: StaffMatchScore)
    ensures m.staff == staff && m.reliabilityScore == staff.reliabilityScore
    ensures m.skillMatch <==> staff.role == STAFF
    ensures m.hasConflict == conflicts.hasConflict
    ensures m.conflictingShifts == conflicts.conflictingShifts
    ensures m.reasons == ReasonsOf(staff, conflicts)
    ensures m.score == Points(staff.reliabilityScore, staff.role == STAFF, conflicts.hasConflict, staff.active)
    ensures 0.0 <= staff.reliabilityScore <= 1.0 ==> 0 <= m.score <= 100
  {
    StaffMatchScore(
      staff,
      Points(staff.reliabilityScore, staff.role == STAFF, conflicts.hasConflict, staff.active),
      conflicts.hasConflict,
      staff.reliabilityScore,
      staff.role == STAFF,
      conflicts.conflictingShifts,
      ReasonsOf(staff, conflicts))
  }

  /** Scores one candidate for the shift [shiftStart, shiftEnd): accumulates
      `score` and appends one reason per step. `requiredSkill` is accepted
      and ignored, as the source does. */
  method MatchScore(staff: User, requiredSkill: string, shiftStart: int, shiftEnd: int, shiftTable: Fetch<seq<Shift>>)
    returns (m: StaffMatchScore)
    ensures m == MatchOf(staff, CheckStaffConflicts(shiftTable, staff.id, shiftStart, shiftEnd))
  {
    var conflicts := CheckStaffConflicts(shiftTable, staff.id, shiftStart, shiftEnd);
    var score := 0;
    var reasons: seq<Reason> := [];

    score := score + ReliabilityPoints(staff.reliabilityScore);
    reasons := reasons + [ReliabilityReason(staff.reliabilityScore)];

    var skillMatch := staff.role == STAFF;
    if skillMatch {
      score := score + 30;
      reasons := reasons + [AvailableForAssignment];
    } else {
      reasons := reasons + [NotAvailableForAssignment];
    }

    if !conflicts.hasConflict {
      score := score + 30;
      reasons := reasons + [NoScheduleConflicts];
    } else {
      reasons := reasons + [ConflictingShifts(|conflicts.conflictingShifts|)];
    }

    if staff.active {
      score := score + 10;
      reasons := reasons + [ActiveUser];
    } else {
      reasons := reasons + [InactiveUser];
      score := Max(0, score - 50);
    }

    assert Min(100, score) == Points(staff.reliabilityScore, skillMatch, conflicts.hasConflict, staff.active);
    assert reasons == ReasonsOf(staff, conflicts);
    m := StaffMatchScore(staff, Min(100, score), conflicts.hasConflict, staff.reliabilityScore,
                         skillMatch, conflicts.conflictingShifts, reasons);
  }

  // ---------------------------------------------------------------------
  // Stable ranking by score
  // ---------------------------------------------------------------------

  predicate SortedDesc(s: seq<StaffMatchScore>)
  {
    forall i, j :: 0 <= i < j < |s| ==> s[i].score >= s[j].score
  }

  /** Places `x` after every entry whose score is at least its own: the step
      of a stable descending insertion sort. */
  function Insert(s: seq<StaffMatchScore>, x: StaffMatchScore): seq<StaffMatchScore>
  {
    if |s| == 0 then [x]
    else if s[0].score >= x.score then [s[0]] + Insert(s[1..], x)
    else [x] + s
  }

  /** `Array.prototype.sort` with comparator `b.score - a.score`, which is
      stable: entries are inserted in input order. */
  function SortDesc(s: seq<StaffMatchScore>): seq<StaffMatchScore>
  {
    if |s| == 0 then [] else Insert(SortDesc(s[..|s| - 1]), s[|s| - 1])
  }

  lemma {:induction false} InsertPermutes(s: seq<StaffMatchScore>, x: StaffMatchScore)
    ensures multiset(Insert(s, x)) == multiset(s) + multiset{x}
    ensures |Insert(s, x)| == |s| + 1
  {
    if |s| > 0 && s[0].score >= x.score {
      InsertPermutes(s[1..], x);
      assert s == [s[0]] + s[1..];
    }
  }

  lemma {:induction false} InsertKeepsOrder(s: seq<StaffMatchScore>, x: StaffMatchScore)
    requires SortedDesc(s)
    ensures SortedDesc(Insert(s, x))
    ensures multiset(Insert(s, x)) == multiset(s) + multiset{x}
    ensures |Insert(s, x)| == |s| + 1
  {
    InsertPermutes(s, x);
    if |s| > 0 && s[0].score >= x.score {
      var rest := Insert(s[1..], x);
      InsertKeepsOrder(s[1..], x);
      var r := [s[0]] + rest;
      assert r == Insert(s, x);
      forall j | 0 < j < |r| ensures s[0].score >= r[j].score {
        assert r[j] == rest[j - 1];
        assert rest[j - 1] in multiset(s[1..]) + multiset{x};
      }
    }
  }

  /** The ranked list is sorted by non-increasing score and is a
      permutation of its input. */
  lemma {:induction false} SortDescSortsAndPermutes(s: seq<StaffMatchScore>)
    ensures SortedDesc(SortDesc(s))
    ensures multiset(SortDesc(s)) == multiset(s)
    ensures |SortDesc(s)| == |s|
  {
    if |s| > 0 {
      SortDescSortsAndPermutes(s[..|s| - 1]);
      InsertKeepsOrder(SortDesc(s[..|s| - 1]), s[|s| - 1]);
      assert s == s[..|s| - 1] + [s[|s| - 1]];
    }
  }

  /** The entries whose score is `v`, in order. */
  function WithScore(s: seq<StaffMatchScore>, v: int): seq<StaffMatchScore>
  {
    if |s| == 0 then [] else (if s[0].score == v then [s[0]] else []) + WithScore(s[1..], v)
  }

  lemma {:induction false} WithScoreAppend(s: seq<StaffMatchScore>, x: StaffMatchScore, v: int)
    ensures WithScore(s + [x], v) == WithScore(s, v) + (if x.score == v then [x] else [])
  {
    if |s| > 0 {
      assert (s + [x])[1..] == s[1..] + [x];
      WithScoreAppend(s[1..], x, v);
    }
  }

  lemma {:induction false} InsertIsStable(s: seq<StaffMatchScore>, x: StaffMatchScore, v: int)
    requires SortedDesc(s)
    ensures WithScore(Insert(s, x), v) == WithScore(s, v) + (if x.score == v then [x] else [])
  {
    if |s| == 0 {
    } else if s[0].score >= x.score {
      var rest := Insert(s[1..], x);
      assert SortedDesc(s[1..]) by { SortedTail(s); }
      InsertIsStable(s[1..], x, v);
      assert Insert(s, x) == [s[0]] + rest;
      assert ([s[0]] + rest)[1..] == rest;
      var head := if s[0].score == v then [s[0]] else [];
      assert WithScore([s[0]] + rest, v) == head + WithScore(rest, v);
      assert WithScore(s, v) == head + WithScore(s[1..], v);
    } else {
      assert Insert(s, x) == [x] + s;
      assert ([x] + s)[1..] == s;
      assert WithScore([x] + s, v) == (if x.score == v then [x] else []) + WithScore(s, v);
      if x.score == v {
        // every entry of s outscores x, so none has x's score
        NoneWithScore(s, v);
      }
    }
  }

  lemma SortedTail(s: seq<StaffMatchScore>)
    requires SortedDesc(s) && |s| > 0
    ensures SortedDesc(s[1..])
  {
    forall i, j | 0 <= i < j < |s| - 1 ensures s[1..][i].score >= s[1..][j].score {
      assert s[1..][i] == s[i + 1] && s[1..][j] == s[j + 1];
    }
  }

  lemma {:induction false} NoneWithScore(s: seq<StaffMatchScore>, v: int)
    requires SortedDesc(s) && |s| > 0 && s[0].score < v
    ensures WithScore(s, v) == []
  {
    if |s| > 1 {
      SortedTail(s);
      NoneWithScore(s[1..], v);
    }
  }

  /** Stability: for every score value, the entries with that score appear
      in the ranked list in the order they had in the input. */
  lemma {:induction false} SortDescIsStable(s: seq<StaffMatchScore>, v: int)
    ensures WithScore(SortDesc(s), v) == WithScore(s, v)
  {
    if |s| > 0 {
      var init, last := s[..|s| - 1], s[|s| - 1];
      var sorted := SortDesc(init);
      assert SortDesc(s) == Insert(sorted, last);
      SortDescIsStable(init, v);
      assert SortedDesc(sorted) by { SortDescSortsAndPermutes(init); }
      InsertIsStable(sorted, last, v);
      assert s == init + [last];
      WithScoreAppend(init, last, v);
    }
  }

  /** Inserting into a sorted list at the first position whose entries all
      score lower than `x` agrees with `Insert`. */
  lemma {:induction false} InsertAt(p: seq<StaffMatchScore>, x: StaffMatchScore, j: nat)
    requires SortedDesc(p) && j <= |p|
    requires j > 0 ==> p[j - 1].score >= x.score
    requires forall k :: j <= k < |p| ==> p[k].score < x.score
    ensures Insert(p, x) == p[..j] + [x] + p[j..]
  {
    if |p| == 0 {
    } else if j == 0 {
      assert p[0].score < x.score;
    } else {
      assert p[0].score >= x.score;
      InsertAt(p[1..], x, j - 1);
      assert p[..j] == [p[0]] + p[1..][..j - 1];
      assert p[j..] == p[1..][j - 1..];
    }
  }

  lemma SortDescStep(s: seq<StaffMatchScore>, i: nat)
    requires i < |s|
    ensures SortDesc(s[..i + 1]) == Insert(SortDesc(s[..i]), s[i])
  {
    assert s[..i + 1][..i] == s[..i];
  }

  /** Moves `a[i]` left past every entry of the sorted prefix `a[..i]` that
      scores strictly lower: one pass of the insertion sort. */
  method InsertLast(a: array<StaffMatchScore>, i: nat)
    requires i < a.Length && SortedDesc(a[..i])
    modifies a
    ensures a[..i + 1] == Insert(old(a[..i]), old(a[i]))
    ensures forall k :: i < k < a.Length ==> a[k] == old(a[k])
  {
    var x := a[i];
    ghost var p := a[..i];
    var j := OpenGap(a, i, x.score);
    InsertAt(p, x, j);
    a[j] := x;
    ghost var s := a[..i + 1];
    assert forall k :: 0 <= k < j ==> s[k] == p[k];
    assert forall k :: j < k < |s| ==> s[k] == p[k - 1];
    Spliced(s, p, x, j);
  }

  /** Shifts the entries of `a[..i]` that score below `score` one place to
      the right, leaving a gap at the returned index. */
  method OpenGap(a: array<StaffMatchScore>, i: nat, score: int) returns (j: nat)
    requires i < a.Length
    modifies a
    ensures j <= i
    ensures forall k :: 0 <= k < j ==> a[k] == old(a[k])
    ensures forall k :: j < k <= i ==> a[k] == old(a[k - 1])
    ensures forall k :: j <= k < i ==> old(a[k]).score < score
    ensures j > 0 ==> old(a[j - 1]).score >= score
    ensures forall k :: i < k < a.Length ==> a[k] == old(a[k])
  {
    j := i;
    while j > 0 && a[j - 1].score < score
      invariant 0 <= j <= i
      invariant forall k :: 0 <= k < j ==> a[k] == old(a[k])
      invariant forall k :: j < k <= i ==> a[k] == old(a[k - 1])
      invariant forall k :: j <= k < i ==> old(a[k]).score < score
      invariant forall k :: i < k < a.Length ==> a[k] == old(a[k])
    {
      a[j] := a[j - 1];
      j := j - 1;
    }
  }

  lemma Spliced(s: seq<StaffMatchScore>, p: seq<StaffMatchScore>, x: StaffMatchScore, j: nat)
    requires j <= |p| && |s| == |p| + 1 && s[j] == x
    requires forall k :: 0 <= k < j ==> s[k] == p[k]
    requires forall k :: j < k < |s| ==> s[k] == p[k - 1]
    ensures s == p[..j] + [x] + p[j..]
  {
  }

  /** Sorts the scores in place, stably, highest score first. */
  method SortByScore(a: array<StaffMatchScore>)
    modifies a
    ensures a[..] == SortDesc(old(a[..]))
  {
    ghost var input := a[..];
    var i := 0;
    while i < a.Length
      invariant 0 <= i <= a.Length
      invariant a[..i] == SortDesc(input[..i])
      invariant forall k :: i <= k < a.Length ==> a[k] == input[k]
    {
      SortDescSortsAndPermutes(input[..i]);
      InsertLast(a, i);
      SortDescStep(input, i);
      i := i + 1;
    }
    assert input[..a.Length] == input;
  }

  // ---------------------------------------------------------------------
  // Suggestions for a shift
  // ---------------------------------------------------------------------

  /** The candidate query: role STAFF, minus `excludeStaffId` when that id is
      truthy (absent or 0 excludes nobody). */
  predicate InPool(u: User, excludeStaffId: Option<int>)
  {
    u.role == STAFF && !(Truthy(excludeStaffId) && u.id == excludeStaffId.value)
  }

  function Pool(users: seq<User>, excludeStaffId: Option<int>): (r: seq<User>)
    ensures |r| <= |users|
    ensures forall u :: u in r ==> u in users && InPool(u, excludeStaffId)
    ensures forall u :: u in users && InPool(u, excludeStaffId) ==> u in r
  {
    if |users| == 0 then []
    else (if InPool(users[0], excludeStaffId) then [users[0]] else []) + Pool(users[1..], excludeStaffId)
  }

  /** The candidates scored one by one, in pool order. */
  function ScoreAll(pool: seq<User>, shiftTable: Fetch<seq<Shift>>, shiftStart: int, shiftEnd: int): (r: seq<StaffMatchScore>)
    ensures |r| == |pool|
    ensures forall k :: 0 <= k < |pool| ==>
              r[k] == MatchOf(pool[k], CheckStaffConflicts(shiftTable, pool[k].id, shiftStart, shiftEnd))
  {
    seq(|pool|, k requires 0 <= k < |pool| =>
      MatchOf(pool[k], CheckStaffConflicts(shiftTable, pool[k].id, shiftStart, shiftEnd)))
  }

  datatype Warning = StaffWithConflicts(count: nat) | NoStaffAvailable | ErrorLoadingSuggestions
  {
    function Text(): string
    {
      match this
      case StaffWithConflicts(n) =>
        NatToString(n) + " staff member(s) have scheduling conflicts for this time slot"
      case NoStaffAvailable => "No staff members are available without conflicts for this time slot"
      case ErrorLoadingSuggestions => "Error loading staff suggestions"
    }
  }

  datatype SmartSuggestion = SmartSuggestion(
    recommendedStaff: seq<StaffMatchScore>,
    conflictWarnings: seq<Warning>,
    totalAvailableStaff: nat,
    bestMatch: Option<StaffMatchScore>)

  /** Candidates with a conflict. */
  function CountConflicted(s: seq<StaffMatchScore>): (n: nat)
    ensures n <= |s|
    ensures n > 0 <==> exists k :: 0 <= k < |s| && s[k].hasConflict
  {
    if |s| == 0 then 0
    else
      var rest := CountConflicted(s[1..]);
      assert forall k :: 0 < k < |s| ==> s[k] == s[1..][k - 1];
      (if s[0].hasConflict then 1 else 0) + rest
  }

  predicate Available(m: StaffMatchScore)
  {
    !m.hasConflict && m.staff.active
  }

  /** Candidates with no conflict whose account is active. */
  function CountAvailable(s: seq<StaffMatchScore>): (n: nat)
    ensures n <= |s|
    ensures n == 0 <==> forall k :: 0 <= k < |s| ==> !Available(s[k])
  {
    if |s| == 0 then 0
    else
      var rest := CountAvailable(s[1..]);
      assert forall k :: 0 < k < |s| ==> s[k] == s[1..][k - 1];
      (if Available(s[0]) then 1 else 0) + rest
  }

  /** The warnings over the ranked list: one naming how many candidates have
      a conflict, present iff some do, and one saying nobody is available,
      present iff no candidate is both conflict-free and active. */
  function ConflictWarnings(ranked: seq<StaffMatchScore>): (warnings: seq<Warning>)
    ensures |warnings| == (if CountConflicted(ranked) > 0 then 1 else 0) + (if CountAvailable(ranked) == 0 then 1 else 0)
    ensures (exists w :: w in warnings && w.StaffWithConflicts?) <==> exists k :: 0 <= k < |ranked| && ranked[k].hasConflict
    ensures forall w :: w in warnings && w.StaffWithConflicts? ==> w == StaffWithConflicts(CountConflicted(ranked)) && warnings[0] == w
    ensures NoStaffAvailable in warnings <==> forall k :: 0 <= k < |ranked| ==> !Available(ranked[k])
    ensures ErrorLoadingSuggestions !in warnings
  {
    var withConflicts := CountConflicted(ranked);
    var conflictWarning := if withConflicts > 0 then [StaffWithConflicts(withConflicts)] else [];
    var availableWarning := if CountAvailable(ranked) == 0 then [NoStaffAvailable] else [];
    var warnings := conflictWarning + availableWarning;
    assert withConflicts > 0 ==> warnings[0] == StaffWithConflicts(withConflicts) && warnings[0] in warnings;
    assert forall w :: w in warnings && w.StaffWithConflicts? ==> withConflicts > 0;
    warnings
  }

  /** The `Promise.all` over the pool: one score per candidate, in pool
      order, in a new array. */
  method ScoreEach(pool: seq<User>, requiredSkill: string, shiftStart: int, shiftEnd: int,
                   shiftTable: Fetch<seq<Shift>>)
    returns (scores: array<StaffMatchScore>)
    ensures fresh(scores)
    ensures scores[..] == ScoreAll(pool, shiftTable, shiftStart, shiftEnd)
  {
    scores := new StaffMatchScore[|pool|];
    var i := 0;
    while i < |pool|
      invariant 0 <= i <= |pool|
      invariant forall k :: 0 <= k < i ==>
                  scores[k] == MatchOf(pool[k], CheckStaffConflicts(shiftTable, pool[k].id, shiftStart, shiftEnd))
    {
      var m := MatchScore(pool[i], requiredSkill, shiftStart, shiftEnd, shiftTable);
      scores[i] := m;
      i := i + 1;
    }
  }

  /** The suggestion list for the shift [shiftStart, shiftEnd). A failed read
      of the user table gives the fixed error result. */
  method GetSmartStaffSuggestions(
    userTable: Fetch<seq<User>>, shiftTable: Fetch<seq<Shift>>,
    requiredSkill: string, shiftStart: int, shiftEnd: int, excludeStaffId: Option<int>)
    returns (r: SmartSuggestion)
    ensures userTable.StorageFailure? ==> r == SmartSuggestion([], [ErrorLoadingSuggestions], 0, None)
    ensures userTable.Fetched? ==>
              var scored := ScoreAll(Pool(userTable.rows, excludeStaffId), shiftTable, shiftStart, shiftEnd);
              && r.recommendedStaff == SortDesc(scored)
              && SortedDesc(r.recommendedStaff)
              && multiset(r.recommendedStaff) == multiset(scored)
              && r.totalAvailableStaff == CountAvailable(r.recommendedStaff)
              && r.conflictWarnings ==
                   (if CountConflicted(r.recommendedStaff) > 0
                    then [StaffWithConflicts(CountConflicted(r.recommendedStaff))] else [])
                   + (if r.totalAvailableStaff == 0 then [NoStaffAvailable] else [])
              && r.bestMatch == (if |r.recommendedStaff| > 0 then Some(r.recommendedStaff[0]) else None)
  {
    if userTable.StorageFailure? {
      return SmartSuggestion([], [ErrorLoadingSuggestions], 0, None);
    }
    var pool := Pool(userTable.rows, excludeStaffId);
    var scores := ScoreEach(pool, requiredSkill, shiftStart, shiftEnd, shiftTable);
    ghost var scored := ScoreAll(pool, shiftTable, shiftStart, shiftEnd);

    SortByScore(scores);
    var sorted := scores[..];
    SortDescSortsAndPermutes(scored);

    var available := CountAvailable(sorted);
    r := SmartSuggestion(sorted, ConflictWarnings(sorted), available, if |sorted| > 0 then Some(sorted[0]) else None);
  }

  /** Every ranked candidate comes from the pool: a STAFF user (so its
      `skillMatch` holds) other than a truthy `excludeStaffId`. */
  lemma {:induction false} RankedCandidatesAreEligible(
    users: seq<User>, shiftTable: Fetch<seq<Shift>>, shiftStart: int, shiftEnd: int,
    excludeStaffId: Option<int>, m: StaffMatchScore)
    requires m in SortDesc(ScoreAll(Pool(users, excludeStaffId), shiftTable, shiftStart, shiftEnd))
    ensures m.skillMatch && m.staff.role == STAFF && m.staff in users
    ensures Truthy(excludeStaffId) ==> m.staff.id != excludeStaffId.value
  {
    var pool := Pool(users, excludeStaffId);
    var scored := ScoreAll(pool, shiftTable, shiftStart, shiftEnd);
    SortDescSortsAndPermutes(scored);
    assert m in multiset(SortDesc(scored));
    ScoredStaffComeFromPool(pool, shiftTable, shiftStart, shiftEnd, m);
  }

  /** A scored entry is the score of a pool member. */
  lemma ScoredStaffComeFromPool(pool: seq<User>, shiftTable: Fetch<seq<Shift>>, shiftStart: int, shiftEnd: int,
                                m: StaffMatchScore)
    requires m in ScoreAll(pool, shiftTable, shiftStart, shiftEnd)
    ensures m.staff in pool && (m.skillMatch <==> m.staff.role == STAFF)
  {
    var scored := ScoreAll(pool, shiftTable, shiftStart, shiftEnd);
    var k :| 0 <= k < |scored| && scored[k] == m;
    assert m.staff == pool[k];
  }

  /** Counting is the same before and after ranking, since ranking only
      reorders. */
  lemma {:induction false} CountsIgnoreOrder(s: seq<StaffMatchScore>, t: seq<StaffMatchScore>)
    requires multiset(s) == multiset(t)
    ensures CountConflicted(s) == CountConflicted(t)
    ensures CountAvailable(s) == CountAvailable(t)
    decreases |s|
  {
    if |s| > 0 {
      assert s[0] in multiset(t);
      var k :| 0 <= k < |t| && t[k] == s[0];
      RemoveMatching(s, t, k);
      CountsIgnoreOrder(s[1..], t[..k] + t[k + 1..]);
      CountConflictedSplit(t[..k], s[0], t[k + 1..]);
      CountAvailableSplit(t[..k], s[0], t[k + 1..]);
      assert t == t[..k] + [s[0]] + t[k + 1..];
    }
  }

  /** Removing the same entry from two permutations of each other leaves
      permutations of each other. */
  lemma RemoveMatching(s: seq<StaffMatchScore>, t: seq<StaffMatchScore>, k: nat)
    requires multiset(s) == multiset(t) && |s| > 0 && k < |t| && t[k] == s[0]
    ensures multiset(s[1..]) == multiset(t[..k] + t[k + 1..])
  {
    assert s == [s[0]] + s[1..];
    assert t == t[..k] + [t[k]] + t[k + 1..];
    calc {
      multiset(s[1..]);
      multiset(s) - multiset{s[0]};
      multiset(t) - multiset{t[k]};
      multiset(t[..k]) + multiset(t[k + 1..]);
      multiset(t[..k] + t[k + 1..]);
    }
  }

  lemma {:induction false} CountConflictedSplit(a: seq<StaffMatchScore>, x: StaffMatchScore, b: seq<StaffMatchScore>)
    ensures CountConflicted(a + [x] + b) == CountConflicted(a + b) + (if x.hasConflict then 1 else 0)
  {
    if |a| == 0 {
      assert a + [x] + b == [x] + b;
      assert a + b == b;
      assert ([x] + b)[1..] == b;
    } else {
      CountConflictedSplit(a[1..], x, b);
      assert (a + [x] + b)[1..] == a[1..] + [x] + b;
      assert (a + b)[1..] == a[1..] + b;
    }
  }

  lemma {:induction false} CountAvailableSplit(a: seq<StaffMatchScore>, x: StaffMatchScore, b: seq<StaffMatchScore>)
    ensures CountAvailable(a + [x] + b) == CountAvailable(a + b) + (if Available(x) then 1 else 0)
  {
    if |a| == 0 {
      assert a + [x] + b == [x] + b;
      assert a + b == b;
      assert ([x] + b)[1..] == b;
    } else {
      CountAvailableSplit(a[1..], x, b);
      assert (a + [x] + b)[1..] == a[1..] + [x] + b;
      assert (a + b)[1..] == a[1..] + b;
    }
  }

  // ---------------------------------------------------------------------
  // Display helpers
  // ---------------------------------------------------------------------

  datatype MatchTier = ExcellentMatch | GoodMatch | FairMatch | PoorMatch
  {
    function Rank(): nat
    {
      match this
      case PoorMatch => 0
      case FairMatch => 1
      case GoodMatch => 2
      case ExcellentMatch => 3
    }
  }

  /** The tier both `getScoreLabel` and `getScoreColor` switch on: 80, 60
      and 40 points. */
  function ScoreTier(score: int): (t: MatchTier)
    ensures t == ExcellentMatch <==> score >= 80
    ensures t == GoodMatch <==> 60 <= score < 80
    ensures t == FairMatch <==> 40 <= score < 60
    ensures t == PoorMatch <==> score < 40
  {
    if score >= 80 then ExcellentMatch
    else if score >= 60 then GoodMatch
    else if score >= 40 then FairMatch
    else PoorMatch
  }

  /** The badge text for a match score. */
  function ScoreLabel(score: int): (text: string)
    ensures text == "Excellent Match" <==> score >= 80
    ensures text == "Good Match" <==> 60 <= score < 80
    ensures text == "Fair Match" <==> 40 <= score < 60
    ensures text == "Poor Match" <==> score < 40
  {
    match ScoreTier(score)
    case ExcellentMatch => "Excellent Match"
    case GoodMatch => "Good Match"
    case FairMatch => "Fair Match"
    case PoorMatch => "Poor Match"
  }

  /** The badge colour for a match score: green, yellow, orange or red. */
  function ScoreColor(score: int): (color: string)
    ensures color == "bg-green-100 text-green-800 border-green-200" <==> score >= 80
    ensures color == "bg-yellow-100 text-yellow-800 border-yellow-200" <==> 60 <= score < 80
    ensures color == "bg-orange-100 text-orange-800 border-orange-200" <==> 40 <= score < 60
    ensures color == "bg-red-100 text-red-800 border-red-200" <==> score < 40
  {
    match ScoreTier(score)
    case ExcellentMatch => "bg-green-100 text-green-800 border-green-200"
    case GoodMatch => "bg-yellow-100 text-yellow-800 border-yellow-200"
    case FairMatch => "bg-orange-100 text-orange-800 border-orange-200"
    case PoorMatch => "bg-red-100 text-red-800 border-red-200"
  }

  /** A higher score never gets a lower tier. */
  lemma ScoreTierMonotone(s1: int, s2: int)
    requires s1 <= s2
    ensures ScoreTier(s1).Rank() <= ScoreTier(s2).Rank()
  {
  }

  /** An inactive candidate (reliability in [0,1]) is never labelled better
      than "Fair Match"; an active STAFF candidate without conflict is at
      least a "Good Match". */
  lemma {:induction false} TierOfCandidate(staff: User, conflicts: ShiftConflict)
    requires 0.0 <= staff.reliabilityScore <= 1.0
    ensures !staff.active ==> ScoreTier(MatchOf(staff, conflicts).score).Rank() <= FairMatch.Rank()
    ensures staff.active && staff.role == STAFF && !conflicts.hasConflict ==>
              ScoreTier(MatchOf(staff, conflicts).score).Rank() >= GoodMatch.Rank()
  {
  }

  /** The icon, colour class and label of the conflict badge (`label` is a
      reserved word here, hence `caption`). */
  datatype ConflictIndicator = ConflictIndicator(icon: string, color: string, caption: string)

  /** A red warning badge on a conflict, a green tick otherwise. */
  function GetConflictIndicator(hasConflict: bool): (r: ConflictIndicator)
    ensures r.caption == "Available" <==> !hasConflict
    ensures r.caption == "Has Conflicts" <==> hasConflict
    ensures r.icon == "⚠️" <==> hasConflict
    ensures r.icon == "✅" <==> !hasConflict
    ensures r.color == "text-red-600" <==> hasConflict
    ensures r.color == "text-green-600" <==> !hasConflict
  {
    if hasConflict then ConflictIndicator("⚠️", "text-red-600", "Has Conflicts")
    else ConflictIndicator("✅", "text-green-600", "Available")
  }
}
