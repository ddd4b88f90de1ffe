/** The administrator's statistics: call-outs logged, filled and missed per
    role of the caller, the reliability distribution of the users, the user
    totals and a fourteen-day activity chart. Days are fixed 24-hour spans
    of epoch milliseconds. */
module AdminStats {
  import opened Domain

  const DAY_MS: int := 86_400_000

  /** A call-out row together with the role of the user who called out, as
      the query's `include` delivers it. */
  datatype JoinedLog = JoinedLog(log: CallOutLog, callerRole: Role)

  // ---------------------------------------------------------------------
  // Counting
  // ---------------------------------------------------------------------

  /** `s.filter(p).length`, counted from the end so that it follows a loop
      over a growing prefix. */
  function Count<T>(s: seq<T>, p: T -> bool): (n: nat)
    ensures n <= |s|
  {
    if |s| == 0 then 0 else Count(s[..|s| - 1], p) + (if p(s[|s| - 1]) then 1 else 0)
  }

  function And<T>(p: T -> bool, q: T -> bool): T -> bool
  {
    x => p(x) && q(x)
  }

  lemma CountSnoc<T>(s: seq<T>, x: T, p: T -> bool)
    ensures Count(s + [x], p) == Count(s, p) + (if p(x) then 1 else 0)
  {
    assert (s + [x])[..|s|] == s;
  }

  /** Two disjoint conditions that both imply a third are counted at most
      as often as the third. */
  lemma {:induction false} CountDisjoint<T>(s: seq<T>, p: T -> bool, q: T -> bool, r: T -> bool)
    requires forall x :: p(x) ==> r(x) && !q(x)
    requires forall x :: q(x) ==> r(x)
    ensures Count(s, p) + Count(s, q) <= Count(s, r)
  {
    if |s| > 0 {
      CountDisjoint(s[..|s| - 1], p, q, r);
    }
  }

  lemma {:induction false} CountMono<T>(s: seq<T>, p: T -> bool, q: T -> bool)
    requires forall x :: p(x) ==> q(x)
    ensures Count(s, p) <= Count(s, q)
  {
    if |s| > 0 {
      CountMono(s[..|s| - 1], p, q);
    }
  }

  lemma {:induction false} CountNone<T>(s: seq<T>, p: T -> bool)
    requires forall x :: !p(x)
    ensures Count(s, p) == 0
  {
    if |s| > 0 {
      CountNone(s[..|s| - 1], p);
    }
  }

  lemma {:induction false} CountAll<T>(s: seq<T>, p: T -> bool)
    requires forall x :: p(x)
    ensures Count(s, p) == |s|
  {
    if |s| > 0 {
      CountAll(s[..|s| - 1], p);
    }
  }

  // ---------------------------------------------------------------------
  // Per-role shift statistics
  // ---------------------------------------------------------------------

  function CalledBy(role: Role): JoinedLog -> bool
  {
    (r: JoinedLog) => r.callerRole == role
  }

  function AnyLog(r: JoinedLog): bool
  {
    true
  }

  /** Accepted (a truthy `acceptedById`) and not missed. */
  function IsFilled(r: JoinedLog): bool
  {
    Truthy(r.log.acceptedById) && !r.log.missed
  }

  function IsMissed(r: JoinedLog): bool
  {
    r.log.missed
  }

  /** What the per-role `missed` counter counts: accepted and missed. */
  function IsAcceptedMissed(r: JoinedLog): bool
  {
    Truthy(r.log.acceptedById) && r.log.missed
  }

  datatype Counts = Counts(logged: nat, filled: nat, missed: nat)

  const NoCounts := Counts(0, 0, 0)

  datatype ByRole = ByRole(staff: Counts, manager: Counts, admin: Counts)
  {
    function Get(role: Role): Counts
    {
      match role
      case STAFF => staff
      case MANAGER => manager
      case ADMIN => admin
    }

    function With(role: Role, c: Counts): (b: ByRole)
      ensures b.Get(role) == c
      ensures forall other :: other != role ==> b.Get(other) == Get(other)
    {
      match role
      case STAFF => this.(staff := c)
      case MANAGER => this.(manager := c)
      case ADMIN => this.(admin := c)
    }
  }

  function CountsFor(rows: seq<JoinedLog>, role: Role): Counts
  {
    Counts(Count(rows, And(CalledBy(role), AnyLog)),
           Count(rows, And(CalledBy(role), IsFilled)),
           Count(rows, And(CalledBy(role), IsAcceptedMissed)))
  }

  /** `shiftStatsByRole` as the three filters it amounts to. */
  function ShiftStatsByRole(rows: seq<JoinedLog>): ByRole
  {
    ByRole(CountsFor(rows, STAFF), CountsFor(rows, MANAGER), CountsFor(rows, ADMIN))
  }

  lemma CountsForSnoc(rows: seq<JoinedLog>, x: JoinedLog, role: Role)
    ensures CountsFor(rows + [x], role) ==
              var c := CountsFor(rows, role);
              if x.callerRole != role then c
              else if !Truthy(x.log.acceptedById) then c.(logged := c.logged + 1)
              else if x.log.missed then c.(logged := c.logged + 1, missed := c.missed + 1)
              else c.(logged := c.logged + 1, filled := c.filled + 1)
  {
    CountSnoc(rows, x, And(CalledBy(role), AnyLog));
    CountSnoc(rows, x, And(CalledBy(role), IsFilled));
    CountSnoc(rows, x, And(CalledBy(role), IsAcceptedMissed));
    assert AnyLog(x);
    assert And(CalledBy(role), AnyLog)(x) == (x.callerRole == role && AnyLog(x));
    assert And(CalledBy(role), IsFilled)(x) == (x.callerRole == role && IsFilled(x));
    assert And(CalledBy(role), IsAcceptedMissed)(x) == (x.callerRole == role && IsAcceptedMissed(x));
  }

  /** The `forEach` that bumps the caller's role's counters. */
  method TallyByRole(rows: seq<JoinedLog>) returns (stats: ByRole)
    ensures stats == ShiftStatsByRole(rows)
  {
    stats := ByRole(NoCounts, NoCounts, NoCounts);
    for i := 0 to |rows|
      invariant stats == ShiftStatsByRole(rows[..i])
    {
      var row := rows[i];
      var c := stats.Get(row.callerRole);
      c := c.(logged := c.logged + 1);
      if Truthy(row.log.acceptedById) {
        if row.log.missed {
          c := c.(missed := c.missed + 1);
        } else {
          c := c.(filled := c.filled + 1);
        }
      }
      assert rows[..i + 1] == rows[..i] + [row];
      CountsForSnoc(rows[..i], row, STAFF);
      CountsForSnoc(rows[..i], row, MANAGER);
      CountsForSnoc(rows[..i], row, ADMIN);
      stats := stats.With(row.callerRole, c);
    }
    assert rows[..|rows|] == rows;
  }

  /** Counting rows that satisfy `p` role by role gives the total. */
  lemma {:induction false} CountByRole(rows: seq<JoinedLog>, p: JoinedLog -> bool)
    ensures Count(rows, And(CalledBy(STAFF), p)) + Count(rows, And(CalledBy(MANAGER), p))
              + Count(rows, And(CalledBy(ADMIN), p)) == Count(rows, p)
  {
    if |rows| > 0 {
      CountByRole(rows[..|rows| - 1], p);
    }
  }

  /** Every call-out is logged under exactly one role. */
  lemma LoggedAddsUp(rows: seq<JoinedLog>)
    ensures var b := ShiftStatsByRole(rows);
            b.staff.logged + b.manager.logged + b.admin.logged == |rows|
  {
    CountByRole(rows, AnyLog);
    CountAll(rows, AnyLog);
  }

  /** Per role, filled and missed are disjoint parts of logged. */
  lemma FilledAndMissedWithinLogged(rows: seq<JoinedLog>, role: Role)
    ensures var c := ShiftStatsByRole(rows).Get(role);
            c.filled + c.missed <= c.logged
  {
    CountDisjoint(rows, And(CalledBy(role), IsFilled), And(CalledBy(role), IsAcceptedMissed), And(CalledBy(role), AnyLog));
  }

  /** `totalShiftsFilled` is the sum of the per-role `filled` counters. */
  lemma TotalFilledAddsUp(rows: seq<JoinedLog>)
    ensures var b := ShiftStatsByRole(rows);
            b.staff.filled + b.manager.filled + b.admin.filled == Count(rows, IsFilled)
  {
    CountByRole(rows, IsFilled);
  }

  /** `totalShiftsMissed` counts missed call-outs whether or not they were
      accepted, so it is at least the sum of the per-role `missed`
      counters. */
  lemma TotalMissedCoversRoles(rows: seq<JoinedLog>)
    ensures var b := ShiftStatsByRole(rows);
            b.staff.missed + b.manager.missed + b.admin.missed <= Count(rows, IsMissed)
  {
    CountByRole(rows, IsAcceptedMissed);
    CountMono(rows, IsAcceptedMissed, IsMissed);
  }

  /** A missed call-out nobody accepted counts in the total but in no
      role's `missed`. */
  lemma MissedWithoutAcceptance()
    ensures var rows := [JoinedLog(CallOutLog(1, 1, 1, None, 0, None, None, None, true, Live), STAFF)];
            var b := ShiftStatsByRole(rows);
            && Count(rows, IsMissed) == 1
            && b.staff.missed + b.manager.missed + b.admin.missed == 0
  {
    var rows := [JoinedLog(CallOutLog(1, 1, 1, None, 0, None, None, None, true, Live), STAFF)];
    assert rows[..0] == [];
    assert !IsAcceptedMissed(rows[0]);
    forall role | true
      ensures Count(rows, And(CalledBy(role), IsAcceptedMissed)) == 0
    {
      assert !And(CalledBy(role), IsAcceptedMissed)(rows[0]);
    }
  }

  // ---------------------------------------------------------------------
  // Users
  // ---------------------------------------------------------------------

  function IsExcellent(u: User): bool { u.reliabilityScore >= 0.9 }
  function IsGood(u: User): bool { 0.8 <= u.reliabilityScore < 0.9 }
  function IsFair(u: User): bool { 0.6 <= u.reliabilityScore < 0.8 }
  function IsPoor(u: User): bool { u.reliabilityScore < 0.6 }
  function IsActive(u: User): bool { u.active }

  datatype Distribution = Distribution(excellent: nat, good: nat, fair: nat, poor: nat)

  function DistributionOf(users: seq<User>): Distribution
  {
    Distribution(Count(users, IsExcellent), Count(users, IsGood), Count(users, IsFair), Count(users, IsPoor))
  }

  /** The four buckets are disjoint and cover every score, so every user is
      counted exactly once. */
  lemma {:induction false} BucketsCoverUsers(users: seq<User>)
    ensures var d := DistributionOf(users);
            d.excellent + d.good + d.fair + d.poor == |users|
  {
    if |users| > 0 {
      BucketsCoverUsers(users[..|users| - 1]);
    }
  }

  function HasRole(role: Role): User -> bool
  {
    (u: User) => u.role == role
  }

  /** `groupBy role`: one entry per role that has users. */
  function UsersByRole(users: seq<User>): (r: seq<(Role, nat)>)
    ensures forall role, n :: (role, n) in r <==> n == Count(users, HasRole(role)) && n > 0
  {
    (if Count(users, HasRole(STAFF)) > 0 then [(STAFF, Count(users, HasRole(STAFF)))] else [])
    + (if Count(users, HasRole(MANAGER)) > 0 then [(MANAGER, Count(users, HasRole(MANAGER)))] else [])
    + (if Count(users, HasRole(ADMIN)) > 0 then [(ADMIN, Count(users, HasRole(ADMIN)))] else [])
  }

  function IsInactive(u: User): bool { !u.active }

  /** `groupBy active`, labelled "Active" and "Inactive". */
  function UsersByStatus(users: seq<User>): (r: seq<(string, nat)>)
    ensures forall name, n :: (name, n) in r <==>
              || (name == "Active" && n == Count(users, IsActive) && n > 0)
              || (name == "Inactive" && n == Count(users, IsInactive) && n > 0)
  {
    (if Count(users, IsActive) > 0 then [("Active", Count(users, IsActive))] else [])
    + (if Count(users, IsInactive) > 0 then [("Inactive", Count(users, IsInactive))] else [])
  }

  // ---------------------------------------------------------------------
  // Daily activity
  // ---------------------------------------------------------------------

  function Within(from: int, until: int): JoinedLog -> bool
  {
    (r: JoinedLog) => from <= r.log.timestamp < until
  }

  datatype DayActivity = DayActivity(date: int, logged: nat, filled: nat, missed: nat)

  function DayOf(rows: seq<JoinedLog>, date: int): DayActivity
  {
    var onDay := Within(date, date + DAY_MS);
    DayActivity(date, Count(rows, onDay), Count(rows, And(onDay, IsFilled)), Count(rows, And(onDay, IsMissed)))
  }

  /** One entry per day for the fourteen days from `chartStart`. */
  function Chart(rows: seq<JoinedLog>, chartStart: int): (days: seq<DayActivity>)
    ensures |days| == 14
    ensures forall i :: 0 <= i < 14 ==> days[i].date == chartStart + i * DAY_MS
  {
    seq(14, i => DayOf(rows, chartStart + i * DAY_MS))
  }

  /** The chart loop. */
  method DailyActivity(rows: seq<JoinedLog>, chartStart: int) returns (days: seq<DayActivity>)
    ensures days == Chart(rows, chartStart)
  {
    days := [];
    for i := 0 to 14
      invariant |days| == i
      invariant forall j :: 0 <= j < i ==> days[j] == DayOf(rows, chartStart + j * DAY_MS)
    {
      var date := chartStart + i * DAY_MS;
      days := days + [DayOf(rows, date)];
    }
  }

  /** On every day, filled and missed call-outs are disjoint parts of the
      logged ones. */
  lemma DayCountsConsistent(rows: seq<JoinedLog>, date: int)
    ensures var d := DayOf(rows, date);
            d.filled + d.missed <= d.logged
  {
    var onDay := Within(date, date + DAY_MS);
    CountDisjoint(rows, And(onDay, IsFilled), And(onDay, IsMissed), onDay);
  }

  /** Adjacent spans split a count. */
  lemma {:induction false} CountWithinSplit(rows: seq<JoinedLog>, a: int, b: int, c: int)
    requires a <= b <= c
    ensures Count(rows, Within(a, c)) == Count(rows, Within(a, b)) + Count(rows, Within(b, c))
  {
    if |rows| > 0 {
      CountWithinSplit(rows[..|rows| - 1], a, b, c);
    }
  }

  function SumLogged(days: seq<DayActivity>): nat
  {
    if |days| == 0 then 0 else SumLogged(days[..|days| - 1]) + days[|days| - 1].logged
  }

  /** The days are disjoint and consecutive: over the first `k` of them the
      logged counts add up to the call-outs in those `k` days. */
  lemma {:induction false} DaysCoverSpan(rows: seq<JoinedLog>, days: seq<DayActivity>, chartStart: int, k: nat)
    requires k <= |days|
    requires forall i :: 0 <= i < |days| ==> days[i] == DayOf(rows, chartStart + i * DAY_MS)
    ensures SumLogged(days[..k]) == Count(rows, Within(chartStart, chartStart + k * DAY_MS))
  {
    if k == 0 {
      CountNone(rows, Within(chartStart, chartStart));
    } else {
      DaysCoverSpan(rows, days, chartStart, k - 1);
      assert days[..k][..k - 1] == days[..k - 1];
      CountWithinSplit(rows, chartStart, chartStart + (k - 1) * DAY_MS, chartStart + k * DAY_MS);
    }
  }

  // ---------------------------------------------------------------------
  // The report
  // ---------------------------------------------------------------------

  datatype StatsReport = StatsReport(
    usersByRole: seq<(Role, nat)>,
    usersByStatus: seq<(string, nat)>,
    shiftStatsByRole: ByRole,
    dailyActivity: seq<DayActivity>,
    reliabilityDistribution: Distribution,
    totalUsers: nat,
    activeUsers: nat,
    totalShiftsLogged: nat,
    totalShiftsFilled: nat,
    totalShiftsMissed: nat)

  function From(start: int): JoinedLog -> bool
  {
    (r: JoinedLog) => r.log.timestamp >= start
  }

  /** The call-outs whose time is at or after `start`, in table order. */
  function Since(rows: seq<JoinedLog>, start: int): (r: seq<JoinedLog>)
    ensures |r| == Count(rows, From(start))
    ensures forall x :: x in r <==> x in rows && x.log.timestamp >= start
  {
    if |rows| == 0 then []
    else
      var last := rows[|rows| - 1];
      assert rows == rows[..|rows| - 1] + [last];
      Since(rows[..|rows| - 1], start) + (if last.log.timestamp >= start then [last] else [])
  }

  /** The report the route builds from its queries. */
  function ReportOf(users: seq<User>, rows: seq<JoinedLog>, now: int, days: int): StatsReport
  {
    var window := Since(rows, now - days * DAY_MS);
    StatsReport(UsersByRole(users), UsersByStatus(users), ShiftStatsByRole(window),
                Chart(rows, now - 14 * DAY_MS), DistributionOf(users), |users|, Count(users, IsActive),
                |window|, Count(window, IsFilled), Count(window, IsMissed))
  }

  /** The per-role counters of a window add up to its totals (except
      `missed`, which the total can exceed). */
  lemma WindowConsistent(window: seq<JoinedLog>)
    ensures var b := ShiftStatsByRole(window);
            && b.staff.logged + b.manager.logged + b.admin.logged == |window|
            && b.staff.filled + b.manager.filled + b.admin.filled == Count(window, IsFilled)
            && b.staff.missed + b.manager.missed + b.admin.missed <= Count(window, IsMissed)
            && (forall role :: b.Get(role).filled + b.Get(role).missed <= b.Get(role).logged)
  {
    LoggedAddsUp(window);
    TotalFilledAddsUp(window);
    TotalMissedCoversRoles(window);
    FilledAndMissedWithinLogged(window, STAFF);
    FilledAndMissedWithinLogged(window, MANAGER);
    FilledAndMissedWithinLogged(window, ADMIN);
  }

  /** The fourteen chart days add up to the call-outs of the fourteen days
      from `chartStart`. */
  lemma ChartCoversFortnight(rows: seq<JoinedLog>, chartStart: int)
    ensures SumLogged(Chart(rows, chartStart)) == Count(rows, Within(chartStart, chartStart + 14 * DAY_MS))
  {
    var chart := Chart(rows, chartStart);
    DaysCoverSpan(rows, chart, chartStart, 14);
    assert chart[..14] == chart;
  }

  /** What the report promises: the per-role counters add up to the totals
      (except `missed`, which the total can exceed), the buckets add up to
      the user count, and the fourteen chart days add up to the call-outs of
      the fortnight before `now`. */
  lemma ReportConsistent(users: seq<User>, rows: seq<JoinedLog>, now: int, days: int)
    ensures var rep := ReportOf(users, rows, now, days);
            var b := rep.shiftStatsByRole;
            var d := rep.reliabilityDistribution;
            && b.staff.logged + b.manager.logged + b.admin.logged == rep.totalShiftsLogged
            && b.staff.filled + b.manager.filled + b.admin.filled == rep.totalShiftsFilled
            && b.staff.missed + b.manager.missed + b.admin.missed <= rep.totalShiftsMissed
            && (forall role :: b.Get(role).filled + b.Get(role).missed <= b.Get(role).logged)
            && d.excellent + d.good + d.fair + d.poor == rep.totalUsers
            && rep.activeUsers <= rep.totalUsers
            && |rep.dailyActivity| == 14
            && SumLogged(rep.dailyActivity) == Count(rows, Within(now - 14 * DAY_MS, now))
  {
    var window := Since(rows, now - days * DAY_MS);
    WindowConsistent(window);
    BucketsCoverUsers(users);
    ChartCoversFortnight(rows, now - 14 * DAY_MS);
    assert now - 14 * DAY_MS + 14 * DAY_MS == now;
  }

  /** `GET /api/admin/stats` over the user table and every call-out joined
      with its caller's role. The counters cover the call-outs of the last
      `days` days; the chart covers the fourteen days before `now`. A failed
      read of either table ends in the route's catch, a 500. */
  method GetAdminStats(session: Session, userTable: Fetch<seq<User>>, joinedLogs: Fetch<seq<JoinedLog>>,
                       now: int, days: int)
    returns (r: Result<StatsReport>)
    ensures r == Failure(Unauthorized) <==> !session.LoggedIn?
    ensures r == Failure(Forbidden) <==> session.LoggedIn? && session.claimed != Claims(ADMIN)
    ensures r == Failure(ServerError) <==>
              session.LoggedIn? && session.claimed == Claims(ADMIN)
              && (userTable.StorageFailure? || joinedLogs.StorageFailure?)
    ensures r.Success? <==>
              session.LoggedIn? && session.claimed == Claims(ADMIN) && userTable.Fetched? && joinedLogs.Fetched?
    ensures r.Success? ==> r.value == ReportOf(userTable.rows, joinedLogs.rows, now, days)
  {
    var auth := Authorise(session, {ADMIN});
    if auth.Failure? {
      return Failure(auth.error);
    }
    if userTable.StorageFailure? || joinedLogs.StorageFailure? {
      return Failure(ServerError);
    }
    var users, rows := userTable.rows, joinedLogs.rows;
    var window := Since(rows, now - days * DAY_MS);
    var byRole := TallyByRole(window);
    var daily := DailyActivity(rows, now - 14 * DAY_MS);
    r := Success(StatsReport(UsersByRole(users), UsersByStatus(users), byRole, daily, DistributionOf(users),
                             |users|, Count(users, IsActive), |window|, Count(window, IsFilled),
                             Count(window, IsMissed)));
  }
}
