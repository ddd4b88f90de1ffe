/** The mutating API routes over the three tables: accepting a shift,
    cancelling a shift, cancelling a call-out, logging a call-out and an
    administrator's change of a user's status. Each route is specified by a
    function from the store's state before the request to its response and
    the state after; the `Store` class performs the same steps in place. */
module Store {
  import opened Domain
  import Reliability

  datatype ActionType =
    | SHIFT_ACCEPTED
    | SHIFT_CANCELLED
    | CALLOUT_CREATED
    | CALLOUT_CANCELLED
    | USER_ACTIVATED
    | USER_DEACTIVATED
    | USER_SUSPENDED

  /** One audit row: who acted, what they did and, where it does not
      depend on the locale, the detail text. */
  datatype AuditEntry = AuditEntry(userId: int, actionType: ActionType, detail: Option<string>)

  /** The tables and the next values of the two auto-increment ids. */
  datatype State = State(
    users: seq<User>,
    shifts: seq<Shift>,
    logs: seq<CallOutLog>,
    audit: seq<AuditEntry>,
    nextShiftId: int,
    nextLogId: int)

  /** A route's response and the state it leaves behind. */
  datatype Outcome<+T> = Outcome(response: Result<T>, after: State)

  predicate UniqueUserIds(users: seq<User>)
  {
    forall i, j :: 0 <= i < j < |users| ==> users[i].id != users[j].id
  }

  predicate UniqueShiftIds(shifts: seq<Shift>)
  {
    forall i, j :: 0 <= i < j < |shifts| ==> shifts[i].id != shifts[j].id
  }

  predicate UniqueLogIds(logs: seq<CallOutLog>)
  {
    forall i, j :: 0 <= i < j < |logs| ==> logs[i].id != logs[j].id
  }

  /** Primary keys are unique and positive, the auto-increment counters are
      above every id handed out, and every stored reliability score is in
      [0, 1]. */
  predicate WellFormed(st: State)
  {
    && UniqueUserIds(st.users)
    && UniqueShiftIds(st.shifts)
    && UniqueLogIds(st.logs)
    && 0 < st.nextShiftId && 0 < st.nextLogId
    && (forall k :: 0 <= k < |st.shifts| ==> 0 < st.shifts[k].id < st.nextShiftId)
    && (forall k :: 0 <= k < |st.logs| ==> 0 < st.logs[k].id < st.nextLogId)
    && (forall k :: 0 <= k < |st.users| ==> 0.0 <= st.users[k].reliabilityScore <= 1.0)
  }

  /** With unique ids the row `FindBy` returns is the only one with that id. */
  lemma OnlyShiftWithId(shifts: seq<Shift>, id: int)
    requires UniqueShiftIds(shifts) && FindBy(shifts, ShiftId, id).Some?
    ensures forall k :: 0 <= k < |shifts| && shifts[k].id == id ==> k == FindBy(shifts, ShiftId, id).value
  {
  }

  lemma OnlyLogWithId(logs: seq<CallOutLog>, id: int)
    requires UniqueLogIds(logs) && FindBy(logs, LogId, id).Some?
    ensures forall k :: 0 <= k < |logs| && logs[k].id == id ==> k == FindBy(logs, LogId, id).value
  {
  }

  lemma OnlyUserWithId(users: seq<User>, id: int)
    requires UniqueUserIds(users) && FindBy(users, UserId, id).Some?
    ensures forall k :: 0 <= k < |users| && users[k].id == id ==> k == FindBy(users, UserId, id).value
  {
  }

  // ---------------------------------------------------------------------
  // Accepting a shift
  // ---------------------------------------------------------------------

  /** `after` is `before` assigned to `actor`: same id, skill and times,
      status ASSIGNED. */
  predicate AcceptedShift(before: Shift, after: Shift, actor: int)
  {
    && after.id == before.id
    && after.requiredSkill == before.requiredSkill
    && after.start == before.start
    && after.end == before.end
    && after.status == ASSIGNED
    && after.assignedToId == Some(actor)
  }

  /** `after` is `before` stamped as accepted by `actor` at `now`; its link,
      reason, call-out time, missed flag and status are kept. */
  predicate AcceptedLog(before: CallOutLog, after: CallOutLog, actor: int, now: int)
  {
    && after.id == before.id
    && after.userId == before.userId
    && after.shiftId == before.shiftId
    && after.reason == before.reason
    && after.timestamp == before.timestamp
    && after.missed == before.missed
    && after.status == before.status
    && after.acceptedById == Some(actor)
    && after.filledAt == Some(now)
    && after.respondedAt == Some(now)
  }

  function AssignedTo(s: Shift, actor: int): Shift
  {
    s.(assignedToId := Some(actor), status := ASSIGNED)
  }

  function StampedBy(l: CallOutLog, actor: int, now: int): CallOutLog
  {
    l.(acceptedById := Some(actor), filledAt := Some(now), respondedAt := Some(now))
  }

  /** `updateMany` on the call-outs of one shift. */
  function Stamped(logs: seq<CallOutLog>, shiftId: int, actor: int, now: int): (r: seq<CallOutLog>)
    ensures |r| == |logs|
    ensures forall k :: 0 <= k < |logs| && logs[k].shiftId == shiftId ==> AcceptedLog(logs[k], r[k], actor, now)
    ensures forall k :: 0 <= k < |logs| && logs[k].shiftId != shiftId ==> r[k] == logs[k]
  {
    seq(|logs|, k requires 0 <= k < |logs| => if logs[k].shiftId == shiftId then StampedBy(logs[k], actor, now) else logs[k])
  }

  /** `updateUserReliabilityScore`: the user's stored score becomes the one
      computed from the call-outs; an unknown user changes nothing. */
  function WithReliability(users: seq<User>, logs: seq<CallOutLog>, userId: int): (r: seq<User>)
    ensures |r| == |users|
    ensures forall k :: 0 <= k < |users| && users[k].id != userId ==> r[k] == users[k]
    ensures UniqueUserIds(users) ==>
              forall k :: 0 <= k < |users| && users[k].id == userId ==>
                r[k] == users[k].(reliabilityScore := Reliability.ReliabilityOf(logs, userId).score)
  {
    match FindBy(users, UserId, userId)
    case None => users
    case Some(i) => users[i := users[i].(reliabilityScore := Reliability.ReliabilityOf(logs, userId).score)]
  }

  /** `POST /api/shift/accept`. A missing `shiftId` is rejected before the
      session is looked at; then 401 and 403 for a missing, unparsable or
      non-STAFF session; then 404 for an unknown user or shift. Otherwise
      the shift is assigned to the actor whatever its status, every call-out
      of that shift is stamped, an audit row is written and, unless the
      background recomputation fails, the actor's reliability score is
      refreshed from the stamped call-outs. */
  function AcceptOn(st: State, shiftId: Option<int>, session: Session, now: int, reliabilityUpdateFails: bool): (o: Outcome<()>)
    ensures o.response.Failure? ==> o.after == st
    ensures o.response == Failure(BadRequest) <==> !Truthy(shiftId)
    ensures o.response == Failure(Unauthorized) <==> Truthy(shiftId) && !session.LoggedIn?
    ensures o.response == Failure(Forbidden) <==>
              Truthy(shiftId) && session.LoggedIn? && session.claimed != Claims(STAFF)
    ensures o.response == Failure(NotFound) <==>
              && Truthy(shiftId) && session.LoggedIn? && session.claimed == Claims(STAFF)
              && (FindBy(st.users, UserId, session.actorId).None? || FindBy(st.shifts, ShiftId, shiftId.value).None?)
    ensures o.response.Success? <==>
              && Truthy(shiftId) && session.LoggedIn? && session.claimed == Claims(STAFF)
              && FindBy(st.users, UserId, session.actorId).Some? && FindBy(st.shifts, ShiftId, shiftId.value).Some?
    ensures o.response.Success? ==>
              && Truthy(shiftId) && session.LoggedIn? && session.claimed == Claims(STAFF)
              && var i := FindBy(st.shifts, ShiftId, shiftId.value).value;
              && |o.after.shifts| == |st.shifts|
              && AcceptedShift(st.shifts[i], o.after.shifts[i], session.actorId)
              && (forall k :: 0 <= k < |st.shifts| && k != i ==> o.after.shifts[k] == st.shifts[k])
              && o.after.logs == Stamped(st.logs, shiftId.value, session.actorId, now)
              && o.after.audit == st.audit + [AuditEntry(session.actorId, SHIFT_ACCEPTED, None)]
              && o.after.nextShiftId == st.nextShiftId && o.after.nextLogId == st.nextLogId
              && (reliabilityUpdateFails ==> o.after.users == st.users)
              && (!reliabilityUpdateFails ==> o.after.users == WithReliability(st.users, o.after.logs, session.actorId))
  {
    if !Truthy(shiftId) then Outcome(Failure(BadRequest), st)
    else match Authorise(session, {STAFF})
      case Failure(e) => Outcome(Failure(e), st)
      case Success(actor) =>
        match (FindBy(st.users, UserId, actor), FindBy(st.shifts, ShiftId, shiftId.value))
        case (None, _) => Outcome(Failure(NotFound), st)
        case (_, None) => Outcome(Failure(NotFound), st)
        case (Some(_), Some(i)) =>
          var logs := Stamped(st.logs, shiftId.value, actor, now);
          var users := if reliabilityUpdateFails then st.users else WithReliability(st.users, logs, actor);
          Outcome(Success(()),
                  State(users, st.shifts[i := AssignedTo(st.shifts[i], actor)], logs,
                        st.audit + [AuditEntry(actor, SHIFT_ACCEPTED, None)], st.nextShiftId, st.nextLogId))
  }

  /** Rows whose keys agree index by index are found at the same place. */
  lemma {:induction false} FindBySameKeys<T, U>(a: seq<T>, ka: T -> int, b: seq<U>, kb: U -> int, id: int)
    requires |a| == |b| && forall k :: 0 <= k < |a| ==> ka(a[k]) == kb(b[k])
    ensures FindBy(a, ka, id) == FindBy(b, kb, id)
  {
    if |a| > 0 && ka(a[0]) != id {
      FindBySameKeys(a[1..], ka, b[1..], kb, id);
    }
  }

  lemma AcceptPreservesWellFormed(st: State, shiftId: Option<int>, session: Session, now: int, fails: bool)
    requires WellFormed(st)
    ensures WellFormed(AcceptOn(st, shiftId, session, now, fails).after)
  {
    var o := AcceptOn(st, shiftId, session, now, fails);
    if o.response.Success? {
      var logs := o.after.logs;
      assert forall k :: 0 <= k < |logs| ==> logs[k].id == st.logs[k].id;
      if !fails {
        OnlyUserWithId(st.users, session.actorId);
      }
    }
  }

  /** The background reliability update runs after the response is decided:
      its failure changes neither the response nor the shifts, call-outs
      and audit log, only whether the score is refreshed. */
  lemma AcceptResponseIgnoresReliabilityFailure(st: State, shiftId: Option<int>, session: Session, now: int)
    ensures var failed := AcceptOn(st, shiftId, session, now, true);
            var refreshed := AcceptOn(st, shiftId, session, now, false);
            && failed.response == refreshed.response
            && failed.after.shifts == refreshed.after.shifts
            && failed.after.logs == refreshed.after.logs
            && failed.after.audit == refreshed.after.audit
            && failed.after.users == st.users
  {
  }

  /** Nothing stops a second accept: once a shift has been accepted, another
      known staff member's accept succeeds too and takes the shift over. */
  lemma SecondAcceptOverwrites(st: State, shiftId: Option<int>, first: Session, second: Session,
                               t1: int, t2: int, fails1: bool, fails2: bool)
    requires WellFormed(st)
    requires AcceptOn(st, shiftId, first, t1, fails1).response.Success?
    requires second.LoggedIn? && second.claimed == Claims(STAFF)
    requires FindBy(st.users, UserId, second.actorId).Some?
    ensures var o := AcceptOn(AcceptOn(st, shiftId, first, t1, fails1).after, shiftId, second, t2, fails2);
            && o.response.Success?
            && FindBy(o.after.shifts, ShiftId, shiftId.value).Some?
            && o.after.shifts[FindBy(o.after.shifts, ShiftId, shiftId.value).value].assignedToId == Some(second.actorId)
            && o.after.shifts[FindBy(o.after.shifts, ShiftId, shiftId.value).value].status == ASSIGNED
  {
    var st1 := AcceptOn(st, shiftId, first, t1, fails1).after;
    FindBySameKeys(st.users, UserId, st1.users, UserId, second.actorId);
    FindBySameKeys(st.shifts, ShiftId, st1.shifts, ShiftId, shiftId.value);
    var o := AcceptOn(st1, shiftId, second, t2, fails2);
    FindBySameKeys(st1.shifts, ShiftId, o.after.shifts, ShiftId, shiftId.value);
  }

  // ---------------------------------------------------------------------
  // Cancelling a shift or a call-out
  // ---------------------------------------------------------------------

  /** The session of an ADMIN or a MANAGER. */
  predicate ManagesShifts(session: Session)
  {
    session.LoggedIn? && session.claimed in {Claims(ADMIN), Claims(MANAGER)}
  }

  /** `PATCH /api/shifts/cancel`. The session is checked first (401, 403),
      then the id (400) and the shift (404). Whatever the shift's status, it
      becomes CANCELLED, and the updated row is returned. */
  function CancelShiftOn(st: State, session: Session, shiftId: Option<int>): (o: Outcome<Shift>)
    ensures o.response.Failure? ==> o.after == st
    ensures o.response == Failure(Unauthorized) <==> !session.LoggedIn?
    ensures o.response == Failure(Forbidden) <==> session.LoggedIn? && !ManagesShifts(session)
    ensures o.response == Failure(BadRequest) <==> ManagesShifts(session) && !Truthy(shiftId)
    ensures o.response == Failure(NotFound) <==>
              ManagesShifts(session) && Truthy(shiftId) && FindBy(st.shifts, ShiftId, shiftId.value).None?
    ensures o.response.Success? <==>
              ManagesShifts(session) && Truthy(shiftId) && FindBy(st.shifts, ShiftId, shiftId.value).Some?
    ensures o.response.Success? ==>
              && ManagesShifts(session) && Truthy(shiftId)
              && var i := FindBy(st.shifts, ShiftId, shiftId.value).value;
              && |o.after.shifts| == |st.shifts|
              && o.after.shifts[i] == st.shifts[i].(status := CANCELLED)
              && o.response.value == o.after.shifts[i]
              && (forall k :: 0 <= k < |st.shifts| && k != i ==> o.after.shifts[k] == st.shifts[k])
              && o.after.users == st.users && o.after.logs == st.logs
              && o.after.audit == st.audit + [AuditEntry(session.actorId, SHIFT_CANCELLED, None)]
              && o.after.nextShiftId == st.nextShiftId && o.after.nextLogId == st.nextLogId
  {
    match Authorise(session, {ADMIN, MANAGER})
    case Failure(e) => Outcome(Failure(e), st)
    case Success(actor) =>
      if !Truthy(shiftId) then Outcome(Failure(BadRequest), st)
      else match FindBy(st.shifts, ShiftId, shiftId.value)
        case None => Outcome(Failure(NotFound), st)
        case Some(i) =>
          var updated := st.shifts[i].(status := CANCELLED);
          Outcome(Success(updated),
                  st.(shifts := st.shifts[i := updated],
                      audit := st.audit + [AuditEntry(actor, SHIFT_CANCELLED, None)]))
  }

  lemma CancelShiftPreservesWellFormed(st: State, session: Session, shiftId: Option<int>)
    requires WellFormed(st)
    ensures WellFormed(CancelShiftOn(st, session, shiftId).after)
  {
  }

  /** Cancelling is not guarded by the status: a second cancel succeeds,
      leaves every table as the first left it and adds one more audit row. */
  lemma CancelShiftTwice(st: State, session: Session, shiftId: Option<int>)
    requires CancelShiftOn(st, session, shiftId).response.Success?
    ensures var once := CancelShiftOn(st, session, shiftId);
            var twice := CancelShiftOn(once.after, session, shiftId);
            && twice.response == once.response
            && twice.after.shifts == once.after.shifts
            && twice.after.logs == once.after.logs
            && twice.after.users == once.after.users
            && twice.after.audit == once.after.audit + [AuditEntry(session.actorId, SHIFT_CANCELLED, None)]
  {
    var once := CancelShiftOn(st, session, shiftId);
    FindBySameKeys(st.shifts, ShiftId, once.after.shifts, ShiftId, shiftId.value);
  }

  /** `PATCH /api/callout-logs/cancel`: the same checks as cancelling a
      shift; only the call-out's own status changes, its shift and its
      acceptance fields are left alone. */
  function CancelCallOutOn(st: State, session: Session, callOutId: Option<int>): (o: Outcome<CallOutLog>)
    ensures o.response.Failure? ==> o.after == st
    ensures o.response == Failure(Unauthorized) <==> !session.LoggedIn?
    ensures o.response == Failure(Forbidden) <==> session.LoggedIn? && !ManagesShifts(session)
    ensures o.response == Failure(BadRequest) <==> ManagesShifts(session) && !Truthy(callOutId)
    ensures o.response == Failure(NotFound) <==>
              ManagesShifts(session) && Truthy(callOutId) && FindBy(st.logs, LogId, callOutId.value).None?
    ensures o.response.Success? <==>
              ManagesShifts(session) && Truthy(callOutId) && FindBy(st.logs, LogId, callOutId.value).Some?
    ensures o.response.Success? ==>
              && ManagesShifts(session) && Truthy(callOutId)
              && var i := FindBy(st.logs, LogId, callOutId.value).value;
              && |o.after.logs| == |st.logs|
              && o.after.logs[i] == st.logs[i].(status := Cancelled)
              && o.response.value == o.after.logs[i]
              && (forall k :: 0 <= k < |st.logs| && k != i ==> o.after.logs[k] == st.logs[k])
              && o.after.users == st.users && o.after.shifts == st.shifts
              && o.after.audit == st.audit + [AuditEntry(session.actorId, CALLOUT_CANCELLED, None)]
              && o.after.nextShiftId == st.nextShiftId && o.after.nextLogId == st.nextLogId
  {
    match Authorise(session, {ADMIN, MANAGER})
    case Failure(e) => Outcome(Failure(e), st)
    case Success(actor) =>
      if !Truthy(callOutId) then Outcome(Failure(BadRequest), st)
      else match FindBy(st.logs, LogId, callOutId.value)
        case None => Outcome(Failure(NotFound), st)
        case Some(i) =>
          var updated := st.logs[i].(status := Cancelled);
          Outcome(Success(updated),
                  st.(logs := st.logs[i := updated],
                      audit := st.audit + [AuditEntry(actor, CALLOUT_CANCELLED, None)]))
  }

  lemma CancelCallOutPreservesWellFormed(st: State, session: Session, callOutId: Option<int>)
    requires WellFormed(st)
    ensures WellFormed(CancelCallOutOn(st, session, callOutId).after)
  {
    var o := CancelCallOutOn(st, session, callOutId);
    assert forall k :: 0 <= k < |o.after.logs| ==> o.after.logs[k].id == st.logs[k].id;
  }

  /** Cancelling a call-out twice leaves the tables as cancelling it once. */
  lemma CancelCallOutTwice(st: State, session: Session, callOutId: Option<int>)
    requires CancelCallOutOn(st, session, callOutId).response.Success?
    ensures var once := CancelCallOutOn(st, session, callOutId);
            var twice := CancelCallOutOn(once.after, session, callOutId);
            && twice.response == once.response
            && twice.after.logs == once.after.logs
            && twice.after.shifts == once.after.shifts
            && twice.after.users == once.after.users
            && twice.after.audit == once.after.audit + [AuditEntry(session.actorId, CALLOUT_CANCELLED, None)]
  {
    var once := CancelCallOutOn(st, session, callOutId);
    FindBySameKeys(st.logs, LogId, once.after.logs, LogId, callOutId.value);
  }

  // ---------------------------------------------------------------------
  // Logging a call-out
  // ---------------------------------------------------------------------

  /** The OPEN, unassigned shift a call-out creates. */
  function NewShift(id: int, requiredSkill: string, start: int, end: int): Shift
  {
    Shift(id, requiredSkill, start, end, OPEN, None)
  }

  /** The call-out row: the caller, the new shift, the reason and, as its
      time, the shift's start; not yet accepted, not missed, live. */
  function NewCallOut(id: int, userId: int, shiftId: int, reason: Option<string>, start: int): CallOutLog
  {
    CallOutLog(id, userId, shiftId, reason, start, None, None, None, false, Live)
  }

  /** `POST /api/callout`. No session is checked and `start < end` is not
      required. The shift is created first; the call-out row refers to the
      calling user, so an unknown user makes the second insert fail with 500
      after the shift already exists. `start` and `end` are the parsed date
      strings; `None` stands for an absent or empty string, the only falsy
      ones, so any instant, the epoch included, counts as given. */
  function CreateCallOutOn(st: State, userId: Option<int>, reason: Option<string>, requiredSkill: Option<string>,
                           start: Option<int>, end: Option<int>): (o: Outcome<()>)
    ensures o.response == Failure(BadRequest) <==>
              !Truthy(userId) || !TruthyText(requiredSkill) || start.None? || end.None?
    ensures o.response == Failure(BadRequest) ==> o.after == st
    ensures o.response.Success? || o.response == Failure(BadRequest) || o.response == Failure(ServerError)
    ensures o.response != Failure(BadRequest) ==>
              && o.after.shifts == st.shifts + [NewShift(st.nextShiftId, requiredSkill.value, start.value, end.value)]
              && o.after.nextShiftId == st.nextShiftId + 1
              && o.after.users == st.users
    ensures o.response == Failure(ServerError) <==>
              o.response != Failure(BadRequest) && FindBy(st.users, UserId, userId.value).None?
    ensures o.response == Failure(ServerError) ==>
              o.after.logs == st.logs && o.after.audit == st.audit && o.after.nextLogId == st.nextLogId
    ensures o.response.Success? ==>
              && o.after.logs == st.logs + [NewCallOut(st.nextLogId, userId.value, st.nextShiftId, reason, start.value)]
              && o.after.nextLogId == st.nextLogId + 1
              && o.after.audit == st.audit + [AuditEntry(userId.value, CALLOUT_CREATED, None)]
  {
    if !Truthy(userId) || !TruthyText(requiredSkill) || start.None? || end.None? then
      Outcome(Failure(BadRequest), st)
    else
      var withShift := st.(shifts := st.shifts + [NewShift(st.nextShiftId, requiredSkill.value, start.value, end.value)],
                           nextShiftId := st.nextShiftId + 1);
      if FindBy(st.users, UserId, userId.value).None? then
        Outcome(Failure(ServerError), withShift)
      else
        Outcome(Success(()),
                withShift.(logs := st.logs + [NewCallOut(st.nextLogId, userId.value, st.nextShiftId, reason, start.value)],
                           nextLogId := st.nextLogId + 1,
                           audit := st.audit + [AuditEntry(userId.value, CALLOUT_CREATED, None)]))
  }

  /** The new ids are fresh, so the tables keep unique keys; the new
      call-out refers to the new shift and to an existing user. */
  lemma CreateCallOutPreservesWellFormed(st: State, userId: Option<int>, reason: Option<string>,
                                         requiredSkill: Option<string>, start: Option<int>, end: Option<int>)
    requires WellFormed(st)
    ensures var o := CreateCallOutOn(st, userId, reason, requiredSkill, start, end);
            && WellFormed(o.after)
            && (o.response.Success? ==>
                  && o.after.logs[|o.after.logs| - 1].shiftId == o.after.shifts[|o.after.shifts| - 1].id
                  && (forall k :: 0 <= k < |st.shifts| ==> st.shifts[k].id != o.after.logs[|o.after.logs| - 1].shiftId)
                  && FindBy(st.users, UserId, o.after.logs[|o.after.logs| - 1].userId).Some?)
  {
    var o := CreateCallOutOn(st, userId, reason, requiredSkill, start, end);
    if o.response != Failure(BadRequest) {
      var shifts := o.after.shifts;
      assert shifts[|shifts| - 1].id == st.nextShiftId;
      assert forall k :: 0 <= k < |st.shifts| ==> shifts[k] == st.shifts[k];
      assert UniqueShiftIds(shifts) by {
        forall i, j | 0 <= i < j < |shifts|
          ensures shifts[i].id != shifts[j].id
        {
          if j == |shifts| - 1 {
            assert shifts[i] == st.shifts[i];
          } else {
            assert shifts[i] == st.shifts[i] && shifts[j] == st.shifts[j];
          }
        }
      }
      if o.response.Success? {
        var logs := o.after.logs;
        assert forall k :: 0 <= k < |st.logs| ==> logs[k] == st.logs[k];
        assert UniqueLogIds(logs) by {
          forall i, j | 0 <= i < j < |logs|
            ensures logs[i].id != logs[j].id
          {
            if j == |logs| - 1 {
              assert logs[i] == st.logs[i];
            } else {
              assert logs[i] == st.logs[i] && logs[j] == st.logs[j];
            }
          }
        }
      }
    }
  }

  // ---------------------------------------------------------------------
  // An administrator's change of a user's status
  // ---------------------------------------------------------------------

  function StatusName(s: UserStatus): string
  {
    match s
    case ACTIVE => "ACTIVE"
    case INACTIVE => "INACTIVE"
    case SUSPENDED => "SUSPENDED"
  }

  /** The status strings the user table accepts. */
  function ParseUserStatus(text: string): (r: Option<UserStatus>)
    ensures r.Some? ==> StatusName(r.value) == text
  {
    if text == "ACTIVE" then Some(ACTIVE)
    else if text == "INACTIVE" then Some(INACTIVE)
    else if text == "SUSPENDED" then Some(SUSPENDED)
    else None
  }

  lemma ParseStatusName(s: UserStatus)
    ensures ParseUserStatus(StatusName(s)) == Some(s)
  {
  }

  /** The fields a PATCH writes: `status` when a non-empty one was sent and
      `active` when a boolean was sent (`None` stands for any other JSON
      value or its absence). */
  datatype UpdateData = UpdateData(status: Option<string>, active: Option<bool>)

  function UpdateDataOf(status: Option<string>, active: Option<bool>): (d: UpdateData)
    ensures d.status.Some? <==> TruthyText(status)
    ensures d.status.Some? ==> d.status == status
    ensures d.active == active
  {
    UpdateData(if TruthyText(status) then status else None, active)
  }

  /** Builds `updateData` one conditional field at a time. */
  method BuildUpdateData(status: Option<string>, active: Option<bool>) returns (d: UpdateData)
    ensures d == UpdateDataOf(status, active)
  {
    d := UpdateData(None, None);
    if TruthyText(status) {
      d := d.(status := status);
    }
    if active.Some? {
      d := d.(active := active);
    }
  }

  /** A status decides the action; without one the boolean does. */
  function ActionTypeFor(status: Option<string>, active: Option<bool>): (a: ActionType)
    requires TruthyText(status) || active.Some?
    ensures TruthyText(status) ==>
              && (a == USER_ACTIVATED <==> status.value == "ACTIVE")
              && (a == USER_SUSPENDED <==> status.value == "SUSPENDED")
              && (a == USER_DEACTIVATED <==> status.value != "ACTIVE" && status.value != "SUSPENDED")
    ensures !TruthyText(status) ==>
              && (a == USER_ACTIVATED <==> active.value)
              && (a == USER_DEACTIVATED <==> !active.value)
  {
    if TruthyText(status) then
      if status.value == "ACTIVE" then USER_ACTIVATED
      else if status.value == "SUSPENDED" then USER_SUSPENDED
      else USER_DEACTIVATED
    else if active.value then USER_ACTIVATED
    else USER_DEACTIVATED
  }

  /** The audit detail of a status change: it names the user's e-mail and,
      when a status was sent, ends with that status; otherwise it says
      whether the user was activated or deactivated. */
  function ActionDetail(email: string, status: Option<string>, active: Option<bool>): (d: string)
    requires TruthyText(status) || active.Some?
    ensures TruthyText(status) ==>
              && |d| == 24 + |email| + |status.value|
              && d[..13] == "Changed user " && d[13..13 + |email|] == email
              && d[|d| - |status.value|..] == status.value
    ensures !TruthyText(status) ==>
              && |d| >= 15 + |email|
              && d[|d| - |email|..] == email
              && (active.value <==> d[0] == 'A')
  {
    if TruthyText(status) then "Changed user " + email + " status to " + status.value
    else (if active.value then "Activated" else "Deactivated") + " user " + email
  }

  /** The user row after `updateData` is written; a status string the
      table does not know makes the write fail. */
  function ApplyUpdate(u: User, d: UpdateData): (r: Option<User>)
    ensures r.None? <==> d.status.Some? && ParseUserStatus(d.status.value).None?
    ensures r.Some? ==>
              && r.value.id == u.id && r.value.email == u.email && r.value.role == u.role
              && r.value.reliabilityScore == u.reliabilityScore
              && r.value.status == (if d.status.Some? then ParseUserStatus(d.status.value).value else u.status)
              && r.value.active == (if d.active.Some? then d.active.value else u.active)
  {
    var withStatus :=
      if d.status.None? then Some(u)
      else match ParseUserStatus(d.status.value)
        case None => None
        case Some(s) => Some(u.(status := s));
    match withStatus
    case None => None
    case Some(v) => Some(if d.active.Some? then v.(active := d.active.value) else v)
  }

  /** `PATCH /api/admin/users`. 401 and 403 for anything but an ADMIN
      session; 400 when `userId` is falsy or neither a status nor a boolean
      `active` was sent; 500 when no user has that id or the status string
      is not one the table knows. The audit row names the administrator. */
  function UpdateUserStatusOn(st: State, session: Session, userId: Option<int>, status: Option<string>,
                              active: Option<bool>): (o: Outcome<User>)
    ensures o.response.Failure? ==> o.after == st
    ensures o.response == Failure(Unauthorized) <==> !session.LoggedIn?
    ensures o.response == Failure(Forbidden) <==> session.LoggedIn? && session.claimed != Claims(ADMIN)
    ensures o.response == Failure(BadRequest) <==>
              && session.LoggedIn? && session.claimed == Claims(ADMIN)
              && (!Truthy(userId) || (!TruthyText(status) && active.None?))
    ensures o.response == Failure(ServerError) <==>
              && session.LoggedIn? && session.claimed == Claims(ADMIN)
              && Truthy(userId) && (TruthyText(status) || active.Some?)
              && (FindBy(st.users, UserId, userId.value).None?
                  || (TruthyText(status) && ParseUserStatus(status.value).None?))
    ensures o.response.Success? <==>
              && session.LoggedIn? && session.claimed == Claims(ADMIN)
              && Truthy(userId) && (TruthyText(status) || active.Some?)
              && FindBy(st.users, UserId, userId.value).Some?
              && (TruthyText(status) ==> ParseUserStatus(status.value).Some?)
    ensures o.response.Success? ==>
              && session.LoggedIn? && session.claimed == Claims(ADMIN)
              && Truthy(userId) && (TruthyText(status) || active.Some?)
              && var i := FindBy(st.users, UserId, userId.value).value;
              && |o.after.users| == |st.users|
              && o.response.value == o.after.users[i]
              && ApplyUpdate(st.users[i], UpdateDataOf(status, active)) == Some(o.after.users[i])
              && (forall k :: 0 <= k < |st.users| && k != i ==> o.after.users[k] == st.users[k])
              && o.after.shifts == st.shifts && o.after.logs == st.logs
              && o.after.audit == st.audit + [AuditEntry(session.actorId, ActionTypeFor(status, active),
                                                         Some(ActionDetail(st.users[i].email, status, active)))]
              && o.after.nextShiftId == st.nextShiftId && o.after.nextLogId == st.nextLogId
  {
    match Authorise(session, {ADMIN})
    case Failure(e) => Outcome(Failure(e), st)
    case Success(admin) =>
      if !Truthy(userId) || (!TruthyText(status) && active.None?) then Outcome(Failure(BadRequest), st)
      else match FindBy(st.users, UserId, userId.value)
        case None => Outcome(Failure(ServerError), st)
        case Some(i) =>
          match ApplyUpdate(st.users[i], UpdateDataOf(status, active))
          case None => Outcome(Failure(ServerError), st)
          case Some(updated) =>
            Outcome(Success(updated),
                    st.(users := st.users[i := updated],
                        audit := st.audit + [AuditEntry(admin, ActionTypeFor(status, active),
                                                         Some(ActionDetail(updated.email, status, active)))]))
  }

  lemma UpdateUserStatusPreservesWellFormed(st: State, session: Session, userId: Option<int>,
                                            status: Option<string>, active: Option<bool>)
    requires WellFormed(st)
    ensures WellFormed(UpdateUserStatusOn(st, session, userId, status, active).after)
  {
  }

  // ---------------------------------------------------------------------
  // The store, updated in place
  // ---------------------------------------------------------------------

  /** The three tables, the audit log and the id counters. Each route method
      performs its steps on the fields and ends in the state, and with the
      response, that the route's function describes. */
  class Store {
    var users: seq<User>
    var shifts: seq<Shift>
    var logs: seq<CallOutLog>
    var audit: seq<AuditEntry>
    var nextShiftId: int
    var nextLogId: int

    function Snapshot(): State
      reads this
    {
      State(users, shifts, logs, audit, nextShiftId, nextLogId)
    }

    ghost predicate Valid()
      reads this
    {
      WellFormed(Snapshot())
    }

    constructor(initial: State)
      requires WellFormed(initial)
      ensures Snapshot() == initial && Valid()
    {
      users := initial.users;
      shifts := initial.shifts;
      logs := initial.logs;
      audit := initial.audit;
      nextShiftId := initial.nextShiftId;
      nextLogId := initial.nextLogId;
    }

    /** `updateMany` on the call-outs of `shiftId`, one row at a time. */
    method StampLogs(shiftId: int, actor: int, now: int)
      modifies this
      ensures logs == Stamped(old(logs), shiftId, actor, now)
      ensures users == old(users) && shifts == old(shifts) && audit == old(audit)
      ensures nextShiftId == old(nextShiftId) && nextLogId == old(nextLogId)
    {
      var i := 0;
      while i < |logs|
        invariant 0 <= i <= |logs| == |old(logs)|
        invariant forall k :: 0 <= k < i ==>
                    logs[k] == if old(logs)[k].shiftId == shiftId then StampedBy(old(logs)[k], actor, now) else old(logs)[k]
        invariant forall k :: i <= k < |logs| ==> logs[k] == old(logs)[k]
        invariant users == old(users) && shifts == old(shifts) && audit == old(audit)
        invariant nextShiftId == old(nextShiftId) && nextLogId == old(nextLogId)
      {
        if logs[i].shiftId == shiftId {
          logs := logs[i := StampedBy(logs[i], actor, now)];
        }
        i := i + 1;
      }
    }

    /** `updateUserReliabilityScore`: recomputes the user's statistics from
        the call-outs and writes the score back to the user's row. */
    method UpdateUserReliabilityScore(userId: int)
      modifies this
      ensures users == WithReliability(old(users), old(logs), userId)
      ensures shifts == old(shifts) && logs == old(logs) && audit == old(audit)
      ensures nextShiftId == old(nextShiftId) && nextLogId == old(nextLogId)
    {
      var stats := Reliability.CalculateReliabilityScore(logs, userId);
      var found := FindBy(users, UserId, userId);
      if found.Some? {
        var i := found.value;
        users := users[i := users[i].(reliabilityScore := stats.score)];
      }
    }

    method Accept(shiftId: Option<int>, session: Session, now: int, reliabilityUpdateFails: bool) returns (r: Result<()>)
      requires Valid()
      modifies this
      ensures Valid()
      ensures Outcome(r, Snapshot()) == AcceptOn(old(Snapshot()), shiftId, session, now, reliabilityUpdateFails)
    {
      AcceptPreservesWellFormed(Snapshot(), shiftId, session, now, reliabilityUpdateFails);
      if !Truthy(shiftId) {
        return Failure(BadRequest);
      }
      var auth := Authorise(session, {STAFF});
      if auth.Failure? {
        return Failure(auth.error);
      }
      var actor := auth.value;
      if FindBy(users, UserId, actor).None? {
        return Failure(NotFound);
      }
      var found := FindBy(shifts, ShiftId, shiftId.value);
      if found.None? {
        return Failure(NotFound);
      }
      var i := found.value;
      shifts := shifts[i := AssignedTo(shifts[i], actor)];
      StampLogs(shiftId.value, actor, now);
      audit := audit + [AuditEntry(actor, SHIFT_ACCEPTED, None)];
      if !reliabilityUpdateFails {
        UpdateUserReliabilityScore(actor);
      }
      r := Success(());
    }

    method CancelShift(session: Session, shiftId: Option<int>) returns (r: Result<Shift>)
      requires Valid()
      modifies this
      ensures Valid()
      ensures Outcome(r, Snapshot()) == CancelShiftOn(old(Snapshot()), session, shiftId)
    {
      CancelShiftPreservesWellFormed(Snapshot(), session, shiftId);
      var auth := Authorise(session, {ADMIN, MANAGER});
      if auth.Failure? {
        return Failure(auth.error);
      }
      if !Truthy(shiftId) {
        return Failure(BadRequest);
      }
      var found := FindBy(shifts, ShiftId, shiftId.value);
      if found.None? {
        return Failure(NotFound);
      }
      var updated := shifts[found.value].(status := CANCELLED);
      shifts := shifts[found.value := updated];
      audit := audit + [AuditEntry(auth.value, SHIFT_CANCELLED, None)];
      r := Success(updated);
    }

    method CancelCallOut(session: Session, callOutId: Option<int>) returns (r: Result<CallOutLog>)
      requires Valid()
      modifies this
      ensures Valid()
      ensures Outcome(r, Snapshot()) == CancelCallOutOn(old(Snapshot()), session, callOutId)
    {
      CancelCallOutPreservesWellFormed(Snapshot(), session, callOutId);
      var auth := Authorise(session, {ADMIN, MANAGER});
      if auth.Failure? {
        return Failure(auth.error);
      }
      if !Truthy(callOutId) {
        return Failure(BadRequest);
      }
      var found := FindBy(logs, LogId, callOutId.value);
      if found.None? {
        return Failure(NotFound);
      }
      var updated := logs[found.value].(status := Cancelled);
      logs := logs[found.value := updated];
      audit := audit + [AuditEntry(auth.value, CALLOUT_CANCELLED, None)];
      r := Success(updated);
    }

    method CreateCallOut(userId: Option<int>, reason: Option<string>, requiredSkill: Option<string>,
                         start: Option<int>, end: Option<int>) returns (r: Result<()>)
      requires Valid()
      modifies this
      ensures Valid()
      ensures Outcome(r, Snapshot()) == CreateCallOutOn(old(Snapshot()), userId, reason, requiredSkill, start, end)
    {
      CreateCallOutPreservesWellFormed(Snapshot(), userId, reason, requiredSkill, start, end);
      if !Truthy(userId) || !TruthyText(requiredSkill) || start.None? || end.None? {
        return Failure(BadRequest);
      }
      var shiftId := nextShiftId;
      shifts := shifts + [NewShift(shiftId, requiredSkill.value, start.value, end.value)];
      nextShiftId := nextShiftId + 1;
      if FindBy(users, UserId, userId.value).None? {
        return Failure(ServerError);
      }
      logs := logs + [NewCallOut(nextLogId, userId.value, shiftId, reason, start.value)];
      nextLogId := nextLogId + 1;
      audit := audit + [AuditEntry(userId.value, CALLOUT_CREATED, None)];
      r := Success(());
    }

    method UpdateUserStatus(session: Session, userId: Option<int>, status: Option<string>, active: Option<bool>)
      returns (r: Result<User>)
      requires Valid()
      modifies this
      ensures Valid()
      ensures Outcome(r, Snapshot()) == UpdateUserStatusOn(old(Snapshot()), session, userId, status, active)
    {
      UpdateUserStatusPreservesWellFormed(Snapshot(), session, userId, status, active);
      var auth := Authorise(session, {ADMIN});
      if auth.Failure? {
        return Failure(auth.error);
      }
      if !Truthy(userId) || (!TruthyText(status) && active.None?) {
        return Failure(BadRequest);
      }
      var data := BuildUpdateData(status, active);
      var found := FindBy(users, UserId, userId.value);
      if found.None? {
        return Failure(ServerError);
      }
      var applied := ApplyUpdate(users[found.value], data);
      if applied.None? {
        return Failure(ServerError);
      }
      var updated := applied.value;
      users := users[found.value := updated];
      audit := audit + [AuditEntry(auth.value, ActionTypeFor(status, active), Some(ActionDetail(updated.email, status, active)))];
      r := Success(updated);
    }
  }
}
