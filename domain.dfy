/** The records the shift-assignment core reads and writes: users, shifts and
    call-out logs, the session a request carries, and the small helpers every
    route shares (JavaScript truthiness of ids, lookup by id, HTTP errors). */
module Domain {

  datatype Option<+T> = None | Some(value: T)

  /** A table read that may fail: a storage error is a value, not an exception. */
  datatype Fetch<+T> = Fetched(rows: T) | StorageFailure

  /** An id or timestamp as JavaScript's `!x` tests it: absent and 0 are falsy. */
  predicate Truthy(x: Option<int>)
  {
    x.Some? && x.value != 0
  }

  /** A string field as `!x` tests it: absent and "" are falsy. */
  predicate TruthyText(x: Option<string>)
  {
    x.Some? && x.value != ""
  }

  datatype Role = STAFF | MANAGER | ADMIN

  /** The role a session cookie claims: one of the three known roles, or
      anything else (a string the application does not know, or no role). */
  datatype ClaimedRole = Claims(role: Role) | Unrecognised

  /** The `session` cookie of a request: absent, not parseable as JSON, or
      a parsed object carrying the actor's id and role. */
  datatype Session = NoSession | InvalidSession | LoggedIn(actorId: int, claimed: ClaimedRole)

  datatype ShiftStatus = OPEN | ASSIGNED | COMPLETED | MISSED | CANCELLED

  datatype UserStatus = ACTIVE | INACTIVE | SUSPENDED

  /** A call-out row is live until a manager cancels it. */
  datatype CallOutStatus = Live | Cancelled

  /** Timestamps are epoch milliseconds. */
  datatype Shift = Shift(
    id: int,
    requiredSkill: string,
    start: int,
    end: int,
    status: ShiftStatus,
    assignedToId: Option<int>)

  datatype CallOutLog = CallOutLog(
    id: int,
    userId: int,
    shiftId: int,
    reason: Option<string>,
    timestamp: int,
    acceptedById: Option<int>,
    filledAt: Option<int>,
    respondedAt: Option<int>,
    missed: bool,
    status: CallOutStatus)

  datatype User = User(
    id: int,
    email: string,
    role: Role,
    status: UserStatus,
    active: bool,
    reliabilityScore: real)

  /** The error responses of the API routes. */
  datatype HttpError = BadRequest | Unauthorized | Forbidden | NotFound | ServerError
  {
    function Code(): int
    {
      match this
      case BadRequest => 400
      case Unauthorized => 401
      case Forbidden => 403
      case NotFound => 404
      case ServerError => 500
    }
  }

  datatype Result<+T> = Success(value: T) | Failure(error: HttpError)

  /** The session check every guarded route performs: no cookie and an
      unparseable cookie give 401, a role outside `allowed` gives 403,
      otherwise the actor's id. */
  function Authorise(session: Session, allowed: set<Role>): (r: Result<int>)
    ensures r == Failure(Unauthorized) <==> !session.LoggedIn?
    ensures r == Failure(Forbidden) <==>
              session.LoggedIn? && !(session.claimed.Claims? && session.claimed.role in allowed)
    ensures r.Success? <==> session.LoggedIn? && session.claimed.Claims? && session.claimed.role in allowed
    ensures r.Success? ==> r.value == session.actorId
  {
    match session
    case NoSession => Failure(Unauthorized)
    case InvalidSession => Failure(Unauthorized)
    case LoggedIn(actor, claimed) =>
      if claimed.Claims? && claimed.role in allowed then Success(actor) else Failure(Forbidden)
  }

  /** The index of the first row whose key is `id`, as a `findUnique` on the
      primary key finds it. */
  function FindBy<T>(rows: seq<T>, key: T -> int, id: int): (r: Option<nat>)
    ensures r.Some? ==> r.value < |rows| && key(rows[r.value]) == id
    ensures r.None? <==> forall k :: 0 <= k < |rows| ==> key(rows[k]) != id
    ensures r.Some? ==> forall j :: 0 <= j < r.value ==> key(rows[j]) != id
  {
    if |rows| == 0 then None
    else if key(rows[0]) == id then Some(0)
    else
      match FindBy(rows[1..], key, id)
      case None => None
      case Some(k) => Some(k + 1)
  }

  function ShiftId(s: Shift): int { s.id }
  function LogId(l: CallOutLog): int { l.id }
  function UserId(u: User): int { u.id }

  /** Decimal digits of a natural number, as JavaScript's template strings
      print it. */
  function NatToString(n: nat): (s: string)
    ensures |s| >= 1
    ensures forall k :: 0 <= k < |s| ==> '0' <= s[k] <= '9'
    decreases n
  {
    if n < 10 then [Digit(n)] else NatToString(n / 10) + [Digit(n % 10)]
  }

  function Digit(d: nat): char
    requires d < 10
  {
    "0123456789"[d]
  }

  function Min(a: int, b: int): int { if a <= b then a else b }
  function Max(a: int, b: int): int { if a >= b then a else b }
  function MinReal(a: real, b: real): real { if a <= b then a else b }
  function MaxReal(a: real, b: real): real { if a >= b then a else b }

  /** JavaScript's `Math.round`: halves round up, towards +infinity. */
  function JsRound(x: real): (r: int)
    ensures x - 0.5 < r as real <= x + 0.5
  {
    (x + 0.5).Floor
  }

  /** JavaScript's `Math.floor`. */
  function JsFloor(x: real): (r: int)
    ensures r as real <= x < r as real + 1.0
  {
    x.Floor
  }
}
