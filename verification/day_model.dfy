/**
  The records of the day-log service: a tracked segment of time, one user's
  log for one calendar day, and a role that segments are classified under.
  Field bounds that the service declares on its records become subset types,
  so every value of these types is a well-formed record.
 */
module DayModel {

  /** Minutes in one day; every time field is bounded by it. */
  const DayMinutes: int := 24 * 60

  /** Allocations a day log starts with when it is first created. */
  const DefaultSleep: int := 480
  const DefaultBuffer: int := 120

  /** A duration that fits inside one day. */
  type Minutes = m: int | 0 <= m <= DayMinutes

  /** A target share of the day, in whole percent. */
  type Percent = p: int | 0 <= p <= 100

  datatype Option<+T> = None | Some(value: T)

  /** One recorded block of time; `roleId` is not checked against the registry. */
  datatype Segment = Segment(roleId: int, minutes: Minutes, note: Option<string>)

  /** The allocation record of one user for one day ("YYYY-MM-DD"). */
  datatype DayLog = DayLog(
    userId: string,
    day: string,
    sleepMinutes: Minutes,
    bufferMinutes: Minutes,
    segments: seq<Segment>)

  datatype Role = Role(id: int, name: string, percent: Percent)

  /** The client errors the service reports, each with its HTTP status. */
  datatype ApiError =
    | RoleExists
    | RoleNotFound
    | DayOverAllocated
    | OutOfBounds(field: string)
  {
    function Status(): int {
      match this
      case RoleExists => 409
      case RoleNotFound => 404
      case DayOverAllocated => 409
      case OutOfBounds(_) => 422
    }

    /** The message of the error response. A 422 answer is a structured
        validation list; here it is reduced to the offending field's name. */
    function Detail(): string {
      match this
      case RoleExists => "Role with this id already exists"
      case RoleNotFound => "Role not found"
      case DayOverAllocated => "Total minutes exceed 1440"
      case OutOfBounds(f) => f
    }
  }

  datatype Result<+T> = Ok(value: T) | Err(error: ApiError)

  /** The log a (user, day) pair has before anything was recorded for it. */
  function DefaultLog(userId: string, day: string): (r: DayLog)
    ensures r.userId == userId && r.day == day
    ensures r.sleepMinutes == 480 && r.bufferMinutes == 120
    ensures r.segments == []
  {
    DayLog(userId, day, DefaultSleep, DefaultBuffer, [])
  }

  /** Builds a segment from a request body, refusing minutes outside one day. */
  function ParseSegment(roleId: int, minutes: int, note: Option<string>): (r: Result<Segment>)
    ensures r.Ok? <==> 0 <= minutes <= 1440
    ensures r.Ok? ==> r.value.roleId == roleId && r.value.minutes == minutes && r.value.note == note
    ensures r.Err? ==> r.error.Status() == 422
  {
    if 0 <= minutes <= DayMinutes then Ok(Segment(roleId, minutes, note))
    else Err(OutOfBounds("minutes"))
  }

  /** Builds a role from a request body, refusing a percent outside [0, 100]. */
  function ParseRole(id: int, name: string, percent: int): (r: Result<Role>)
    ensures r.Ok? <==> 0 <= percent <= 100
    ensures r.Ok? ==> r.value.id == id && r.value.name == name && r.value.percent == percent
    ensures r.Err? ==> r.error.Status() == 422
  {
    if 0 <= percent <= 100 then Ok(Role(id, name, percent))
    else Err(OutOfBounds("percent"))
  }
}
