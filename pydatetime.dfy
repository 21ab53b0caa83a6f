// The part of Python's datetime the checkpoints use: adding a timeout in
// seconds to the current UTC time. Instants are whole seconds since the
// epoch; since a timeout is a whole number of seconds, dropping the
// microseconds of `datetime.now(UTC)` changes no range decision.
module PyDatetime {
  import opened Wrappers
  import Text

  /** datetime(1, 1, 1) and datetime(9999, 12, 31, 23, 59, 59), in UTC seconds since the epoch. */
  const MinSeconds := -62135596800
  const MaxSeconds := 253402300799

  /** The largest magnitude of a timedelta's days, and the range of a C int. */
  const MaxDeltaDays := 999999999
  const MinCInt := -0x8000_0000
  const MaxCInt := 0x7fff_ffff

  /** A time `datetime.now(UTC)` can give. */
  type Instant = t: int | MinSeconds <= t <= MaxSeconds witness 0

  const DateOutOfRange := "date value out of range"
  const CIntOverflow := "Python int too large to convert to C int"

  function DaysOutOfRange(days: int): string
  {
    "days=" + Text.IntToString(days) + "; must have magnitude <= 999999999"
  }

  /**
   * `now + timedelta(seconds=seconds)`: the new instant, or the text of the
   * OverflowError raised when the days do not fit a C int, exceed the
   * timedelta bound, or the sum leaves years 1 to 9999.
   */
  function AddSeconds(now: Instant, seconds: int): (r: Result<Instant, string>)
    ensures r.Ok? <==> MinSeconds <= now + seconds <= MaxSeconds
    ensures r.Ok? ==> r.value == now + seconds
    ensures r.Err? && -MaxDeltaDays * 86400 <= seconds < (MaxDeltaDays + 1) * 86400 ==> r.error == DateOutOfRange
  {
    var days := seconds / 86400;
    if days < MinCInt || days > MaxCInt then Err(CIntOverflow)
    else if days < -MaxDeltaDays || days > MaxDeltaDays then Err(DaysOutOfRange(days))
    else if now + seconds < MinSeconds || now + seconds > MaxSeconds then Err(DateOutOfRange)
    else Ok(now + seconds)
  }

  /** The deadline of a timeout that `int()` gave (or refused) at time `now`: its exception, the OverflowError of the sum, or `now` plus the timeout. */
  function Deadline(timeout: Result<int, string>, now: Instant): (r: Result<Instant, string>)
    ensures r.Ok? <==> timeout.Ok? && MinSeconds <= now + timeout.value <= MaxSeconds
    ensures r.Ok? ==> r.value == now + timeout.value
    ensures timeout.Err? ==> r == Err(timeout.error)
  {
    match timeout
    case Err(e) => Err(e)
    case Ok(t) => AddSeconds(now, t)
  }

  /** Stepping back from a deadline by the same number of seconds gives the starting time again. */
  lemma AddSecondsInverse(now: Instant, seconds: int)
    requires AddSeconds(now, seconds).Ok?
    ensures AddSeconds(AddSeconds(now, seconds).value, -seconds) == Ok(now)
  {
  }
}
