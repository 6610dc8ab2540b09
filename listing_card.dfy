/** The listing card: the remaining-time badge and the choice of the image
    shown. The listing detail view computes the remaining time with the same
    expression and uses `Remaining` too.

    Timestamps are integers of milliseconds. JavaScript's `Math.floor(a / b)`
    for a positive `b` is floor division, which is what Dafny's `/` computes
    for a positive divisor; JavaScript's `%` truncates (its result takes the
    sign of the dividend), which `JsRem` spells out. */
module ListingCard {
  import opened Common

  const MillisPerHour := 1000 * 60 * 60
  const MillisPerMinute := 1000 * 60

  /** `Math.floor(a / b)` for a positive divisor: the largest `q` with
      `q * b <= a`. */
  function FloorDiv(a: int, b: int): (q: int)
    requires b > 0
    ensures q * b <= a < (q + 1) * b
  {
    a / b
  }

  /** JavaScript's `a % b` for a positive divisor: the remainder of the
      division truncated toward zero, which is negative for a negative `a`. */
  function JsRem(a: int, b: int): (r: int)
    requires b > 0
    ensures a >= 0 ==> 0 <= r < b
    ensures a < 0 ==> -b < r <= 0
    ensures a >= 0 ==> r == a % b
    ensures a < 0 ==> -r == (-a) % b
  {
    if a >= 0 then a % b else -((-a) % b)
  }

  /** The whole hours and the minutes past the hour on the badge. */
  datatype Countdown = Countdown(hours: int, minutes: int)

  /** `hoursRemaining` and `minutesRemaining`: `max(0, floor(d / 3600000))`
      and `max(0, floor(d / 60000) % 60)` for `d = expiresAt - now`. */
  function Remaining(expiresAt: int, now: int): (c: Countdown)
    ensures c.hours >= 0
    ensures 0 <= c.minutes <= 59
    ensures now >= expiresAt ==> c == Countdown(0, 0)
    ensures now < expiresAt ==> c.hours * 60 + c.minutes == FloorDiv(expiresAt - now, MillisPerMinute)
  {
    var d := expiresAt - now;
    var c := Countdown(Max(0, FloorDiv(d, MillisPerHour)), Max(0, JsRem(FloorDiv(d, MillisPerMinute), 60)));
    if d > 0 then HoursAndMinutes(d); c else c
  }

  function Max(a: int, b: int): int
  {
    if a < b then b else a
  }

  /** For a non-negative number of milliseconds, the whole hours and the
      minutes past the hour add up to the whole minutes. */
  lemma HoursAndMinutes(d: int)
    requires d >= 0
    ensures FloorDiv(d, MillisPerHour) * 60 + JsRem(FloorDiv(d, MillisPerMinute), 60)
            == FloorDiv(d, MillisPerMinute)
  {
    var m := d / 60000;
    var h := m / 60;
    var r := m % 60;
    var s := d % 60000;
    assert d == h * 3600000 + (r * 60000 + s);
    assert d / 3600000 == h;
  }

  /** Once a listing has expired, the unclamped hours are negative and the
      unclamped minutes are never positive (JavaScript's `%` keeps the
      dividend's sign, where a floored remainder would give up to 59); the
      clamp turns both into 0. One millisecond after expiry the unclamped
      minutes are -1. */
  lemma ClampHidesNegativeRemainder(expiresAt: int, now: int)
    requires now > expiresAt
    ensures FloorDiv(expiresAt - now, MillisPerHour) < 0
    ensures JsRem(FloorDiv(expiresAt - now, MillisPerMinute), 60) <= 0
    ensures now == expiresAt + 1 ==>
              JsRem(FloorDiv(expiresAt - now, MillisPerMinute), 60) == -1 &&
              FloorDiv(expiresAt - now, MillisPerMinute) % 60 == 59
    ensures Remaining(expiresAt, now) == Countdown(0, 0)
  {
    if now == expiresAt + 1 {
      assert FloorDiv(expiresAt - now, MillisPerMinute) == -1;
    }
  }

  /** The image the card shows: `images[0]` when it is truthy (present and
      not the empty string), otherwise the placeholder (`None`). */
  function CardImage(images: seq<string>): (shown: Option<string>)
    ensures shown.Some? <==> |images| > 0 && images[0] != ""
    ensures shown.Some? ==> shown.value == images[0]
  {
    if |images| > 0 && images[0] != "" then Some(images[0]) else None
  }

  /** Only the first image ever reaches the card: images after the first do
      not change what is shown. */
  lemma CardIgnoresLaterImages(first: string, rest1: seq<string>, rest2: seq<string>)
    ensures CardImage([first] + rest1) == CardImage([first] + rest2)
  {
  }
}
