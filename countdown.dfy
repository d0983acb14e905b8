/** The "coming soon" countdown: each second the milliseconds left until the launch date
    are split into days, hours, minutes and seconds, and each is shown with at least two
    digits. */
module Countdown {
  import opened Text
  import opened Arith

  const MsPerSecond: int := 1000
  const MsPerMinute: int := 60 * MsPerSecond
  const MsPerHour: int := 60 * MsPerMinute
  const MsPerDay: int := 24 * MsPerHour

  /** JavaScript's `%`, whose result takes the sign of the dividend. */
  function JsRem(a: int, d: int): (r: int)
    requires d > 0
    ensures a >= 0 ==> r == a % d
    ensures a < 0 ==> -d < r <= 0
  {
    if a >= 0 then a % d else -((-a) % d)
  }

  /** `Math.floor(a / d)`; Dafny's division already rounds down for a positive divisor. */
  function FloorDiv(a: int, d: int): (q: int)
    requires d > 0
    ensures q * d <= a < q * d + d
  {
    a / d
  }

  datatype TimeLeft = TimeLeft(days: int, hours: int, minutes: int, seconds: int)

  /** The object the interval callback stores, for `distance` milliseconds left. */
  function Split(distance: int): (t: TimeLeft)
    ensures distance >= 0 ==> 0 <= t.hours < 24 && 0 <= t.minutes < 60 && 0 <= t.seconds < 60 && t.days >= 0
    ensures distance < 0 ==> t.days < 0 && -24 <= t.hours <= 0 && -60 <= t.minutes <= 0 && -60 <= t.seconds <= 0
  {
    TimeLeft(
      FloorDiv(distance, MsPerDay),
      FloorDiv(JsRem(distance, MsPerDay), MsPerHour),
      FloorDiv(JsRem(distance, MsPerHour), MsPerMinute),
      FloorDiv(JsRem(distance, MsPerMinute), MsPerSecond))
  }

  /** A remainder by a multiple of `small` has the same remainder by `small`. */
  lemma RemOfRem(d: nat, k: nat, small: int)
    requires small > 0 && k > 0
    ensures (d % (k * small)) % small == d % small
  {
    var big := k * small;
    var q := d / big;
    var r := d % big;
    var q2 := r / small;
    assert d == q * big + r;
    assert r == q2 * small + r % small;
    assert q * big == (q * k) * small;
    assert d == (q * k + q2) * small + r % small;
    DivModUnique(d, small, q * k + q2, r % small);
  }

  /** The four parts and the milliseconds below a second add up to what was left. */
  lemma SplitReassembles(distance: int)
    requires distance >= 0
    ensures var t := Split(distance);
      t.days * MsPerDay + t.hours * MsPerHour + t.minutes * MsPerMinute + t.seconds * MsPerSecond
        + distance % MsPerSecond == distance
  {
    var t := Split(distance);
    RemOfRem(distance, 24, MsPerHour);
    RemOfRem(distance, 60, MsPerMinute);
    RemOfRem(distance, 60, MsPerSecond);
    var rd := distance % MsPerDay;
    var rh := distance % MsPerHour;
    var rm := distance % MsPerMinute;
    assert distance == t.days * MsPerDay + rd;
    assert rd == t.hours * MsPerHour + rh;
    assert rh == t.minutes * MsPerMinute + rm;
    assert rm == t.seconds * MsPerSecond + distance % MsPerSecond;
  }

  /** As time passes the day count never goes up. */
  lemma DaysNeverIncrease(later: int, earlier: int)
    requires later <= earlier
    ensures Split(later).days <= Split(earlier).days
  {
  }

  /** `value.toString().padStart(2, "0")` */
  function Display(value: int): (r: string)
    ensures |r| >= 2
  {
    PadStart2(IntToString(value))
  }

  /** Values below ten get one leading zero; larger ones are shown as they are. */
  lemma DisplayPads(value: nat)
    ensures value < 10 ==> Display(value) == ['0', Digit(value)]
    ensures value >= 10 ==> Display(value) == NatToString(value)
  {
  }
}
