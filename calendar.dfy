/**
 * Dates and timestamps. A date is its day number (the proleptic Gregorian
 * ordinal of Python's `date.toordinal()`), a timestamp is a day and the
 * second within it, and `ts.date()` is the projection onto the day. The text
 * forms of both are injective renderings with parsers that invert them.
 */
module Calendar {
  import opened Wrappers
  import Decimal

  type Day = nat

  datatype Timestamp = Timestamp(day: Day, second: nat) {
    /** `ts.date()` */
    function Date(): Day {
      day
    }
  }

  /** The text written for a date cell. */
  function DateText(d: Day): (s: string)
    ensures s != [] && Decimal.AllDigits(s)
  {
    Decimal.NatToString(d)
  }

  function ParseDate(s: string): Option<Day> {
    Decimal.ParseNat(s)
  }

  /** `iso(ts)`: the date, one space, the time of day. Never empty. */
  function Iso(ts: Timestamp): (s: string)
    ensures s != ""
    ensures ' ' in s
  {
    DateText(ts.day) + " " + Decimal.NatToString(ts.second)
  }

  /** Position of the first space in `s`, or `|s|` when there is none. */
  function SpaceIndex(s: string): (k: nat)
    ensures k <= |s|
    ensures forall i :: 0 <= i < k ==> s[i] != ' '
    ensures k < |s| ==> s[k] == ' '
  {
    if s == [] || s[0] == ' ' then 0 else 1 + SpaceIndex(s[1..])
  }

  /** `datetime.strptime` for the text `Iso` writes. */
  function ParseIso(s: string): Option<Timestamp> {
    var k := SpaceIndex(s);
    if k == |s| then None
    else match (ParseDate(s[..k]), Decimal.ParseNat(s[k + 1..]))
      case (Some(d), Some(sec)) => Some(Timestamp(d, sec))
      case _ => None
  }

  lemma ParseDateText(d: Day)
    ensures ParseDate(DateText(d)) == Some(d)
  {
    Decimal.ParseRendering(d);
  }

  /** Parsing a written timestamp gives back that timestamp. */
  lemma ParseIsoRoundTrip(ts: Timestamp)
    ensures ParseIso(Iso(ts)) == Some(ts)
  {
    var a := DateText(ts.day);
    var b := Decimal.NatToString(ts.second);
    var s := Iso(ts);
    var k := SpaceIndex(s);
    assert s[|a|] == ' ';
    assert s[..k] == a;
    assert s[k + 1..] == b;
    ParseDateText(ts.day);
    Decimal.ParseRendering(ts.second);
  }

  /** Distinct timestamps are written differently. */
  lemma IsoInjective(a: Timestamp, b: Timestamp)
    requires Iso(a) == Iso(b)
    ensures a == b
  {
    ParseIsoRoundTrip(a);
    ParseIsoRoundTrip(b);
  }
}
