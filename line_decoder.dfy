/**
 * The line decoder of the acquisition loop: a raw serial line is split into a
 * one-character tag (`line[0]`) and an integer parsed from the rest of the line
 * with Python 2's `long()`. For a string argument `long()` skips leading white
 * space, takes an optional sign, skips white space again, reads one or more
 * decimal digits, allows an `L` or `l` suffix and trailing white space (so the
 * line's own newline is accepted); anything else raises `ValueError`, and the
 * loop skips the line.
 */
module LineDecoder {
  import opened Wrappers

  /** One decoded line: the tag character and its integer value. */
  datatype Sample = Sample(tag: char, value: int)

  /** C `isspace` in the C locale: space, tab, newline, vertical tab, form feed, carriage return. */
  predicate IsSpace(c: char) {
    c == ' ' || 9 <= c as int <= 13
  }

  predicate IsDigit(c: char) {
    '0' <= c <= '9'
  }

  function DigitOf(c: char): nat
    requires IsDigit(c)
  {
    c as int - '0' as int
  }

  /** The input with its leading white space removed. */
  function LStrip(s: string): (r: string)
    ensures |r| <= |s|
    ensures r == [] || !IsSpace(r[0])
  {
    if |s| > 0 && IsSpace(s[0]) then LStrip(s[1..]) else s
  }

  /** What may follow the digits: an optional `L` or `l`, then only white space. */
  predicate IsEnding(s: string) {
    var t := if |s| > 0 && (s[0] == 'L' || s[0] == 'l') then s[1..] else s;
    LStrip(t) == []
  }

  /** The digits from the front of `c` on, accumulated into `acc`, up to an acceptable ending. */
  function Digits(c: string, acc: nat): Option<nat> {
    if |c| > 0 && IsDigit(c[0]) then Digits(c[1..], 10 * acc + DigitOf(c[0]))
    else if IsEnding(c) then Some(acc)
    else None
  }

  /** The magnitude: at least one digit, then `Digits`. */
  function Magnitude(c: string): Option<nat> {
    if |c| > 0 && IsDigit(c[0]) then Digits(c, 0) else None
  }

  /** Python 2 `long(s)` for base 10: `Some` of the value, or `None` where `long` raises `ValueError`. */
  function ParseLong(s: string): Option<int> {
    var a := LStrip(s);
    if |a| > 0 && a[0] == '-' then
      match Magnitude(LStrip(a[1..]))
      case None => None
      case Some(m) => Some(-(m as int))
    else if |a| > 0 && a[0] == '+' then
      match Magnitude(LStrip(a[1..]))
      case None => None
      case Some(m) => Some(m)
    else
      match Magnitude(a)
      case None => None
      case Some(m) => Some(m)
  }

  /**
   * One serial line: an empty line, or one whose remainder after the first
   * character is not accepted by `long()`, yields `None` (the loop skips it).
   */
  function Decode(line: string): (r: Option<Sample>)
    ensures r.Some? ==> |line| > 1 && r.value.tag == line[0]
  {
    if line == [] then None
    else
      match ParseLong(line[1..])
      case None => None
      case Some(v) => Some(Sample(line[0], v))
  }
}
