/**
 * What the line decoder accepts, stated against an independent reference:
 * the grammar of the integer literals that Python 2 `long()` reads, and the
 * round trip with the device's wire format `<tag><integer>\n`.
 */
module LineGrammar {
  import opened Wrappers
  import opened LineDecoder

  predicate AllSpace(s: string) {
    s == [] || (IsSpace(s[0]) && AllSpace(s[1..]))
  }

  predicate AllDigits(s: string) {
    s == [] || (IsDigit(s[0]) && AllDigits(s[1..]))
  }

  /** The number a string of decimal digits denotes, read most significant digit first onto `acc`. */
  function DigitsValue(d: string, acc: nat): nat
    requires AllDigits(d)
  {
    if d == [] then acc else DigitsValue(d[1..], 10 * acc + DigitOf(d[0]))
  }

  /** A literal: white space, a sign, white space, digits, a suffix, white space. */
  datatype Literal = Literal(lead: string, sign: string, gap: string, digits: string, suffix: string, trail: string)

  predicate WellFormed(l: Literal) {
    AllSpace(l.lead) && (l.sign == "" || l.sign == "+" || l.sign == "-") && AllSpace(l.gap) &&
    |l.digits| > 0 && AllDigits(l.digits) &&
    (l.suffix == "" || l.suffix == "L" || l.suffix == "l") && AllSpace(l.trail)
  }

  function Text(l: Literal): string {
    l.lead + (l.sign + (l.gap + (l.digits + (l.suffix + l.trail))))
  }

  function ValueOf(l: Literal): int
    requires WellFormed(l)
  {
    if l.sign == "-" then -(DigitsValue(l.digits, 0) as int) else DigitsValue(l.digits, 0)
  }

  // ---------------------------------------------------------------------------
  // Completeness: every literal is accepted, with its value.

  lemma {:induction false} LStripSpaces(w: string, x: string)
    requires AllSpace(w)
    requires x == [] || !IsSpace(x[0])
    ensures LStrip(w + x) == x
  {
    if w == [] {
      assert w + x == x;
    } else {
      assert (w + x)[1..] == w[1..] + x;
      LStripSpaces(w[1..], x);
    }
  }

  lemma {:induction false} AllSpaceAppend(w: string, x: string)
    requires AllSpace(w) && AllSpace(x)
    ensures AllSpace(w + x)
  {
    if w == [] {
      assert w + x == x;
    } else {
      assert (w + x)[1..] == w[1..] + x;
      AllSpaceAppend(w[1..], x);
    }
  }

  lemma EndingOfLiteral(suffix: string, trail: string)
    requires suffix == "" || suffix == "L" || suffix == "l"
    requires AllSpace(trail)
    ensures IsEnding(suffix + trail)
  {
    var e := suffix + trail;
    var t := if |e| > 0 && (e[0] == 'L' || e[0] == 'l') then e[1..] else e;
    assert t == trail by {
      if suffix == "" {
        assert e == trail;
      } else {
        assert e[1..] == trail;
      }
    }
    LStripSpaces(trail, []);
    assert trail + [] == trail;
  }

  lemma {:induction false} DigitsOfLiteral(d: string, after: string, acc: nat)
    requires AllDigits(d)
    requires after == [] || !IsDigit(after[0])
    requires IsEnding(after)
    ensures Digits(d + after, acc) == Some(DigitsValue(d, acc))
  {
    if d == [] {
      assert d + after == after;
    } else {
      assert (d + after)[1..] == d[1..] + after;
      DigitsOfLiteral(d[1..], after, 10 * acc + DigitOf(d[0]));
    }
  }

  /** Every literal of the grammar is accepted by `long()`, with the value the literal denotes. */
  lemma ParseLongComplete(l: Literal)
    requires WellFormed(l)
    ensures ParseLong(Text(l)) == Some(ValueOf(l))
  {
    var after := l.suffix + l.trail;
    var body := l.digits + after;
    assert body[0] == l.digits[0];
    EndingOfLiteral(l.suffix, l.trail);
    assert after == [] || !IsDigit(after[0]);
    DigitsOfLiteral(l.digits, after, 0);
    assert Magnitude(body) == Some(DigitsValue(l.digits, 0));
    var signed := l.sign + (l.gap + body);
    if l.sign == "" {
      assert signed == l.gap + body;
      AllSpaceAppend(l.lead, l.gap);
      assert Text(l) == (l.lead + l.gap) + body;
      LStripSpaces(l.lead + l.gap, body);
    } else {
      LStripSpaces(l.lead, signed);
      assert signed[1..] == l.gap + body;
      LStripSpaces(l.gap, body);
    }
  }

  // ---------------------------------------------------------------------------
  // Soundness: whatever is accepted is a literal, and the value is its value.

  lemma {:induction false} LStripSound(s: string) returns (w: string)
    ensures AllSpace(w) && s == w + LStrip(s)
  {
    if |s| > 0 && IsSpace(s[0]) {
      var w' := LStripSound(s[1..]);
      w := [s[0]] + w';
      assert s == [s[0]] + s[1..];
    } else {
      w := [];
    }
  }

  lemma EndingSound(e: string) returns (suffix: string, trail: string)
    requires IsEnding(e)
    ensures (suffix == "" || suffix == "L" || suffix == "l") && AllSpace(trail) && e == suffix + trail
  {
    var t := if |e| > 0 && (e[0] == 'L' || e[0] == 'l') then e[1..] else e;
    var w := LStripSound(t);
    assert t == w + [];
    trail := w;
    if |e| > 0 && (e[0] == 'L' || e[0] == 'l') {
      suffix := [e[0]];
      assert e == [e[0]] + e[1..];
    } else {
      suffix := "";
    }
  }

  lemma {:induction false} DigitsSound(c: string, acc: nat) returns (d: string, suffix: string, trail: string)
    requires Digits(c, acc).Some?
    ensures AllDigits(d) && c == d + (suffix + trail) && Digits(c, acc) == Some(DigitsValue(d, acc))
    ensures (suffix == "" || suffix == "L" || suffix == "l") && AllSpace(trail)
  {
    if |c| > 0 && IsDigit(c[0]) {
      var d';
      d', suffix, trail := DigitsSound(c[1..], 10 * acc + DigitOf(c[0]));
      d := [c[0]] + d';
      assert d[1..] == d';
      assert c == [c[0]] + c[1..];
    } else {
      d := [];
      suffix, trail := EndingSound(c);
    }
  }

  /** Whatever `long()` accepts is a literal of the grammar, and the value is the literal's value. */
  lemma ParseLongSound(s: string) returns (l: Literal)
    requires ParseLong(s).Some?
    ensures WellFormed(l) && Text(l) == s && ValueOf(l) == ParseLong(s).value
  {
    var a := LStrip(s);
    var lead := LStripSound(s);
    var sign: string, gap: string, c: string;
    if |a| > 0 && (a[0] == '-' || a[0] == '+') {
      sign := [a[0]];
      c := LStrip(a[1..]);
      gap := LStripSound(a[1..]);
      assert a == sign + (gap + c);
    } else {
      sign, gap, c := "", "", a;
      assert a == sign + (gap + c);
    }
    assert Magnitude(c).Some?;
    var d, suffix, trail := DigitsSound(c, 0);
    l := Literal(lead, sign, gap, d, suffix, trail);
    assert d != [];
  }

  /** `Decode` accepts a line exactly when its remainder after the tag is a literal of the grammar. */
  lemma DecodeIff(line: string)
    ensures Decode(line).Some? <==> |line| > 0 && exists l :: WellFormed(l) && Text(l) == line[1..]
  {
    if Decode(line).Some? {
      var l := ParseLongSound(line[1..]);
    }
    if |line| > 0 && exists l :: WellFormed(l) && Text(l) == line[1..] {
      var l :| WellFormed(l) && Text(l) == line[1..];
      ParseLongComplete(l);
    }
  }

  // ---------------------------------------------------------------------------
  // The device's wire format.

  function DigitChar(d: nat): char
    requires d < 10
  {
    ('0' as int + d) as char
  }

  /** The decimal digits of `n`, most significant first. */
  function ShowNat(n: nat): string {
    if n < 10 then [DigitChar(n)] else ShowNat(n / 10) + [DigitChar(n % 10)]
  }

  function Show(v: int): string {
    if v < 0 then "-" + ShowNat(-v) else ShowNat(v)
  }

  /** A sample as the device writes it on the wire. */
  function Format(s: Sample): string {
    [s.tag] + Show(s.value) + "\n"
  }

  lemma {:induction false} DigitsValueAppend(d: string, c: char, acc: nat)
    requires AllDigits(d) && IsDigit(c)
    ensures AllDigits(d + [c]) && DigitsValue(d + [c], acc) == 10 * DigitsValue(d, acc) + DigitOf(c)
  {
    if d != [] {
      assert (d + [c])[1..] == d[1..] + [c];
      DigitsValueAppend(d[1..], c, 10 * acc + DigitOf(d[0]));
    } else {
      assert [] + [c] == [c];
      assert [c][1..] == [];
    }
  }

  lemma {:induction false} ShowNatValue(n: nat)
    ensures |ShowNat(n)| > 0 && AllDigits(ShowNat(n)) && DigitsValue(ShowNat(n), 0) == n
  {
    if n < 10 {
      assert [DigitChar(n)][1..] == [];
    } else {
      ShowNatValue(n / 10);
      DigitsValueAppend(ShowNat(n / 10), DigitChar(n % 10), 0);
    }
  }

  lemma DecodeTagged(tag: char, l: Literal)
    requires WellFormed(l)
    ensures Decode([tag] + Text(l)) == Some(Sample(tag, ValueOf(l)))
  {
    ParseLongComplete(l);
    assert ([tag] + Text(l))[1..] == Text(l);
  }

  lemma FormatAsLiteral(tag: char, sign: string, d: string)
    ensures [tag] + (sign + d) + "\n" == [tag] + Text(Literal("", sign, "", d, "", "\n"))
  {
    assert Text(Literal("", sign, "", d, "", "\n")) == sign + (d + "\n");
  }

  /** Every line the device formats decodes back to the sample it carries. */
  lemma DecodeFormat(s: Sample)
    ensures Decode(Format(s)) == Some(s)
  {
    var v := s.value;
    var mag: nat := if v < 0 then -v else v;
    var sign := if v < 0 then "-" else "";
    var d := ShowNat(mag);
    var l := Literal("", sign, "", d, "", "\n");
    ShowNatValue(mag);
    assert AllSpace("\n") by {
      assert "\n"[1..] == [];
    }
    assert WellFormed(l);
    assert Show(v) == sign + d;
    FormatAsLiteral(s.tag, sign, d);
    DecodeTagged(s.tag, l);
  }
}
