/**
 * The three Python string builtins that threshold parsing relies on:
 * `str.split(sep)`, `str.strip()` and `float(str)`, the last restricted to
 * plain decimal literals.
 */
module PyText {
  import opened Wrappers

  // ---------------------------------------------------------------- split / join

  /** `s.split(sep)` for a one-character separator: never empty, "" gives [""]. */
  function Split(s: string, sep: char): (parts: seq<string>)
    ensures |parts| >= 1
    ensures forall i :: 0 <= i < |parts| ==> sep !in parts[i]
    decreases |s|
  {
    if |s| == 0 then [""]
    else
      var rest := Split(s[1..], sep);
      if s[0] == sep then [""] + rest
      else [[s[0]] + rest[0]] + rest[1..]
  }

  /** `sep.join(parts)`, the inverse of `Split`. */
  function Join(parts: seq<string>, sep: char): string
    decreases |parts|
  {
    if |parts| == 0 then ""
    else if |parts| == 1 then parts[0]
    else parts[0] + [sep] + Join(parts[1..], sep)
  }

  /** Joining the pieces of a split gives back the original text. */
  lemma {:induction false} JoinSplit(s: string, sep: char)
    ensures Join(Split(s, sep), sep) == s
    decreases |s|
  {
    if |s| > 0 {
      var rest := Split(s[1..], sep);
      JoinSplit(s[1..], sep);
      if s[0] == sep {
        assert Split(s, sep) == [""] + rest;
        if |rest| == 1 {
          assert Join(Split(s, sep), sep) == "" + [sep] + rest[0];
        } else {
          assert Join(Split(s, sep), sep) == "" + [sep] + Join(rest, sep);
        }
        assert s == [s[0]] + s[1..];
      } else {
        var parts := Split(s, sep);
        assert parts == [[s[0]] + rest[0]] + rest[1..];
        if |rest| == 1 {
          assert Join(parts, sep) == [s[0]] + rest[0];
        } else {
          assert parts[1..] == rest[1..];
          assert Join(rest, sep) == rest[0] + [sep] + Join(rest[1..], sep);
          assert Join(parts, sep) == [s[0]] + rest[0] + [sep] + Join(rest[1..], sep);
        }
        assert s == [s[0]] + s[1..];
      }
    }
  }

  /** Splitting a join of separator-free pieces gives back the pieces. */
  lemma {:induction false} SplitJoin(parts: seq<string>, sep: char)
    requires |parts| >= 1
    requires forall i :: 0 <= i < |parts| ==> sep !in parts[i]
    ensures Split(Join(parts, sep), sep) == parts
    decreases |parts|, |parts[0]|
  {
    var p := parts[0];
    if |p| > 0 {
      // Peel the first character of the first piece.
      var parts' := [p[1..]] + parts[1..];
      assert forall i :: 0 <= i < |parts'| ==> sep !in parts'[i] by {
        forall i | 0 <= i < |parts'| ensures sep !in parts'[i] {
          if i > 0 { assert parts'[i] == parts[i]; }
          else { assert forall c :: c in p[1..] ==> c in p; }
        }
      }
      SplitJoin(parts', sep);
      assert Join(parts, sep) == [p[0]] + Join(parts', sep) by {
        if |parts| == 1 {
          assert p == [p[0]] + p[1..];
        } else {
          assert parts'[1..] == parts[1..];
          assert p == [p[0]] + p[1..];
        }
      }
      var s := Join(parts, sep);
      assert s[1..] == Join(parts', sep);
      assert s[0] == p[0] && p[0] != sep;
      assert [p[0]] + p[1..] == p;
      assert parts == [p] + parts[1..];
    } else if |parts| > 1 {
      SplitJoin(parts[1..], sep);
      var s := Join(parts, sep);
      assert s == [sep] + Join(parts[1..], sep);
      assert s[1..] == Join(parts[1..], sep);
      assert parts == [""] + parts[1..];
    }
  }

  /** A trailing separator adds one empty piece at the end. */
  lemma {:induction false} SplitTrailingSeparator(s: string, sep: char)
    ensures Split(s + [sep], sep) == Split(s, sep) + [""]
    decreases |s|
  {
    if |s| == 0 {
      assert Split([sep], sep) == [""] + Split([], sep);
    } else {
      assert (s + [sep])[1..] == s[1..] + [sep];
      SplitTrailingSeparator(s[1..], sep);
    }
  }

  // ---------------------------------------------------------------- strip

  /** The characters for which Python's `str.isspace()` holds. */
  predicate IsSpace(c: char) {
    || ('\t' <= c <= '\r')              // tab, line feed, vertical tab, form feed, carriage return
    || ('\U{001C}' <= c <= ' ')          // file, group, record and unit separators, space
    || c == '\U{0085}' || c == '\U{00A0}' || c == '\U{1680}'
    || ('\U{2000}' <= c <= '\U{200A}')
    || c == '\U{2028}' || c == '\U{2029}' || c == '\U{202F}' || c == '\U{205F}' || c == '\U{3000}'
  }


  /** The number of whitespace characters that `s` starts with. */
  function LeadingSpaces(s: string): (k: nat)
    ensures k <= |s|
    ensures forall i :: 0 <= i < k ==> IsSpace(s[i])
    ensures k == |s| || !IsSpace(s[k])
    decreases |s|
  {
    if |s| > 0 && IsSpace(s[0]) then 1 + LeadingSpaces(s[1..]) else 0
  }

  /** The number of whitespace characters that `s` ends with. */
  function TrailingSpaces(s: string): (k: nat)
    ensures k <= |s|
    ensures forall i :: |s| - k <= i < |s| ==> IsSpace(s[i])
    ensures k == |s| || !IsSpace(s[|s| - 1 - k])
    decreases |s|
  {
    if |s| > 0 && IsSpace(s[|s| - 1]) then 1 + TrailingSpaces(s[..|s| - 1]) else 0
  }

  /**
   * `s.strip()`: the text between the leading and the trailing whitespace,
   * which neither starts nor ends with whitespace.
   */
  function Strip(s: string): (r: string)
    ensures exists i, j :: 0 <= i <= j <= |s| && r == s[i..j]
                          && (forall k :: 0 <= k < i ==> IsSpace(s[k]))
                          && (forall k :: j <= k < |s| ==> IsSpace(s[k]))
    ensures r == [] || (!IsSpace(r[0]) && !IsSpace(r[|r| - 1]))
  {
    var (i, j) := StripBounds(s);
    s[i..j]
  }

  /** Where the text that `strip` keeps starts and ends. */
  function StripBounds(s: string): (b: (nat, nat))
    ensures b.0 <= b.1 <= |s|
    ensures forall k :: 0 <= k < b.0 ==> IsSpace(s[k])
    ensures forall k :: b.1 <= k < |s| ==> IsSpace(s[k])
    ensures b.0 < b.1 ==> !IsSpace(s[b.0]) && !IsSpace(s[b.1 - 1])
  {
    var i := LeadingSpaces(s);
    var end := |s| - TrailingSpaces(s);
    // a text made only of whitespace leaves nothing between the two runs
    if end < i then (i, i) else (i, end)
  }

  /** Text without whitespace at either end is left as it is by `Strip`. */
  lemma StripNoSpace(s: string)
    requires s == [] || (!IsSpace(s[0]) && !IsSpace(s[|s| - 1]))
    ensures Strip(s) == s
  {
    var r := Strip(s);
    var i, j :| 0 <= i <= j <= |s| && r == s[i..j]
                && (forall k :: 0 <= k < i ==> IsSpace(s[k]))
                && (forall k :: j <= k < |s| ==> IsSpace(s[k]));
    if s != [] {
      assert i == 0;
      assert j == |s|;
    }
  }

  // ---------------------------------------------------------------- float

  predicate IsDigit(c: char) { '0' <= c <= '9' }

  predicate AllDigits(s: string) { forall i :: 0 <= i < |s| ==> IsDigit(s[i]) }

  /** The characters a decimal literal may contain. */
  predicate IsNumeric(c: char) { IsDigit(c) || c == '.' || c == '+' || c == '-' }

  /** The value of a string of decimal digits, most significant first. */
  function DigitsValue(s: string): nat
    requires AllDigits(s)
    decreases |s|
  {
    if |s| == 0 then 0
    else DigitsValue(s[..|s| - 1]) * 10 + (s[|s| - 1] as int - '0' as int)
  }

  function Pow10(n: nat): (r: nat)
    ensures r >= 1
  {
    if n == 0 then 1 else 10 * Pow10(n - 1)
  }

  /** The position of the first `c` in `s`. */
  function IndexOf(s: string, c: char): (r: Option<nat>)
    ensures r.None? <==> c !in s
    ensures r.Some? ==> r.value < |s| && s[r.value] == c && c !in s[..r.value]
    decreases |s|
  {
    if |s| == 0 then None
    else if s[0] == c then Some(0)
    else
      var r := IndexOf(s[1..], c);
      if r.Some? then
        assert s[..r.value + 1] == [s[0]] + s[1..][..r.value];
        Some(r.value + 1)
      else r
  }

  /** An unsigned decimal: `ddd`, `ddd.`, `.ddd` or `ddd.ddd`, with at least one digit. */
  function ParseUnsigned(t: string): (r: Option<real>)
    ensures r.Some? ==> r.value >= 0.0
    ensures r.Some? ==> (forall i :: 0 <= i < |t| ==> IsDigit(t[i]) || t[i] == '.')
  {
    match IndexOf(t, '.')
    case None =>
      if |t| > 0 && AllDigits(t) then Some(DigitsValue(t) as real) else None
    case Some(dot) =>
      var whole, frac := t[..dot], t[dot + 1..];
      if AllDigits(whole) && AllDigits(frac) && |whole| + |frac| > 0 then
        assert forall i :: 0 <= i < |t| ==> IsDigit(t[i]) || t[i] == '.' by {
          forall i | 0 <= i < |t| ensures IsDigit(t[i]) || t[i] == '.' {
            if i < dot { assert t[i] == whole[i]; }
            else if i > dot { assert t[i] == frac[i - dot - 1]; }
          }
        }
        Some(Decimal(whole, frac))
      else None
  }

  /** The value of the literal `whole.frac`. */
  function Decimal(whole: string, frac: string): real
    requires AllDigits(whole) && AllDigits(frac)
  {
    DigitsValue(whole) as real + DigitsValue(frac) as real / Pow10(|frac|) as real
  }

  /**
   * `float(t)` on an already stripped token, for decimal literals with an
   * optional sign; anything else raises `ValueError`, modelled as `None`.
   */
  function ParseFloat(t: string): (r: Option<real>)
    ensures r.Some? ==> forall i :: 0 <= i < |t| ==> IsNumeric(t[i])
  {
    if |t| > 0 && (t[0] == '-' || t[0] == '+') then
      match ParseUnsigned(t[1..])
      case None => None
      case Some(x) =>
        assert forall i :: 0 <= i < |t| ==> IsNumeric(t[i]) by {
          forall i | 0 <= i < |t| ensures IsNumeric(t[i]) {
            if i > 0 { assert t[i] == t[1..][i - 1]; }
          }
        }
        Some(if t[0] == '-' then -x else x)
    else ParseUnsigned(t)
  }

  /** Appending the digits `f` shifts the value of `w` left by `|f|` places. */
  lemma {:induction false} DigitsValueConcat(w: string, f: string)
    requires AllDigits(w) && AllDigits(f)
    ensures AllDigits(w + f)
    ensures DigitsValue(w + f) == DigitsValue(w) * Pow10(|f|) + DigitsValue(f)
    decreases |f|
  {
    var t := w + f;
    assert AllDigits(t) by {
      forall i | 0 <= i < |t| ensures IsDigit(t[i]) {
        if i < |w| { assert t[i] == w[i]; } else { assert t[i] == f[i - |w|]; }
      }
    }
    if |f| == 0 {
      assert t == w;
    } else {
      var f' := f[..|f| - 1];
      DigitsValueConcat(w, f');
      assert t[..|t| - 1] == w + f';
      var d := f[|f| - 1] as int - '0' as int;
      assert DigitsValue(t) == DigitsValue(w + f') * 10 + d;
      assert DigitsValue(f) == DigitsValue(f') * 10 + d;
      ShiftOneDigit(DigitsValue(w), Pow10(|f'|), DigitsValue(f'), d);
    }
  }

  lemma ShiftOneDigit(a: int, p: int, b: int, d: int)
    ensures (a * p + b) * 10 + d == a * (10 * p) + (b * 10 + d)
  {
  }

  /** The first `.` of `w + "." + f` is the one between the two digit runs. */
  lemma DotOfDecimal(w: string, f: string)
    requires AllDigits(w)
    ensures IndexOf(w + "." + f, '.') == Some(|w|)
  {
    var t := w + "." + f;
    assert t[|w|] == '.';
    assert t[..|w|] == w;
  }

  /**
   * A literal `w.f` with at least one digit parses to the number its digits
   * spell, scaled down by the number of fraction digits: "2.50" is 250 / 100.
   */
  lemma ParseUnsignedDecimal(w: string, f: string)
    requires AllDigits(w) && AllDigits(f) && |w| + |f| > 0
    ensures ParseUnsigned(w + "." + f) == Some(DigitsValue(w + f) as real / Pow10(|f|) as real)
  {
    DecimalPieces(w, f);
    DecimalRescaled(w, f);
  }

  /** `whole.frac` is the integer its digits spell, over a power of ten. */
  lemma DecimalRescaled(w: string, f: string)
    requires AllDigits(w) && AllDigits(f)
    ensures AllDigits(w + f)
    ensures Decimal(w, f) == DigitsValue(w + f) as real / Pow10(|f|) as real
  {
    DigitsValueConcat(w, f);
    Rescale(DigitsValue(w), DigitsValue(f), Pow10(|f|));
  }

  /** `w.f` parses through the point branch, with `w` and `f` as its two halves. */
  lemma DecimalPieces(w: string, f: string)
    requires AllDigits(w) && AllDigits(f) && |w| + |f| > 0
    ensures ParseUnsigned(w + "." + f) == Some(Decimal(w, f))
  {
    var t := w + "." + f;
    DotOfDecimal(w, f);
    assert t[..|w|] == w && t[|w| + 1..] == f;
    ParseUnsignedAtDot(t, |w|);
  }

  /** A literal whose first point is at `dot` parses through the point branch. */
  lemma ParseUnsignedAtDot(t: string, dot: nat)
    requires IndexOf(t, '.') == Some(dot)
    requires AllDigits(t[..dot]) && AllDigits(t[dot + 1..]) && |t| > 1
    ensures ParseUnsigned(t) == Some(Decimal(t[..dot], t[dot + 1..]))
  {
  }

  lemma Rescale(a: nat, b: nat, p: nat)
    requires p >= 1
    ensures (a * p + b) as real / p as real == a as real + b as real / p as real
  {
    assert (a * p + b) as real == a as real * p as real + b as real;
  }

  /** A run of digits without a point parses to the number it spells. */
  lemma ParseUnsignedDigits(w: string)
    requires AllDigits(w) && |w| > 0
    ensures ParseUnsigned(w) == Some(DigitsValue(w) as real)
  {
    assert '.' !in w by {
      forall k | 0 <= k < |w| ensures w[k] != '.' { assert IsDigit(w[k]); }
    }
  }

  /** `float` honours an optional leading sign on every unsigned literal. */
  lemma ParseFloatSigned(sign: string, u: string, x: real)
    requires sign == "" || sign == "-" || sign == "+"
    requires ParseUnsigned(u) == Some(x)
    ensures ParseFloat(sign + u) == Some(if sign == "-" then -x else x)
  {
    var t := sign + u;
    if sign == "" {
      assert t == u;
      assert |u| == 0 || IsDigit(u[0]) || u[0] == '.';
    } else {
      assert t[1..] == u;
    }
  }

  /** A negative threshold as a user would type it. */
  lemma ParseFloatNegativeExample()
    ensures ParseFloat("-2.5") == Some(-2.5)
  {
    ParseUnsignedDecimal("2", "5");
    assert "2" + "." + "5" == "2.5";
    assert "2" + "5" == "25";
    ParseFloatSigned("-", "2.5", 2.5);
    assert "-" + "2.5" == "-2.5";
  }

  /** A fraction with a leading zero and no whole part. */
  lemma ParseFloatFractionExample()
    ensures ParseFloat(".05") == Some(0.05)
  {
    ParseUnsignedDecimal("", "05");
    assert "" + "." + "05" == ".05";
    assert "" + "05" == "05";
    ParseFloatSigned("", ".05", 0.05);
  }

  /**
   * The literals `float` accepts here, as a grammar: a non-empty run of
   * digits, or two digit runs around a single point with at least one digit
   * in all.
   */
  ghost predicate UnsignedLiteral(t: string) {
    || (|t| > 0 && AllDigits(t))
    || (exists d :: 0 <= d < |t| && t[d] == '.' && AllDigits(t[..d]) && AllDigits(t[d + 1..]) && |t| > 1)
  }

  /** An unsigned literal with at most one leading sign. */
  ghost predicate FloatLiteral(t: string) {
    || UnsignedLiteral(t)
    || (|t| > 0 && (t[0] == '-' || t[0] == '+') && UnsignedLiteral(t[1..]))
  }

  /** `ParseUnsigned` accepts exactly the unsigned literals. */
  lemma ParseUnsignedSucceedsIff(t: string)
    ensures ParseUnsigned(t).Some? <==> UnsignedLiteral(t)
  {
    match IndexOf(t, '.')
    case None =>
    case Some(dot) =>
      assert !AllDigits(t) by { assert !IsDigit(t[dot]); }
  }

  /** `ParseFloat` accepts exactly the literals with at most one sign. */
  lemma ParseFloatSucceedsIff(t: string)
    ensures ParseFloat(t).Some? <==> FloatLiteral(t)
  {
    ParseUnsignedSucceedsIff(t);
    if |t| > 0 {
      ParseUnsignedSucceedsIff(t[1..]);
      if t[0] == '-' || t[0] == '+' {
        // a sign is neither a digit nor a point, so the text itself is no unsigned literal
        assert !AllDigits(t) by { assert !IsDigit(t[0]); }
      }
    }
  }

  /** The empty token (a trailing comma leaves one), a lone point and a lone sign are rejected. */
  lemma ParseFloatRejectsEmpty()
    ensures ParseFloat("") == None
    ensures ParseFloat(".") == None
    ensures ParseFloat("-") == None
  {
  }

  /** A sign inside the number, or two signs, is rejected. */
  lemma ParseFloatRejectsMisplacedSign()
    ensures ParseFloat("1-2") == None
    ensures ParseFloat("+-1") == None
  {
    assert !IsDigit("1-2"[1]);
  }

  /** A second point is rejected. */
  lemma ParseFloatRejectsTwoPoints()
    ensures ParseFloat("1.2.3") == None
  {
    ParseFloatSucceedsIff("1.2.3");
  }

  /** The decimal digits of `n`, with no leading zeros. */
  function NatToString(n: nat): (s: string)
    ensures |s| >= 1 && AllDigits(s)
    decreases n
  {
    if n < 10 then [('0' as int + n) as char]
    else NatToString(n / 10) + [('0' as int + n % 10) as char]
  }

  /** `str(i)` for an integer. */
  function IntToString(i: int): string {
    if i < 0 then "-" + NatToString(-i) else NatToString(i)
  }

  lemma {:induction false} DigitsValueOfNat(n: nat)
    ensures DigitsValue(NatToString(n)) == n
    decreases n
  {
    var s := NatToString(n);
    if n >= 10 {
      DigitsValueOfNat(n / 10);
      assert s[..|s| - 1] == NatToString(n / 10);
    }
  }

  /** `float(str(i)) == i` for every integer `i`. */
  lemma ParseFloatIntToString(i: int)
    ensures ParseFloat(IntToString(i)) == Some(i as real)
  {
    var d := NatToString(if i < 0 then -i else i);
    DigitsValueOfNat(if i < 0 then -i else i);
    assert '.' !in d by {
      forall k | 0 <= k < |d| ensures d[k] != '.' { assert IsDigit(d[k]); }
    }
    if i < 0 {
      assert IntToString(i)[1..] == d;
    }
  }
}
