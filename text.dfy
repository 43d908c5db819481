/** The string operations the router's file formats are built from: decimal
    rendering and parsing of integers, Python's str.replace, str.split,
    str.strip("\n") and line iteration, and ASCII lower-casing. */
module Text {
  import opened Base

  predicate IsDigit(c: char) { '0' <= c <= '9' }

  predicate AllDigits(s: string) { forall i | 0 <= i < |s| :: IsDigit(s[i]) }

  function DigitChar(d: nat): (c: char)
    requires d < 10
    ensures IsDigit(c) && c as int - '0' as int == d
  {
    ('0' as int + d) as char
  }

  function DigitValue(c: char): nat
    requires IsDigit(c)
  {
    c as int - '0' as int
  }

  /** The value of a string of decimal digits, most significant first. */
  function DigitsValue(s: string): nat
    requires AllDigits(s)
  {
    if s == [] then 0 else DigitsValue(s[..|s| - 1]) * 10 + DigitValue(s[|s| - 1])
  }

  /** Python's str(n) for a non-negative integer. */
  function NatToString(n: nat): (s: string)
    ensures |s| >= 1
    ensures n < 10 <==> |s| == 1
  {
    if n < 10 then [DigitChar(n)] else NatToString(n / 10) + [DigitChar(n % 10)]
  }

  /** Python's str(i) and "{}".format(i) for an integer. */
  function IntToString(i: int): (s: string)
    ensures |s| >= 1
  {
    if i < 0 then "-" + NatToString(-i) else NatToString(i)
  }

  /** Python's "{0:02}".format(n) for a non-negative integer. */
  function Pad2(n: nat): (s: string)
    ensures |s| >= 2
  {
    if n < 10 then "0" + NatToString(n) else NatToString(n)
  }

  /** Python's s[-2:]. */
  function LastTwo(s: string): (r: string)
    ensures |r| == Min(|s|, 2)
  {
    if |s| >= 2 then s[|s| - 2..] else s
  }

  /** One piece of a str.format template once its arguments are in place:
      literal text, a "{:02}" field holding a number, a "{}" field holding a
      string or a "{}" field holding an integer. */
  datatype Piece = Lit(text: string) | Pad(n: nat) | Str(s: string) | Num(i: int)

  function RenderPiece(p: Piece): string
  {
    match p
    case Lit(t) => t
    case Pad(n) => Pad2(n)
    case Str(t) => t
    case Num(i) => IntToString(i)
  }

  /** str.format: the pieces rendered one after the other. */
  function Render(ps: seq<Piece>): string
  {
    if ps == [] then "" else Render(ps[..|ps| - 1]) + RenderPiece(ps[|ps| - 1])
  }

  /** Rendering one more piece appends its text. */
  lemma {:induction false} RenderSnoc(ps: seq<Piece>, p: Piece)
    ensures Render(ps + [p]) == Render(ps) + RenderPiece(p)
  {
    assert (ps + [p])[..|ps|] == ps;
  }

  /** The value of a string of decimal digits, None when some character is
      not a digit; the empty string has the value 0. */
  function DigitsOf(s: string): Option<nat>
  {
    if s == [] then Some(0)
    else
      match DigitsOf(s[..|s| - 1])
      case None => None
      case Some(v) => if IsDigit(s[|s| - 1]) then Some(v * 10 + DigitValue(s[|s| - 1])) else None
  }

  /** Python's int(s), restricted to an optional sign followed by decimal digits. */
  function ParseInt(s: string): Option<int>
  {
    if |s| >= 2 && (s[0] == '-' || s[0] == '+') then
      match DigitsOf(s[1..])
      case None => None
      case Some(v) => Some(if s[0] == '-' then -(v as int) else v)
    else if |s| >= 1 then
      match DigitsOf(s)
      case None => None
      case Some(v) => Some(v)
    else
      None
  }

  lemma {:induction false} DigitsOfValue(s: string)
    ensures DigitsOf(s).Some? <==> AllDigits(s)
    ensures AllDigits(s) ==> DigitsOf(s) == Some(DigitsValue(s))
    decreases |s|
  {
    if s != [] {
      var t := s[..|s| - 1];
      DigitsOfValue(t);
      assert forall i | 0 <= i < |t| :: t[i] == s[i];
    }
  }

  /** The restricted int() parse accepts exactly a non-empty digit string, possibly after one sign. */
  lemma ParseIntAccepts(s: string)
    ensures ParseInt(s).Some? <==>
      (|s| >= 2 && (s[0] == '-' || s[0] == '+') && AllDigits(s[1..]))
      || (|s| >= 1 && s[0] != '-' && s[0] != '+' && AllDigits(s))
  {
    if |s| >= 1 {
      DigitsOfValue(s);
      DigitsOfValue(s[1..]);
      if s[0] == '-' || s[0] == '+' {
        assert !IsDigit(s[0]);
      }
    }
  }

  /** str(n) is a string of decimal digits whose value is n. */
  lemma {:induction false} NatToStringValue(n: nat)
    ensures AllDigits(NatToString(n)) && DigitsValue(NatToString(n)) == n
    decreases n
  {
    var s := NatToString(n);
    if n >= 10 {
      var t := NatToString(n / 10);
      NatToStringValue(n / 10);
      assert s == t + [DigitChar(n % 10)];
      forall i | 0 <= i < |s| ensures IsDigit(s[i]) {
        if i < |t| {
          assert s[i] == t[i];
        }
      }
      assert s[..|s| - 1] == t;
    }
  }

  /** Rendering then parsing an integer gives it back. */
  lemma IntToStringRoundTrip(i: int)
    ensures ParseInt(IntToString(i)) == Some(i)
  {
    if i < 0 {
      var t := NatToString(-i);
      NatToStringValue(-i);
      DigitsOfValue(t);
      assert IntToString(i) == "-" + t;
      assert ("-" + t)[1..] == t;
    } else {
      NatToStringValue(i);
      ParseDigits(NatToString(i));
    }
  }

  lemma {:induction false} DigitsValueLeadingZero(s: string)
    requires AllDigits(s)
    ensures AllDigits("0" + s) && DigitsValue("0" + s) == DigitsValue(s)
    decreases |s|
  {
    if s != [] {
      var t := "0" + s;
      assert t[..|t| - 1] == "0" + s[..|s| - 1];
      DigitsValueLeadingZero(s[..|s| - 1]);
    }
  }

  /** The zero-padded form is made of decimal digits. */
  lemma {:induction false} Pad2Digits(n: nat)
    ensures AllDigits(Pad2(n))
  {
    NatToStringValue(n);
    if n < 10 {
      DigitsValueLeadingZero(NatToString(n));
    }
  }

  /** A zero-padded two-digit field parses back to its number. */
  lemma Pad2RoundTrip(n: nat)
    ensures ParseInt(Pad2(n)) == Some(n)
  {
    NatToStringValue(n);
    if n < 10 {
      DigitsValueLeadingZero(NatToString(n));
    }
    ParseDigits(Pad2(n));
  }

  lemma ParseDigits(s: string)
    requires |s| >= 1 && AllDigits(s)
    ensures ParseInt(s) == Some(DigitsValue(s))
  {
    assert IsDigit(s[0]);
    DigitsOfValue(s);
  }

  lemma LastDigit(n: nat)
    ensures NatToString(n)[|NatToString(n)| - 1] == DigitChar(n % 10)
  {
  }

  lemma TwoDigitsValue(a: nat, b: nat)
    requires a < 10 && b < 10
    ensures AllDigits([DigitChar(a), DigitChar(b)])
    ensures DigitsValue([DigitChar(a), DigitChar(b)]) == a * 10 + b
  {
    var r := [DigitChar(a), DigitChar(b)];
    assert r[..1] == [DigitChar(a)];
    assert [DigitChar(a)][..0] == [];
    assert DigitsValue([DigitChar(a)]) == a;
  }

  lemma LastTwoDecimal(y: nat)
    ensures y % 100 == (y / 10) % 10 * 10 + y % 10
  {
    var q := y / 10;
    var d := y % 10;
    assert y == 10 * q + d;
    assert q == 10 * (q / 10) + q % 10;
    assert y == 100 * (q / 10) + (10 * (q % 10) + d);
  }

  /** The last two decimal digits of a year parse to the year modulo 100. */
  lemma LastTwoOfLong(y: nat)
    requires y >= 10
    ensures LastTwo(NatToString(y)) == [DigitChar(y / 10 % 10), DigitChar(y % 10)]
  {
    var q := y / 10;
    var s, t, d := NatToString(y), NatToString(q), DigitChar(y % 10);
    assert s == t + [d];
    assert s[|s| - 2] == t[|t| - 1] && s[|s| - 1] == d;
    LastDigit(q);
    assert LastTwo(s) == [s[|s| - 2], s[|s| - 1]];
  }

  lemma LastTwoDigitsValue(y: nat)
    ensures ParseInt(LastTwo(NatToString(y))) == Some(y % 100)
  {
    var r := LastTwo(NatToString(y));
    if y < 10 {
      NatToStringValue(y);
      assert r == NatToString(y);
      ParseDigits(r);
      assert y % 100 == y;
    } else {
      var a, b := y / 10 % 10, y % 10;
      LastTwoOfLong(y);
      assert r == [DigitChar(a), DigitChar(b)];
      TwoDigitsValue(a, b);
      LastTwoDecimal(y);
      assert y % 100 == a * 10 + b;
      ParseDigits(r);
    }
  }

  /** Python's s.replace(c, r) for a one-character pattern. */
  function Replace(s: string, c: char, r: string): string
  {
    if s == [] then [] else (if s[0] == c then r else [s[0]]) + Replace(s[1..], c, r)
  }

  lemma {:induction false} ReplaceAppend(a: string, b: string, c: char, r: string)
    ensures Replace(a + b, c, r) == Replace(a, c, r) + Replace(b, c, r)
    decreases |a|
  {
    if a == [] {
      assert a + b == b;
    } else {
      assert (a + b)[0] == a[0];
      assert (a + b)[1..] == a[1..] + b;
      ReplaceAppend(a[1..], b, c, r);
    }
  }

  lemma {:induction false} ReplaceAbsent(s: string, c: char, r: string)
    requires forall i | 0 <= i < |s| :: s[i] != c
    ensures Replace(s, c, r) == s
    decreases |s|
  {
    if s != [] {
      ReplaceAbsent(s[1..], c, r);
    }
  }

  lemma {:induction false} ReplaceRemoves(s: string, c: char)
    ensures forall i | 0 <= i < |Replace(s, c, "")| :: Replace(s, c, "")[i] != c
    decreases |s|
  {
    if s != [] {
      ReplaceRemoves(s[1..], c);
    }
  }

  /** Python's s.split(sep) for a one-character separator, built from the
      last character back: a separator starts a new (empty) first piece, any
      other character is put in front of the first piece. */
  function Split(s: string, sep: char): (parts: seq<string>)
    ensures |parts| >= 1
  {
    if s == [] then [""]
    else
      var rest := Split(s[1..], sep);
      if s[0] == sep then [""] + rest else [[s[0]] + rest[0]] + rest[1..]
  }

  /** Python's sep.join(parts) for a non-empty list. */
  function Join(parts: seq<string>, sep: char): string
    requires |parts| >= 1
  {
    if |parts| == 1 then parts[0] else parts[0] + [sep] + Join(parts[1..], sep)
  }

  predicate Excludes(s: string, c: char) { forall i | 0 <= i < |s| :: s[i] != c }

  /** A character missing from two strings is missing from their concatenation. */
  lemma {:induction false} ExcludesAppend(a: string, b: string, c: char)
    requires Excludes(a, c) && Excludes(b, c)
    ensures Excludes(a + b, c)
  {
    forall i | 0 <= i < |a + b| ensures (a + b)[i] != c {
      if i < |a| {
        assert (a + b)[i] == a[i];
      } else {
        assert (a + b)[i] == b[i - |a|];
      }
    }
  }

  lemma {:induction false} SplitPiece(p: string, t: string, sep: char, last: bool)
    requires Excludes(p, sep)
    ensures last ==> Split(p, sep) == [p]
    ensures !last ==> Split(p + [sep] + t, sep) == [p] + Split(t, sep)
    decreases |p|
  {
    if p == [] {
      assert p + [sep] + t == [sep] + t;
      assert ([sep] + t)[1..] == t;
    } else {
      SplitPiece(p[1..], t, sep, last);
      assert p == [p[0]] + p[1..];
      if last {
        assert Split(p, sep) == [[p[0]] + p[1..]] + [];
      } else {
        var s := p + [sep] + t;
        assert s[0] == p[0] && s[1..] == p[1..] + [sep] + t;
      }
    }
  }

  /** Splitting what was joined gives back the pieces, when no piece holds the separator. */
  lemma {:induction false} SplitJoin(parts: seq<string>, sep: char)
    requires |parts| >= 1
    requires forall k | 0 <= k < |parts| :: Excludes(parts[k], sep)
    ensures Split(Join(parts, sep), sep) == parts
    decreases |parts|
  {
    if |parts| == 1 {
      SplitPiece(parts[0], [], sep, true);
    } else {
      SplitJoin(parts[1..], sep);
      SplitPiece(parts[0], Join(parts[1..], sep), sep, false);
    }
  }

  /** Length of the first line of s, its '\n' included. */
  function FirstLineLength(s: string): (k: nat)
    requires s != []
    ensures 1 <= k <= |s|
    ensures k < |s| ==> s[k - 1] == '\n'
  {
    if s[0] == '\n' || |s| == 1 then 1 else 1 + FirstLineLength(s[1..])
  }

  /** No '\n' comes before the end of the first line. */
  lemma {:induction false} FirstLineBody(s: string)
    requires s != []
    ensures forall i | 0 <= i < FirstLineLength(s) - 1 :: s[i] != '\n'
    decreases |s|
  {
    if !(s[0] == '\n' || |s| == 1) {
      FirstLineBody(s[1..]);
      forall i | 0 <= i < FirstLineLength(s) - 1 ensures s[i] != '\n' {
        if i > 0 {
          assert s[i] == s[1..][i - 1];
        }
      }
    }
  }

  /** Python's ''.join(lines). */
  function Concat(lines: seq<string>): string
  {
    if lines == [] then "" else Concat(lines[..|lines| - 1]) + lines[|lines| - 1]
  }

  /** The lines Python yields when iterating over a text file with contents s:
      each keeps its terminating '\n'; the last may lack one. */
  function Lines(s: string): seq<string>
    decreases |s|
  {
    if s == [] then [] else
      var k := FirstLineLength(s);
      [s[..k]] + Lines(s[k..])
  }

  predicate EndsLine(s: string) { s == [] || s[|s| - 1] == '\n' }

  /** A line: a '\n' at its end and nowhere else. */
  predicate IsLine(s: string)
  {
    |s| >= 1 && s[|s| - 1] == '\n' && forall i | 0 <= i < |s| - 1 :: s[i] != '\n'
  }

  /** Text without a newline, then a newline, is a line. */
  lemma {:induction false} NewlineEnds(s: string)
    requires Excludes(s, '\n')
    ensures IsLine(s + "\n")
  {
    var t := s + "\n";
    forall i | 0 <= i < |t| - 1 ensures t[i] != '\n' {
      assert t[i] == s[i];
    }
  }

  lemma {:induction false} FirstLineLengthAppend(s: string, t: string)
    requires s != [] && EndsLine(s)
    ensures FirstLineLength(s + t) == FirstLineLength(s)
    decreases |s|
  {
    if s[0] != '\n' && |s| > 1 {
      assert (s + t)[1..] == s[1..] + t;
      FirstLineLengthAppend(s[1..], t);
    }
  }

  /** Appending to a file whose text ends a line adds the new text's lines after the old ones. */
  lemma {:induction false} LinesAppend(s: string, t: string)
    requires EndsLine(s)
    ensures Lines(s + t) == Lines(s) + Lines(t)
    decreases |s|
  {
    if s == [] {
      assert s + t == t;
    } else {
      var k := FirstLineLength(s);
      FirstLineLengthAppend(s, t);
      assert (s + t)[..k] == s[..k];
      assert (s + t)[k..] == s[k..] + t;
      LinesAppend(s[k..], t);
    }
  }

  lemma LinesOfLine(s: string)
    requires IsLine(s)
    ensures Lines(s) == [s]
  {
    var k := FirstLineLength(s);
    if k < |s| {
      assert false;
    }
    assert s[..k] == s;
    assert s[k..] == [];
  }

  /** Every line Python yields is non-empty and holds '\n' at most as its last character. */
  lemma {:induction false} LinesShape(s: string)
    ensures forall j | 0 <= j < |Lines(s)| ::
      (|Lines(s)[j]| >= 1 && forall i | 0 <= i < |Lines(s)[j]| - 1 :: Lines(s)[j][i] != '\n')
    decreases |s|
  {
    if s != [] {
      var k := FirstLineLength(s);
      FirstLineBody(s);
      LinesShape(s[k..]);
    }
  }

  function TrimStart(s: string, c: char): (r: string)
    ensures |r| <= |s| && r == s[|s| - |r|..]
    decreases |s|
  {
    if s != [] && s[0] == c then TrimStart(s[1..], c) else s
  }

  function TrimEnd(s: string, c: char): (r: string)
    ensures |r| <= |s| && r == s[..|r|]
    decreases |s|
  {
    if s != [] && s[|s| - 1] == c then TrimEnd(s[..|s| - 1], c) else s
  }

  /** Python's s.strip("\n"). */
  function StripNewlines(s: string): string
  {
    TrimEnd(TrimStart(s, '\n'), '\n')
  }

  lemma {:induction false} StripLine(s: string)
    requires Excludes(s, '\n')
    ensures StripNewlines(s + "\n") == s
  {
    var t := s + "\n";
    if s == [] {
      assert t == "\n" && t[1..] == [];
      assert TrimStart(t, '\n') == TrimStart([], '\n') == [];
      assert TrimEnd([], '\n') == [];
    } else {
      assert t[0] == s[0] != '\n';
      assert TrimStart(t, '\n') == t;
      assert t[|t| - 1] == '\n' && t[..|t| - 1] == s;
      assert TrimEnd(t, '\n') == TrimEnd(s, '\n');
      assert s[|s| - 1] != '\n';
      assert TrimEnd(s, '\n') == s;
    }
  }

  /** Python's c.lower() restricted to ASCII letters. */
  function LowerAscii(c: char): (l: char)
    ensures 'A' <= c <= 'Z' ==> l as int == c as int + 32
    ensures !('A' <= c <= 'Z') ==> l == c
  {
    if 'A' <= c <= 'Z' then (c as int + 32) as char else c
  }
}
