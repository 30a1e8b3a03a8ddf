/**
 * String helpers the replay log and the settings file need: decimal rendering
 * and parsing of numbers, splitting on a separator character, Rust's
 * `str::lines` and Python's `str.strip`.
 */
module Text {
  import opened Base

  predicate IsDigit(c: char)
  {
    '0' <= c <= '9'
  }

  predicate AllDigits(s: string)
  {
    forall i :: 0 <= i < |s| ==> IsDigit(s[i])
  }

  function DigitChar(d: nat): (c: char)
    requires d < 10
    ensures IsDigit(c) && c as int - '0' as int == d
  {
    ('0' as int + d) as char
  }

  function DigitsValue(s: string): nat
    requires AllDigits(s)
  {
    if |s| == 0 then 0
    else DigitsValue(s[..|s| - 1]) * 10 + (s[|s| - 1] as int - '0' as int)
  }

  /** Decimal rendering without leading zeros, as `to_string` / `str()` produce. */
  function NatToString(n: nat): (s: string)
    ensures |s| >= 1 && AllDigits(s)
    ensures |s| > 1 ==> s[0] != '0'
    decreases n
  {
    if n < 10 then [DigitChar(n)] else NatToString(n / 10) + [DigitChar(n % 10)]
  }

  /** A non-empty run of decimal digits and its value; anything else is rejected. */
  function ParseNat(s: string): (r: Option<nat>)
    ensures r.Some? <==> |s| >= 1 && AllDigits(s)
  {
    if |s| >= 1 && AllDigits(s) then Some(DigitsValue(s)) else None
  }

  lemma {:induction false} DigitsValueOfNatToString(n: nat)
    ensures DigitsValue(NatToString(n)) == n
    decreases n
  {
    var s := NatToString(n);
    if n >= 10 {
      DigitsValueOfNatToString(n / 10);
      assert s[..|s| - 1] == NatToString(n / 10);
    }
  }

  /** Rendering a number and parsing it back gives the number. */
  lemma ParseNatToString(n: nat)
    ensures ParseNat(NatToString(n)) == Some(n)
  {
    DigitsValueOfNatToString(n);
  }

  /** Python 2's `int()` on an already stripped string: an optional sign, any whitespace after the sign, then
      decimal digits. */
  function ParseInt(s: string): (r: Option<int>)
    ensures |s| >= 1 && AllDigits(s) ==> r == Some(DigitsValue(s) as int)
    ensures r.Some? ==> |s| >= 1
    ensures r.Some? && s[0] != '+' && s[0] != '-' ==> AllDigits(s)
  {
    if |s| >= 1 && (s[0] == '+' || s[0] == '-') then
      match ParseNat(StripLeft(s[1..]))
      case None => None
      case Some(n) => Some(if s[0] == '-' then -(n as int) else n as int)
    else
      match ParseNat(s)
      case None => None
      case Some(n) => Some(n)
  }

  /** Whitespace in front of a string that does not start with whitespace is all `lstrip` removes. */
  lemma {:induction false} StripLeftPrefix(ws: string, t: string)
    requires forall i :: 0 <= i < |ws| ==> IsPyWhitespace(ws[i])
    requires |t| > 0 && !IsPyWhitespace(t[0])
    ensures StripLeft(ws + t) == t
    decreases |ws|
  {
    if ws != [] {
      assert (ws + t)[1..] == ws[1..] + t;
      StripLeftPrefix(ws[1..], t);
    } else {
      assert ws + t == t;
    }
  }

  /** A sign, then whitespace up to index `k`, then digits from `k` on reads as the signed value of the digits. */
  lemma ParseIntSpaceAfterSign(s: string, k: nat)
    requires 1 <= k < |s| && (s[0] == '+' || s[0] == '-')
    requires forall i :: 1 <= i < k ==> IsPyWhitespace(s[i])
    requires AllDigits(s[k..])
    ensures ParseInt(s) == Some(if s[0] == '-' then -(DigitsValue(s[k..]) as int) else DigitsValue(s[k..]) as int)
  {
    var ws, t := s[1..k], s[k..];
    assert s[1..] == ws + t;
    assert IsDigit(t[0]);
    StripLeftPrefix(ws, t);
    assert ParseNat(StripLeft(s[1..])) == Some(DigitsValue(t));
    assert s[0] == '+' || s[0] == '-';
  }

  /** "+ 5" is 5 and "- 5" is -5. */
  lemma SignedWithSpace()
    ensures ParseInt("+ 5") == Some(5) && ParseInt("- 5") == Some(-5)
  {
    assert "+ 5"[2..] == "5" && "- 5"[2..] == "5" && DigitsValue("5") == 5;
    ParseIntSpaceAfterSign("+ 5", 2);
    ParseIntSpaceAfterSign("- 5", 2);
  }

  lemma ParseIntToString(n: nat)
    ensures ParseInt(NatToString(n)) == Some(n as int)
  {
    ParseNatToString(n);
  }

  /** Rust's `str::split(c)`: every separator ends one piece, so there is always one more piece than separators. */
  function Split(s: string, sep: char): (parts: seq<string>)
    ensures |parts| >= 1
    ensures forall i :: 0 <= i < |parts| ==> sep !in parts[i]
    decreases |s|
  {
    if |s| == 0 then [""]
    else
      var rest := Split(s[1..], sep);
      if s[0] == sep then [""] + rest
      else [[s[0]] + rest[0]] + rest[1..]
  }

  function Join(parts: seq<string>, sep: char): string
  {
    if |parts| == 0 then ""
    else if |parts| == 1 then parts[0]
    else parts[0] + [sep] + Join(parts[1..], sep)
  }

  /** Joining the pieces of a split with the separator gives the original string back. */
  lemma {:induction false} JoinSplit(s: string, sep: char)
    ensures Join(Split(s, sep), sep) == s
    decreases |s|
  {
    if |s| > 0 {
      var rest := Split(s[1..], sep);
      JoinSplit(s[1..], sep);
      if s[0] == sep {
        assert s == [sep] + s[1..];
      } else {
        assert Split(s, sep) == [[s[0]] + rest[0]] + rest[1..];
        if |rest| == 1 {
          assert s == [s[0]] + s[1..];
        } else {
          assert Join(rest, sep) == rest[0] + [sep] + Join(rest[1..], sep);
          assert s == [s[0]] + s[1..];
        }
      }
    }
  }

  /** Splitting `a + sep + b` where `a` holds no separator yields `a` first. */
  lemma {:induction false} SplitAfterPiece(a: string, sep: char, b: string)
    requires sep !in a
    ensures Split(a + [sep] + b, sep) == [a] + Split(b, sep)
    decreases |a|
  {
    if |a| == 0 {
      assert a + [sep] + b == [sep] + b;
      assert ([sep] + b)[1..] == b;
    } else {
      var s := a + [sep] + b;
      assert s[0] == a[0];
      assert s[1..] == a[1..] + [sep] + b;
      SplitAfterPiece(a[1..], sep, b);
      assert [a[0]] + a[1..] == a;
    }
  }

  /** The pieces of a text between line feeds, with no final empty line after a trailing line feed; a carriage return
      stays part of its line. This is Rust's `str::lines` in the generation of the game that reads replays with it
      (`split_terminator('\n')`), and the lines a Python file iterates over, less their line feeds. */
  function Lines(s: string): (ls: seq<string>)
    ensures forall i :: 0 <= i < |ls| ==> '\n' !in ls[i]
    ensures s == "" ==> ls == []
  {
    var pieces := Split(s, '\n');
    if |pieces[|pieces| - 1]| == 0 then pieces[..|pieces| - 1] else pieces
  }

  /** The text written by one `write_line` call per element. */
  function Unlines(ls: seq<string>): string
  {
    if |ls| == 0 then "" else ls[0] + "\n" + Unlines(ls[1..])
  }

  lemma {:induction false} SplitUnlines(ls: seq<string>)
    requires forall i :: 0 <= i < |ls| ==> '\n' !in ls[i]
    ensures Split(Unlines(ls), '\n') == ls + [""]
    decreases |ls|
  {
    if |ls| > 0 {
      SplitUnlines(ls[1..]);
      SplitAfterPiece(ls[0], '\n', Unlines(ls[1..]));
      assert ls[0] + "\n" + Unlines(ls[1..]) == ls[0] + ['\n'] + Unlines(ls[1..]);
      assert ls == [ls[0]] + ls[1..];
    }
  }

  /** Lines written one at a time, each followed by a line feed, are read back unchanged. */
  lemma LinesUnlines(ls: seq<string>)
    requires forall i :: 0 <= i < |ls| ==> '\n' !in ls[i]
    ensures Lines(Unlines(ls)) == ls
  {
    var pieces := Split(Unlines(ls), '\n');
    SplitUnlines(ls);
    assert pieces == ls + [""];
    assert pieces[..|pieces| - 1] == ls;
  }

  predicate IsPyWhitespace(c: char)
  {
    c == ' ' || c == '\t' || c == '\n' || c == '\r' || c as int == 11 || c as int == 12
  }

  function StripLeft(s: string): (r: string)
    ensures |r| <= |s| && r == s[|s| - |r|..]
    ensures |r| > 0 ==> !IsPyWhitespace(r[0])
  {
    if |s| > 0 && IsPyWhitespace(s[0]) then StripLeft(s[1..]) else s
  }

  function StripRight(s: string): (r: string)
    ensures |r| <= |s| && r == s[..|r|]
    ensures |r| > 0 ==> !IsPyWhitespace(r[|r| - 1])
  {
    if |s| > 0 && IsPyWhitespace(s[|s| - 1]) then StripRight(s[..|s| - 1]) else s
  }

  /** Python's `str.strip()` with no argument. */
  function Strip(s: string): (r: string)
    ensures |r| > 0 ==> !IsPyWhitespace(r[0]) && !IsPyWhitespace(r[|r| - 1])
  {
    var l := StripLeft(s);
    var r := StripRight(l);
    assert |r| > 0 ==> r[0] == l[0];
    r
  }

  /** A string with no whitespace at its ends is left alone by `strip()`. */
  lemma StripNoop(s: string)
    requires forall i :: 0 <= i < |s| ==> !IsPyWhitespace(s[i])
    ensures Strip(s) == s
  {
  }
}
