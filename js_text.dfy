/**
 * The JavaScript string and number primitives the server's code relies on:
 * `split` (on one or more separator characters, with and without a limit),
 * `trim`, `parseInt(_, 10)`, and the decimal rendering of a number.
 *
 * Numbers are integers or NaN; the floating-point precision limits of
 * JavaScript numbers (beyond 2^53) are not modelled.
 */
module JsText {
  import opened Wrappers

  /** A loop over `s` that has handled `s[..i]` has handled `s[..i + 1]` after one more element. */
  lemma TakeOneMore<T>(s: seq<T>, i: nat)
    requires i < |s|
    ensures s[..i + 1] == s[..i] + [s[i]]
  {
  }

  // ---------------------------------------------------------------------
  // split

  /**
   * `s.split(c)` for a one-character separator, or `s.split(/[ab]/)` for a
   * character class: the pieces between separator characters, in order.
   * JavaScript returns `[""]` for the empty string.
   */
  function Split(s: string, seps: set<char>): (r: seq<string>)
    ensures |r| >= 1
    decreases |s|
  {
    if s == [] then [""]
    else
      var rest := Split(s[1..], seps);
      if s[0] in seps then [""] + rest else [[s[0]] + rest[0]] + rest[1..]
  }

  /** `s.split(c, limit)`: the first `limit` pieces of the full split. */
  function SplitLimit(s: string, seps: set<char>, limit: nat): (r: seq<string>)
    ensures |r| == if |Split(s, seps)| < limit then |Split(s, seps)| else limit
  {
    var all := Split(s, seps);
    if |all| < limit then all else all[..limit]
  }

  /** `pieces.join(sep)`. */
  function Join(pieces: seq<string>, sep: string): string
  {
    if |pieces| == 0 then ""
    else if |pieces| == 1 then pieces[0]
    else pieces[0] + sep + Join(pieces[1..], sep)
  }

  /** Number of separator characters in `s`. */
  function CountSeps(s: string, seps: set<char>): nat
  {
    if s == [] then 0 else (if s[0] in seps then 1 else 0) + CountSeps(s[1..], seps)
  }

  predicate HasSep(s: string, seps: set<char>)
  {
    exists i :: 0 <= i < |s| && s[i] in seps
  }

  /** The split has one piece more than there are separators. */
  lemma {:induction false} SplitCount(s: string, seps: set<char>)
    ensures |Split(s, seps)| == CountSeps(s, seps) + 1
    decreases |s|
  {
    if s != [] {
      SplitCount(s[1..], seps);
    }
  }

  /** There is more than one piece exactly when a separator occurs. */
  lemma {:induction false} SplitSeveralIffSep(s: string, seps: set<char>)
    ensures |Split(s, seps)| > 1 <==> HasSep(s, seps)
    decreases |s|
  {
    if s != [] {
      SplitSeveralIffSep(s[1..], seps);
      if HasSep(s[1..], seps) {
        var i :| 0 <= i < |s[1..]| && s[1..][i] in seps;
        assert s[i + 1] in seps;
      }
      if HasSep(s, seps) && s[0] !in seps {
        var i :| 0 <= i < |s| && s[i] in seps;
        assert s[1..][i - 1] in seps;
      }
    }
  }

  /** No piece contains a separator. */
  lemma {:induction false} SplitPiecesHaveNoSep(s: string, seps: set<char>)
    ensures forall k :: 0 <= k < |Split(s, seps)| ==> !HasSep(Split(s, seps)[k], seps)
    decreases |s|
  {
    if s != [] {
      SplitPiecesHaveNoSep(s[1..], seps);
      var rest := Split(s[1..], seps);
      if s[0] !in seps {
        var head := [s[0]] + rest[0];
        assert !HasSep(rest[0], seps);
        assert forall i :: 0 < i < |head| ==> head[i] == rest[0][i - 1];
      }
    }
  }

  /** Joining the pieces with the separator gives back the string. */
  lemma {:induction false} JoinSplit(s: string, c: char)
    ensures Join(Split(s, {c}), [c]) == s
    decreases |s|
  {
    if s != [] {
      JoinSplit(s[1..], c);
      var rest := Split(s[1..], {c});
      if s[0] == c {
        assert Split(s, {c}) == [""] + rest;
        if |rest| == 1 {
          assert Join([""] + rest, [c]) == "" + [c] + rest[0];
        } else {
          assert ([""] + rest)[1..] == rest;
        }
      } else {
        var pieces := [[s[0]] + rest[0]] + rest[1..];
        assert Split(s, {c}) == pieces;
        if |rest| == 1 {
          assert Join(pieces, [c]) == [s[0]] + rest[0];
          assert Join(rest, [c]) == rest[0];
        } else {
          assert pieces[1..] == rest[1..];
          assert Join(rest, [c]) == rest[0] + [c] + Join(rest[1..], [c]);
        }
      }
    }
  }

  /** A split into one piece returns the whole string. */
  lemma {:induction false} SplitSingle(s: string, seps: set<char>)
    requires |Split(s, seps)| == 1
    ensures Split(s, seps)[0] == s
    decreases |s|
  {
    if s != [] {
      SplitSingle(s[1..], seps);
      assert s == [s[0]] + s[1..];
    }
  }

  /**
   * The last piece is the text after the last separator: a suffix of `s`,
   * preceded by a separator whenever it is not all of `s`, and shorter than
   * `s` whenever there is more than one piece.
   */
  lemma {:induction false} SplitLastIsSuffix(s: string, seps: set<char>)
    ensures var last := Split(s, seps)[|Split(s, seps)| - 1];
            |last| <= |s| && s[|s| - |last|..] == last &&
            (|last| < |s| ==> s[|s| - |last| - 1] in seps) &&
            (|Split(s, seps)| > 1 ==> |last| < |s|)
    decreases |s|
  {
    if s != [] {
      SplitLastIsSuffix(s[1..], seps);
      var rest := Split(s[1..], seps);
      var last := rest[|rest| - 1];
      var tail := s[1..];
      assert tail[|tail| - |last|..] == last;
      if s[0] !in seps && |rest| == 1 {
        SplitSingle(tail, seps);
        assert s == [s[0]] + tail;
      } else {
        var all := Split(s, seps);
        assert all[|all| - 1] == last;
        assert s[|s| - |last|..] == tail[|tail| - |last|..];
        if |last| < |tail| {
          assert s[|s| - |last| - 1] == tail[|tail| - |last| - 1];
        }
      }
    }
  }

  // ---------------------------------------------------------------------
  // lines

  /** Text made of lines, each followed by a newline (`os.EOL` on the server's platform). */
  function Lines(ls: seq<string>): (r: string)
    ensures |r| >= |ls|
  {
    if ls == [] then "" else ls[0] + "\n" + Lines(ls[1..])
  }

  /** None of the lines contains a newline. */
  predicate NoNewline(ls: seq<string>)
  {
    forall i :: 0 <= i < |ls| ==> !HasSep(ls[i], {'\n'})
  }

  lemma {:induction false} LinesAppend(a: seq<string>, b: seq<string>)
    ensures Lines(a + b) == Lines(a) + Lines(b)
  {
    if a == [] {
      assert a + b == b;
    } else {
      LinesAppend(a[1..], b);
      assert (a + b)[0] == a[0] && (a + b)[1..] == a[1..] + b;
      TextAssoc(a[0] + "\n", Lines(a[1..]), Lines(b));
    }
  }

  lemma TextAssoc(x: string, y: string, z: string)
    ensures x + (y + z) == (x + y) + z
  {
  }

  /** Splitting after a separator-free first piece. */
  lemma {:induction false} SplitAfterPiece(a: string, c: char, b: string, seps: set<char>)
    requires c in seps && !HasSep(a, seps)
    ensures Split(a + [c] + b, seps) == [a] + Split(b, seps)
    decreases |a|
  {
    if a == [] {
      assert (a + [c] + b)[1..] == b;
    } else {
      assert !HasSep(a[1..], seps) by {
        forall i | 0 <= i < |a[1..]|
          ensures a[1..][i] !in seps
        {
          assert a[1..][i] == a[i + 1];
        }
      }
      SplitAfterPiece(a[1..], c, b, seps);
      assert (a + [c] + b)[1..] == a[1..] + [c] + b;
      assert a[0] !in seps;
      assert [a[0]] + a[1..] == a;
    }
  }

  /** Text made of newline-free lines splits back into those lines. */
  lemma {:induction false} SplitLines(ls: seq<string>, rest: string)
    requires NoNewline(ls)
    ensures Split(Lines(ls) + rest, {'\n'}) == ls + Split(rest, {'\n'})
  {
    if ls == [] {
      assert Lines(ls) + rest == rest;
    } else {
      assert NoNewline(ls[1..]) by {
        forall i | 0 <= i < |ls[1..]|
          ensures !HasSep(ls[1..][i], {'\n'})
        {
          assert ls[1..][i] == ls[i + 1];
        }
      }
      SplitLines(ls[1..], rest);
      assert Lines(ls) + rest == ls[0] + ['\n'] + (Lines(ls[1..]) + rest);
      assert !HasSep(ls[0], {'\n'});
      SplitAfterPiece(ls[0], '\n', Lines(ls[1..]) + rest, {'\n'});
      assert ls + Split(rest, {'\n'}) == [ls[0]] + (ls[1..] + Split(rest, {'\n'}));
    }
  }

  /** `lines.join(EOL) + EOL` of a non-empty list is the list as lines. */
  lemma {:induction false} JoinThenNewline(ls: seq<string>)
    requires ls != []
    ensures Join(ls, "\n") + "\n" == Lines(ls)
  {
    if |ls| > 1 {
      JoinThenNewline(ls[1..]);
    }
  }

  // ---------------------------------------------------------------------
  // trim

  /** WhiteSpace and LineTerminator characters, which `trim` removes. */
  predicate IsJsSpace(c: char)
  {
    c == '\t' || c == '\n' || c == '\U{B}' || c == '\U{C}' || c == '\r' || c == ' ' ||
    c == '\U{A0}' || c == '\U{1680}' || ('\U{2000}' <= c <= '\U{200A}') ||
    c == '\U{2028}' || c == '\U{2029}' || c == '\U{202F}' || c == '\U{205F}' ||
    c == '\U{3000}' || c == '\U{FEFF}'
  }

  predicate AllSpace(s: string)
  {
    forall i :: 0 <= i < |s| ==> IsJsSpace(s[i])
  }

  function TrimStart(s: string): (r: string)
    decreases |s|
  {
    if s != [] && IsJsSpace(s[0]) then TrimStart(s[1..]) else s
  }

  function TrimEnd(s: string): (r: string)
    decreases |s|
  {
    if s != [] && IsJsSpace(s[|s| - 1]) then TrimEnd(s[..|s| - 1]) else s
  }

  /** `s.trim()`. */
  function Trim(s: string): string
  {
    TrimEnd(TrimStart(s))
  }

  /** A string whose ends are not white space is its own trim. */
  predicate Trimmed(x: string)
  {
    x == [] || (!IsJsSpace(x[0]) && !IsJsSpace(x[|x| - 1]))
  }

  lemma {:induction false} TrimStartOf(w: string, x: string)
    requires AllSpace(w) && (x == [] || !IsJsSpace(x[0]))
    ensures TrimStart(w + x) == x
    decreases |w|
  {
    if w != [] {
      assert (w + x)[1..] == w[1..] + x;
      TrimStartOf(w[1..], x);
    } else {
      assert w + x == x;
    }
  }

  lemma {:induction false} TrimEndOf(x: string, w: string)
    requires AllSpace(w) && (x == [] || !IsJsSpace(x[|x| - 1]))
    ensures TrimEnd(x + w) == x
    decreases |w|
  {
    if w != [] {
      assert (x + w)[..|x + w| - 1] == x + w[..|w| - 1];
      TrimEndOf(x, w[..|w| - 1]);
    } else {
      assert x + w == x;
    }
  }

  /** Trimming white space around a trimmed string gives that string. */
  lemma TrimSurrounded(w1: string, x: string, w2: string)
    requires AllSpace(w1) && AllSpace(w2) && Trimmed(x)
    ensures Trim(w1 + x + w2) == x
  {
    if x == [] {
      assert w1 + x + w2 == w1 + w2;
      assert AllSpace(w1 + w2);
      TrimStartOf(w1 + w2, []);
      assert w1 + w2 + [] == w1 + w2;
      TrimEndOf([], []);
    } else {
      assert w1 + x + w2 == w1 + (x + w2);
      TrimStartOf(w1, x + w2);
      TrimEndOf(x, w2);
    }
  }

  // ---------------------------------------------------------------------
  // decimal numbers

  predicate IsDigit(c: char)
  {
    '0' <= c <= '9'
  }

  predicate AllDigits(s: string)
  {
    forall i :: 0 <= i < |s| ==> IsDigit(s[i])
  }

  function DigitChar(d: nat): (c: char)
    requires d < 10
  {
    (48 + d) as char
  }

  function DigitValue(c: char): nat
    requires IsDigit(c)
  {
    c as int - 48
  }

  /** The decimal rendering of a non-negative integer (`n.toString()`). */
  function NatToDecimal(n: nat): (r: string)
    decreases n
  {
    if n < 10 then [DigitChar(n)] else NatToDecimal(n / 10) + [DigitChar(n % 10)]
  }

  /** The value of a string of decimal digits. */
  function DigitsValue(s: string): nat
    requires AllDigits(s)
  {
    if s == [] then 0 else DigitsValue(s[..|s| - 1]) * 10 + DigitValue(s[|s| - 1])
  }

  /** Digits with no superfluous leading zero: the way numbers are rendered. */
  predicate CanonicalDigits(d: string)
  {
    |d| >= 1 && AllDigits(d) && (d[0] == '0' ==> |d| == 1)
  }

  /** Rendering a number gives canonical digits whose value is the number. */
  lemma {:induction false} NatToDecimalIsCanonical(n: nat)
    ensures CanonicalDigits(NatToDecimal(n)) && DigitsValue(NatToDecimal(n)) == n
    ensures NatToDecimal(n)[0] == '0' <==> n == 0
    decreases n
  {
    var r := NatToDecimal(n);
    if n >= 10 {
      NatToDecimalIsCanonical(n / 10);
      var init := NatToDecimal(n / 10);
      assert r[..|r| - 1] == init;
      assert r[0] == init[0];
    }
  }

  /** Rendering is injective: different numbers give different text. */
  lemma NatToDecimalInjective(a: nat, b: nat)
    requires NatToDecimal(a) == NatToDecimal(b)
    ensures a == b
  {
    NatToDecimalIsCanonical(a);
    NatToDecimalIsCanonical(b);
  }

  lemma {:induction false} DigitsValuePositive(d: string)
    requires |d| >= 1 && AllDigits(d) && d[0] != '0'
    ensures DigitsValue(d) >= 1
    decreases |d|
  {
    if |d| > 1 {
      DigitsValuePositive(d[..|d| - 1]);
    }
  }

  /** Canonical digits are the rendering of their own value. */
  lemma {:induction false} CanonicalRoundTrip(d: string)
    requires CanonicalDigits(d)
    ensures NatToDecimal(DigitsValue(d)) == d
    decreases |d|
  {
    var v := DigitsValue(d);
    if |d| == 1 {
      assert d[..|d| - 1] == [];
      assert DigitsValue(d[..|d| - 1]) == 0;
      assert v == DigitsValue(d[..|d| - 1]) * 10 + DigitValue(d[0]);
      assert [DigitChar(v)] == d;
    } else {
      var init := d[..|d| - 1];
      DigitsValuePositive(init);
      CanonicalRoundTrip(init);
      assert v / 10 == DigitsValue(init);
      assert v % 10 == DigitValue(d[|d| - 1]);
      assert d == init + [d[|d| - 1]];
    }
  }

  /** A JavaScript number as far as this server uses it: an integer or NaN. */
  datatype JsNumber = Num(i: int) | NaN

  /** `String(i)` for an integer. */
  function IntToString(i: int): string
  {
    if i < 0 then "-" + NatToDecimal(-i) else NatToDecimal(i)
  }

  /** `n.toString()`. */
  function NumberToString(n: JsNumber): string
  {
    match n
    case Num(i) => IntToString(i)
    case NaN => "NaN"
  }

  /** `5900 + n` and the like: adding to NaN gives NaN. */
  function AddNumber(base: int, n: JsNumber): JsNumber
  {
    match n
    case Num(i) => Num(base + i)
    case NaN => NaN
  }

  /** The longest prefix made of decimal digits. */
  function DigitPrefix(s: string): (r: string)
    ensures AllDigits(r) && |r| <= |s| && r == s[..|r|]
    ensures |r| < |s| ==> !IsDigit(s[|r|])
    decreases |s|
  {
    if s != [] && IsDigit(s[0]) then [s[0]] + DigitPrefix(s[1..]) else []
  }

  /**
   * `parseInt(t, 10)` for an already trimmed `t`: an optional sign, then the
   * longest run of digits; NaN when there is no digit.
   */
  function ParseInt(t: string): JsNumber
  {
    var neg := |t| > 0 && t[0] == '-';
    var body := if |t| > 0 && (t[0] == '-' || t[0] == '+') then t[1..] else t;
    var d := DigitPrefix(body);
    if d == [] then NaN
    else if neg then Num(-(DigitsValue(d) as int))
    else Num(DigitsValue(d))
  }

  /** The text of an integer as JavaScript renders it. */
  predicate IsCanonicalInt(t: string)
  {
    CanonicalDigits(t) || (|t| >= 2 && t[0] == '-' && CanonicalDigits(t[1..]) && t[1] != '0')
  }

  lemma DigitPrefixOfDigits(d: string)
    requires AllDigits(d)
    ensures DigitPrefix(d) == d
  {
  }

  /** Rendering then parsing gives back the integer. */
  lemma ParseIntOfIntToString(i: int)
    ensures ParseInt(IntToString(i)) == Num(i)
    ensures IsCanonicalInt(IntToString(i))
  {
    var t := IntToString(i);
    if i < 0 {
      var m := NatToDecimal(-i);
      NatToDecimalIsCanonical(-i);
      assert t == "-" + m;
      assert t[0] == '-' && t[1..] == m && t[1] == m[0];
      DigitPrefixOfDigits(m);
      assert DigitPrefix(t[1..]) == m;
    } else {
      NatToDecimalIsCanonical(i);
      DigitPrefixOfDigits(NatToDecimal(i));
    }
  }

  /**
   * A text survives `parseInt` followed by `toString` exactly when it is the
   * canonical rendering of an integer, or the text "NaN".
   */
  lemma ParseRenderRoundTrip(t: string)
    ensures NumberToString(ParseInt(t)) == t <==> t == "NaN" || IsCanonicalInt(t)
    ensures IsCanonicalInt(t) ==> ParseInt(t).Num? && IntToString(ParseInt(t).i) == t
  {
    if IsCanonicalInt(t) {
      if CanonicalDigits(t) {
        DigitPrefixOfDigits(t);
        CanonicalRoundTrip(t);
      } else {
        DigitPrefixOfDigits(t[1..]);
        CanonicalRoundTrip(t[1..]);
        DigitsValuePositive(t[1..]);
        assert t == "-" + t[1..];
      }
    }
    if NumberToString(ParseInt(t)) == t && ParseInt(t).Num? {
      ParseIntOfIntToString(ParseInt(t).i);
    }
  }
}
