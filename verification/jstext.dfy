/**
 * The JavaScript string built-ins the backend and the criteria form use,
 * written out over `seq<char>`: `trim`, `toLowerCase`, `split` on a
 * one-character separator, `join`, `includes`, decimal rendering of an
 * integer (template literals, `String(n)`) and `parseInt(x, 10)`.
 */
module JsText {
  import opened Wrappers

  /** ECMAScript WhiteSpace and LineTerminator code points: what `trim` and `parseInt` skip. */
  predicate IsSpace(c: char)
  {
    || c == '\t' || c == '\n' || c == '\U{B}' || c == '\U{C}' || c == '\r'
    || c == ' ' || c == '\U{A0}' || c == '\U{1680}'
    || ('\U{2000}' <= c <= '\U{200A}')
    || c == '\U{2028}' || c == '\U{2029}' || c == '\U{202F}' || c == '\U{205F}'
    || c == '\U{3000}' || c == '\U{FEFF}'
  }

  predicate IsDigit(c: char)
  {
    '0' <= c <= '9'
  }

  /** Leading white space removed. */
  function TrimStart(s: string): (r: string)
    ensures |r| <= |s| && r == s[|s| - |r|..]
    ensures forall i :: 0 <= i < |s| - |r| ==> IsSpace(s[i])
    ensures |r| == 0 || !IsSpace(r[0])
  {
    if |s| > 0 && IsSpace(s[0]) then TrimStart(s[1..]) else s
  }

  /** Trailing white space removed. */
  function TrimEnd(s: string): (r: string)
    ensures |r| <= |s| && r == s[..|r|]
    ensures forall i :: |r| <= i < |s| ==> IsSpace(s[i])
    ensures |r| == 0 || !IsSpace(r[|r| - 1])
  {
    if |s| > 0 && IsSpace(s[|s| - 1]) then TrimEnd(s[..|s| - 1]) else s
  }

  /**
   * `s.trim()`: a slice of `s` with only white space cut off before and
   * after it, and none left at either of its ends.
   */
  function Trim(s: string): (r: string)
    ensures |r| <= |s|
    ensures forall c :: c in r ==> c in s
    ensures |r| == 0 || (!IsSpace(r[0]) && !IsSpace(r[|r| - 1]))
    ensures exists i :: SliceBetweenSpaces(s, r, i)
  {
    var t := TrimStart(s);
    var r := TrimEnd(t);
    SliceOfSlice(s, t, r);
    r
  }

  /** A prefix of a suffix, with only white space cut at each step. */
  lemma SliceOfSlice(s: string, t: string, r: string)
    requires |t| <= |s| && t == s[|s| - |t|..]
    requires forall k :: 0 <= k < |s| - |t| ==> IsSpace(s[k])
    requires |r| <= |t| && r == t[..|r|]
    requires forall k :: |r| <= k < |t| ==> IsSpace(t[k])
    ensures SliceBetweenSpaces(s, r, |s| - |t|)
  {
    var i := |s| - |t|;
    assert r == s[i..i + |r|];
    forall k | i + |r| <= k < |s| ensures IsSpace(s[k]) {
      assert s[k] == t[k - i];
    }
  }

  /** `r` is `s[i..i + |r|]`, and every character of `s` outside that slice is white space. */
  predicate SliceBetweenSpaces(s: string, r: string, i: int)
  {
    && 0 <= i <= |s| - |r| && r == s[i..i + |r|]
    && (forall k :: 0 <= k < i ==> IsSpace(s[k]))
    && (forall k :: i + |r| <= k < |s| ==> IsSpace(s[k]))
  }

  /** White space in front of a string does not survive `TrimStart`. */
  lemma {:induction false} TrimStartSkips(w: string, s: string)
    requires forall i :: 0 <= i < |w| ==> IsSpace(w[i])
    ensures TrimStart(w + s) == TrimStart(s)
  {
    if |w| > 0 {
      assert (w + s)[1..] == w[1..] + s;
      TrimStartSkips(w[1..], s);
    } else {
      assert w + s == s;
    }
  }

  /** `trim` leaves a string with no white space at either end unchanged. */
  lemma TrimOfTrimmed(s: string)
    requires |s| == 0 || (!IsSpace(s[0]) && !IsSpace(s[|s| - 1]))
    ensures Trim(s) == s
  {
  }

  /**
   * `toLowerCase` on one code point. The Basic Latin and Latin-1 capitals
   * (which include Å, Ä and Ö) are mapped exactly; every other code point is
   * left unchanged.
   */
  function ToLowerChar(c: char): char
  {
    if IsUpper(c) then (c as int + 32) as char
    else c
  }

  /** An upper-case letter that `ToLowerChar` maps. */
  predicate IsUpper(c: char)
  {
    'A' <= c <= 'Z' || ('\U{C0}' <= c <= '\U{DE}' && c != '\U{D7}')
  }

  /**
   * `s.toLowerCase()`: code point by code point, no capital left, every
   * other character kept.
   */
  function ToLower(s: string): (r: string)
    ensures |r| == |s|
    ensures forall i :: 0 <= i < |s| ==> r[i] == ToLowerChar(s[i])
    ensures forall i :: 0 <= i < |r| ==> !IsUpper(r[i])
    ensures forall i :: 0 <= i < |s| && !IsUpper(s[i]) ==> r[i] == s[i]
  {
    seq(|s|, i requires 0 <= i < |s| => ToLowerChar(s[i]))
  }

  /** Lower-casing twice is lower-casing once. */
  lemma ToLowerIdempotent(s: string)
    ensures ToLower(ToLower(s)) == ToLower(s)
  {
  }

  lemma ToLowerAppend(a: string, b: string)
    ensures ToLower(a + b) == ToLower(a) + ToLower(b)
  {
  }

  /** Lower-casing never turns a letter into white space or a separator, nor the reverse. */
  lemma ToLowerCharKeepsClass(c: char)
    ensures IsSpace(ToLowerChar(c)) <==> IsSpace(c)
    ensures ToLowerChar(c) == ',' <==> c == ','
    ensures ToLowerChar(c) == '-' <==> c == '-'
  {
  }

  /** `s.split(sep)` for a one-character separator: there is always at least one piece. */
  function Split(s: string, sep: char): (r: seq<string>)
    ensures |r| >= 1
    ensures forall i :: 0 <= i < |r| ==> sep !in r[i]
  {
    if |s| == 0 then [""]
    else
      var rest := Split(s[1..], sep);
      if s[0] == sep then [""] + rest
      else [[s[0]] + rest[0]] + rest[1..]
  }

  /** `parts.join(sep)`. */
  function Join(parts: seq<string>, sep: string): string
  {
    if |parts| == 0 then ""
    else if |parts| == 1 then parts[0]
    else parts[0] + sep + Join(parts[1..], sep)
  }

  /** Splitting and joining back with the same separator gives the original string. */
  lemma {:induction false} JoinSplit(s: string, sep: char)
    ensures Join(Split(s, sep), [sep]) == s
  {
    if |s| > 0 {
      JoinSplit(s[1..], sep);
      var rest := Split(s[1..], sep);
      if s[0] == sep {
        assert Join([""] + rest, [sep]) == "" + [sep] + Join(rest, [sep]);
        assert [s[0]] + s[1..] == s;
      } else if |rest| == 1 {
        assert [s[0]] + s[1..] == s;
      } else {
        assert Join(rest, [sep]) == rest[0] + [sep] + Join(rest[1..], [sep]);
        var parts := [[s[0]] + rest[0]] + rest[1..];
        assert parts[1..] == rest[1..];
        assert Join(parts, [sep]) == [s[0]] + rest[0] + [sep] + Join(rest[1..], [sep]);
        assert [s[0]] + s[1..] == s;
      }
    }
  }

  lemma {:induction false} SplitAround(a: string, sep: char, b: string)
    requires sep !in a
    ensures Split(a + [sep] + b, sep) == [a] + Split(b, sep)
  {
    if |a| == 0 {
      assert a + [sep] + b == [sep] + b;
      assert ([sep] + b)[1..] == b;
    } else {
      assert (a + [sep] + b)[1..] == a[1..] + [sep] + b;
      SplitAround(a[1..], sep, b);
      assert [a[0]] + a[1..] == a;
    }
  }

  lemma {:induction false} SplitWithoutSep(a: string, sep: char)
    requires sep !in a
    ensures Split(a, sep) == [a]
  {
    if |a| > 0 {
      SplitWithoutSep(a[1..], sep);
      assert [a[0]] + a[1..] == a;
    }
  }

  /** Joining pieces that do not contain the separator and splitting again recovers the pieces. */
  lemma {:induction false} SplitJoin(parts: seq<string>, sep: char)
    requires |parts| >= 1
    requires forall i :: 0 <= i < |parts| ==> sep !in parts[i]
    ensures Split(Join(parts, [sep]), sep) == parts
  {
    if |parts| == 1 {
      SplitWithoutSep(parts[0], sep);
    } else {
      SplitJoin(parts[1..], sep);
      SplitAround(parts[0], sep, Join(parts[1..], [sep]));
      assert [parts[0]] + parts[1..] == parts;
    }
  }

  /** Each piece lower-cased. */
  function LowerAll(parts: seq<string>): (r: seq<string>)
    ensures |r| == |parts|
    ensures forall i :: 0 <= i < |r| ==> r[i] == ToLower(parts[i])
  {
    seq(|parts|, i requires 0 <= i < |parts| => ToLower(parts[i]))
  }

  /** Lower-casing a joined string lower-cases each piece and the separator. */
  lemma {:induction false} ToLowerJoin(parts: seq<string>, sep: string)
    ensures ToLower(Join(parts, sep)) == Join(LowerAll(parts), ToLower(sep))
  {
    if |parts| >= 2 {
      ToLowerJoin(parts[1..], sep);
      assert LowerAll(parts)[1..] == LowerAll(parts[1..]);
      ToLowerAppend(parts[0] + sep, Join(parts[1..], sep));
      ToLowerAppend(parts[0], sep);
    }
  }

  /** Every piece but the first with one space in front: `", "` seen as `","` plus a space. */
  function Spaced(parts: seq<string>): (r: seq<string>)
    ensures |r| == |parts|
    ensures forall i :: 0 <= i < |r| ==> r[i] == if i == 0 then parts[0] else " " + parts[i]
  {
    seq(|parts|, i requires 0 <= i < |parts| => if i == 0 then parts[0] else " " + parts[i])
  }

  lemma JoinConsFirst(w: string, parts: seq<string>, sep: string)
    requires |parts| >= 1
    ensures w + Join(parts, sep) == Join([w + parts[0]] + parts[1..], sep)
  {
    var q := [w + parts[0]] + parts[1..];
    if |parts| >= 2 {
      assert q[1..] == parts[1..];
      assert w + (parts[0] + sep + Join(parts[1..], sep)) == (w + parts[0]) + sep + Join(parts[1..], sep);
    }
  }

  /** Joining with `", "` is joining with `","` after putting a space in front of the later pieces. */
  lemma {:induction false} JoinWithSpace(parts: seq<string>)
    ensures Join(parts, ", ") == Join(Spaced(parts), ",")
  {
    if |parts| == 1 {
      assert Spaced(parts) == parts;
    } else if |parts| >= 2 {
      var tail := parts[1..];
      JoinWithSpace(tail);
      var st := Spaced(tail);
      JoinConsFirst(" ", st, ",");
      assert Spaced(parts)[1..] == [" " + st[0]] + st[1..];
      assert parts[0] + ", " + Join(tail, ", ") == parts[0] + "," + (" " + Join(st, ","));
    }
  }

  /** Trimming one leading space off a piece with no white space at either end. */
  lemma TrimSpaced(x: string)
    requires |x| > 0 && !IsSpace(x[0]) && !IsSpace(x[|x| - 1])
    ensures Trim(" " + x) == x
  {
    assert IsSpace(" "[0]);
    TrimStartSkips(" ", x);
    assert TrimStart(" " + x) == TrimStart(x);
    TrimOfTrimmed(x);
  }

  /** `hay.includes(needle)`. */
  predicate Includes(hay: string, needle: string)
  {
    (|needle| <= |hay| && hay[..|needle|] == needle)
    || (|hay| > 0 && Includes(hay[1..], needle))
  }

  /** `needle` occurs in `hay` starting at index `i`. */
  predicate OccursAt(hay: string, needle: string, i: int)
  {
    0 <= i && i + |needle| <= |hay| && hay[i..i + |needle|] == needle
  }

  /** `includes` holds exactly when the needle occurs at some index of the haystack. */
  lemma {:induction false} IncludesIffOccurs(hay: string, needle: string)
    ensures Includes(hay, needle) <==> exists i :: OccursAt(hay, needle, i)
  {
    if Includes(hay, needle) {
      if |needle| <= |hay| && hay[..|needle|] == needle {
        assert OccursAt(hay, needle, 0);
      } else {
        IncludesIffOccurs(hay[1..], needle);
        var i :| OccursAt(hay[1..], needle, i);
        assert hay[1..][i..i + |needle|] == hay[i + 1..i + 1 + |needle|];
        assert OccursAt(hay, needle, i + 1);
      }
    }
    if exists i :: OccursAt(hay, needle, i) {
      var i :| OccursAt(hay, needle, i);
      if i == 0 {
        assert hay[..|needle|] == hay[0..|needle|];
      } else {
        assert hay[1..][i - 1..i - 1 + |needle|] == hay[i..i + |needle|];
        assert OccursAt(hay[1..], needle, i - 1);
        IncludesIffOccurs(hay[1..], needle);
      }
    }
  }

  /** The value of a decimal digit. */
  function DigitValue(c: char): int
  {
    c as int - '0' as int
  }

  function DigitChar(d: nat): (c: char)
    requires d < 10
    ensures IsDigit(c) && DigitValue(c) == d
  {
    ('0' as int + d) as char
  }

  /** The longest prefix of `s` made of decimal digits. */
  function LeadingDigits(s: string): (r: string)
    ensures |r| <= |s| && r == s[..|r|]
    ensures forall i :: 0 <= i < |r| ==> IsDigit(r[i])
    ensures |r| == |s| || !IsDigit(s[|r|])
  {
    if |s| > 0 && IsDigit(s[0]) then [s[0]] + LeadingDigits(s[1..]) else []
  }

  /** Value of a digit string, most significant digit first. */
  function DigitsValue(ds: string): int
  {
    if |ds| == 0 then 0 else DigitsValue(ds[..|ds| - 1]) * 10 + DigitValue(ds[|ds| - 1])
  }

  /** `String(n)` for a non-negative integer: its decimal digits. */
  function Decimal(n: nat): (r: string)
    ensures |r| >= 1
    ensures forall i :: 0 <= i < |r| ==> IsDigit(r[i])
  {
    if n < 10 then [DigitChar(n)] else Decimal(n / 10) + [DigitChar(n % 10)]
  }

  /**
   * `parseInt(s, 10)`: white space is skipped, an optional sign read, then
   * the longest run of decimal digits; `None` stands for `NaN` (no digit).
   */
  function ParseInt(s: string): Option<int>
  {
    ParseSigned(TrimStart(s))
  }

  function ParseSigned(t: string): Option<int>
  {
    if |t| > 0 && t[0] == '-' then
      match ParseDigits(t[1..])
      case Some(v) => Some(-v)
      case None => None
    else if |t| > 0 && t[0] == '+' then ParseDigits(t[1..])
    else ParseDigits(t)
  }

  function ParseDigits(u: string): Option<int>
  {
    var ds := LeadingDigits(u);
    if |ds| == 0 then None else Some(DigitsValue(ds))
  }

  lemma {:induction false} DecimalValue(n: nat)
    ensures DigitsValue(Decimal(n)) == n
  {
    if n >= 10 {
      DecimalValue(n / 10);
      var d := Decimal(n);
      assert d[..|d| - 1] == Decimal(n / 10);
    }
  }

  lemma {:induction false} LeadingDigitsOfDigits(a: string, rest: string)
    requires forall i :: 0 <= i < |a| ==> IsDigit(a[i])
    requires |rest| == 0 || !IsDigit(rest[0])
    ensures LeadingDigits(a + rest) == a
  {
    if |a| > 0 {
      assert (a + rest)[1..] == a[1..] + rest;
      LeadingDigitsOfDigits(a[1..], rest);
      assert [a[0]] + a[1..] == a;
    } else {
      assert a + rest == rest;
    }
  }

  /**
   * `parseInt` recovers a rendered integer, whatever white space precedes it
   * and whatever non-digit text follows it.
   */
  lemma ParseIntDecimal(ws: string, n: nat, rest: string)
    requires forall i :: 0 <= i < |ws| ==> IsSpace(ws[i])
    requires |rest| == 0 || !IsDigit(rest[0])
    ensures ParseInt(ws + Decimal(n) + rest) == Some(n)
  {
    var d := Decimal(n);
    var x := d + rest;
    assert ws + d + rest == ws + x;
    TrimStartSkips(ws, x);
    assert x[0] == d[0];
    ParseIntUnsigned(x);
    LeadingDigitsOfDigits(d, rest);
    DecimalValue(n);
  }

  /** `parseInt(String(n), 10) == n` for a non-negative integer. */
  lemma ParseIntOfDecimal(n: nat)
    ensures ParseInt(Decimal(n)) == Some(n)
  {
    var d := Decimal(n);
    ParseIntUnsigned(d);
    assert d + "" == d;
    LeadingDigitsOfDigits(d, "");
    DecimalValue(n);
  }

  /** A string that starts with a digit parses to the value of its leading digits. */
  lemma ParseIntUnsigned(x: string)
    requires |x| > 0 && IsDigit(x[0])
    ensures ParseInt(x) == Some(DigitsValue(LeadingDigits(x)))
  {
    NotSpaceIfDigit(x[0]);
    assert TrimStart(x) == x;
    assert ParseSigned(x) == ParseDigits(x);
  }

  lemma NotSpaceIfDigit(c: char)
    requires IsDigit(c)
    ensures !IsSpace(c) && c != '-' && c != '+'
  {
  }
}
