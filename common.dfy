/**
 * Shared vocabulary for the whole model: Java's nullable values, its 32-bit
 * `int`, and the handful of `java.lang.String` / `Integer` operations the
 * services rely on (trim, isBlank, split, parseInt, "%,d" formatting).
 */
module Common {

  /** A nullable Java reference, or an `Optional`. */
  datatype Option<T> = None | Some(value: T)
  {
    function GetOr(default: T): (r: T)
      ensures Some? ==> r == value
      ensures None? ==> r == default
    {
      if Some? then value else default
    }
  }

  /** An operation that either returns a value or throws an exception. */
  datatype Result<T, E> = Ok(value: T) | Err(error: E)

  // ---------------------------------------------------------------------------
  // Java 32-bit integers
  // ---------------------------------------------------------------------------

  const INT_MIN: int := -0x8000_0000
  const INT_MAX: int := 0x7fff_ffff
  const TWO_32: int := 0x1_0000_0000

  predicate IsInt32(x: int) { INT_MIN <= x <= INT_MAX }

  /** A Java `int` or non-null `Integer`. */
  type Int32 = x: int | IsInt32(x)

  /** Two's-complement wrap-around of Java `int` arithmetic. */
  function Wrap32(x: int): (r: int)
    ensures IsInt32(r)
    ensures IsInt32(x) ==> r == x
  {
    var m := x % TWO_32;
    if m > INT_MAX then m - TWO_32 else m
  }

  /** The narrowing `(int)` cast of a `double` that holds an integral value: it saturates. */
  function SaturateToInt32(x: int): (r: int)
    ensures IsInt32(r)
    ensures IsInt32(x) ==> r == x
    ensures x > INT_MAX ==> r == INT_MAX
    ensures x < INT_MIN ==> r == INT_MIN
  {
    if x > INT_MAX then INT_MAX else if x < INT_MIN then INT_MIN else x
  }

  /** Java's `/` on integers truncates toward zero (Dafny's is Euclidean). */
  function JavaDiv(a: int, b: int): (q: int)
    requires b != 0
    ensures a >= 0 && b > 0 ==> q == a / b
    ensures a < 0 && b > 0 ==> q == -((-a) / b)
    ensures a >= 0 && b > 0 ==> q * b <= a
  {
    if a >= 0 && b > 0 then a / b
    else if a < 0 && b < 0 then (-a) / (-b)
    else if a < 0 then -((-a) / b)
    else -(a / (-b))
  }

  function Abs(x: int): (r: nat)
    ensures r == x || r == -x
  {
    if x < 0 then -x else x
  }

  function Max(a: int, b: int): (r: int)
    ensures r >= a && r >= b && (r == a || r == b)
  {
    if a >= b then a else b
  }

  function Min(a: int, b: int): (r: int)
    ensures r <= a && r <= b && (r == a || r == b)
  {
    if a <= b then a else b
  }

  // ---------------------------------------------------------------------------
  // Characters and strings
  // ---------------------------------------------------------------------------

  /** `Character.isWhitespace`: Unicode space separators other than no-break spaces, and the ASCII controls it lists. */
  predicate IsWhitespace(c: char)
  {
    c == ' ' || c == '\t' || c == '\n' || c == '\U{B}' || c == '\U{C}' || c == '\r'
    || ('\U{1C}' <= c <= '\U{1F}')
    || c == '\U{1680}' || ('\U{2000}' <= c <= '\U{2006}') || ('\U{2008}' <= c <= '\U{200A}')
    || c == '\U{2028}' || c == '\U{2029}' || c == '\U{205F}' || c == '\U{3000}'
  }

  /** `String.isBlank`. */
  predicate IsBlank(s: string)
  {
    forall i :: 0 <= i < |s| ==> IsWhitespace(s[i])
  }

  /** `String.trim` removes every leading and trailing character up to U+0020. */
  function Trim(s: string): (r: string)
    ensures exists i, j ::
              && 0 <= i <= j <= |s| && r == s[i..j]
              && (forall k :: 0 <= k < i ==> s[k] <= ' ')
              && (forall k :: j <= k < |s| ==> s[k] <= ' ')
    ensures r != [] ==> r[0] > ' ' && r[|r| - 1] > ' '
  {
    var i := TrimStartIndex(s);
    var j := TrimEndIndex(s, i);
    s[i..j]
  }

  /** The number of leading characters `trim` drops. */
  function TrimStartIndex(s: string): (i: nat)
    ensures i <= |s|
    ensures forall k :: 0 <= k < i ==> s[k] <= ' '
    ensures i < |s| ==> s[i] > ' '
  {
    if s != [] && s[0] <= ' ' then 1 + TrimStartIndex(s[1..]) else 0
  }

  /** Where the text `trim` keeps ends, given where it starts. */
  function TrimEndIndex(s: string, lo: nat): (j: nat)
    requires lo <= |s|
    requires lo < |s| ==> s[lo] > ' '
    ensures lo <= j <= |s|
    ensures forall k :: j <= k < |s| ==> s[k] <= ' '
    ensures j > lo ==> s[j - 1] > ' '
    decreases |s|
  {
    if |s| > lo && s[|s| - 1] <= ' ' then TrimEndIndex(s[..|s| - 1], lo) else |s|
  }

  /** The upper-case form of an ASCII letter; other characters are left alone. */
  function UpperAscii(c: char): (r: char)
    ensures 'a' <= c <= 'z' ==> r as int == c as int - 32
    ensures !('a' <= c <= 'z') ==> r == c
  {
    if 'a' <= c <= 'z' then (c as int - 32) as char else c
  }

  function LowerAscii(c: char): (r: char)
    ensures 'A' <= c <= 'Z' ==> r as int == c as int + 32
    ensures !('A' <= c <= 'Z') ==> r == c
  {
    if 'A' <= c <= 'Z' then (c as int + 32) as char else c
  }

  /** `String.toUpperCase(Locale.ROOT)` restricted to ASCII letters. */
  function Upper(s: string): (r: string)
    ensures |r| == |s|
    ensures forall i :: 0 <= i < |s| ==> r[i] == UpperAscii(s[i])
  {
    if s == [] then [] else [UpperAscii(s[0])] + Upper(s[1..])
  }

  function Lower(s: string): (r: string)
    ensures |r| == |s|
    ensures forall i :: 0 <= i < |s| ==> r[i] == LowerAscii(s[i])
  {
    if s == [] then [] else [LowerAscii(s[0])] + Lower(s[1..])
  }

  /** `String.equalsIgnoreCase` with ASCII case folding. */
  predicate EqualsIgnoreCase(a: string, b: string)
  {
    Upper(a) == Upper(b)
  }

  /** `String.contains`. */
  predicate ContainsSubstring(s: string, part: string)
  {
    exists i :: 0 <= i <= |s| && part <= s[i..]
  }

  // ---------------------------------------------------------------------------
  // String.compareTo
  // ---------------------------------------------------------------------------

  /** `a.compareTo(b) <= 0`: lexicographic by character, a proper prefix first. */
  predicate StringLe(a: string, b: string)
  {
    if a == [] then true
    else if b == [] then false
    else if a[0] != b[0] then a[0] < b[0]
    else StringLe(a[1..], b[1..])
  }

  lemma {:induction false} StringLeTotal(a: string, b: string)
    ensures StringLe(a, b) || StringLe(b, a)
  {
    if a != [] && b != [] && a[0] == b[0] {
      StringLeTotal(a[1..], b[1..]);
    }
  }

  lemma {:induction false} StringLeTransitive(a: string, b: string, c: string)
    requires StringLe(a, b) && StringLe(b, c)
    ensures StringLe(a, c)
  {
    if a != [] && b != [] && c != [] && a[0] == b[0] && b[0] == c[0] {
      StringLeTransitive(a[1..], b[1..], c[1..]);
    }
  }

  // ---------------------------------------------------------------------------
  // Insertion order: the iteration order of a LinkedHashSet<String> / LinkedHashMap<String, _>
  // ---------------------------------------------------------------------------

  /** The distinct elements in order of first appearance. */
  function FirstSeen(keys: seq<string>): seq<string>
  {
    if keys == [] then []
    else
      var init := FirstSeen(keys[..|keys| - 1]);
      var last := keys[|keys| - 1];
      if last in keys[..|keys| - 1] then init else init + [last]
  }

  lemma FirstSeenStep(keys: seq<string>)
    requires keys != []
    ensures FirstSeen(keys) == if keys[|keys| - 1] in keys[..|keys| - 1] then FirstSeen(keys[..|keys| - 1])
      else FirstSeen(keys[..|keys| - 1]) + [keys[|keys| - 1]]
  {
  }

  /** The first-seen list holds every key and nothing else. */
  lemma {:induction false} FirstSeenMembers(keys: seq<string>)
    ensures forall x :: x in FirstSeen(keys) <==> x in keys
  {
    if keys != [] {
      var init := keys[..|keys| - 1];
      FirstSeenMembers(init);
      assert keys == init + [keys[|keys| - 1]];
    }
  }

  /** Where `x` first occurs. */
  function FirstPos(xs: seq<string>, x: string): (i: nat)
    requires x in xs
    ensures i < |xs| && xs[i] == x && x !in xs[..i]
  {
    if xs[0] == x then 0 else 1 + FirstPos(xs[1..], x)
  }

  /** Appending an element does not move the first occurrence of one already present. */
  lemma FirstPosAppend(xs: seq<string>, y: string, x: string)
    requires x in xs
    ensures FirstPos(xs + [y], x) == FirstPos(xs, x)
  {
    var j := FirstPos(xs, x);
    assert (xs + [y])[j] == x && (xs + [y])[..j] == xs[..j];
  }

  /** The first-seen list is duplicate-free and ordered by first occurrence. */
  lemma {:induction false} FirstSeenOrdered(keys: seq<string>)
    ensures forall i, j :: 0 <= i < j < |FirstSeen(keys)| ==>
      FirstSeen(keys)[i] in keys && FirstSeen(keys)[j] in keys && FirstPos(keys, FirstSeen(keys)[i]) < FirstPos(keys, FirstSeen(keys)[j])
  {
    if keys != [] {
      var init, last := keys[..|keys| - 1], keys[|keys| - 1];
      FirstSeenOrdered(init);
      FirstSeenMembers(init);
      assert keys == init + [last];
      var before, fs := FirstSeen(init), FirstSeen(keys);
      assert fs == if last in init then before else before + [last];
      forall i, j | 0 <= i < j < |fs|
        ensures fs[i] in keys && fs[j] in keys && FirstPos(keys, fs[i]) < FirstPos(keys, fs[j])
      {
        assert fs[i] == before[i] && before[i] in before;
        FirstPosAppend(init, last, before[i]);
        if j < |before| {
          assert fs[j] == before[j] && before[j] in before;
          FirstPosAppend(init, last, before[j]);
          assert FirstPos(init, before[i]) < FirstPos(init, before[j]);
        } else {
          assert last !in init && fs[j] == last;
          assert FirstPos(init, before[i]) < |init|;
        }
      }
    } else {
      assert FirstSeen(keys) == [];
    }
  }

  /** No element is listed twice. */
  predicate Distinct<T(==)>(xs: seq<T>)
  {
    forall i, j :: 0 <= i < j < |xs| ==> xs[i] != xs[j]
  }

  /** A prefix of a list without repeats has none either. */
  lemma DistinctPrefix<T>(xs: seq<T>, ys: seq<T>)
    requires Distinct(xs + ys)
    ensures Distinct(xs)
  {
    forall i, j | 0 <= i < j < |xs| ensures xs[i] != xs[j] {
      assert (xs + ys)[i] == xs[i] && (xs + ys)[j] == xs[j];
    }
  }

  /** Appending an element already listed repeats it. */
  lemma RepeatNotDistinct<T>(xs: seq<T>, x: T)
    requires x in xs
    ensures !Distinct(xs + [x])
  {
    var k :| 0 <= k < |xs| && xs[k] == x;
    assert (xs + [x])[k] == (xs + [x])[|xs|];
  }

  /** Hence no element is listed twice. */
  lemma FirstSeenDistinct(keys: seq<string>)
    ensures Distinct(FirstSeen(keys))
  {
    FirstSeenOrdered(keys);
  }

  // ---------------------------------------------------------------------------
  // String.split on a one-character literal separator
  // ---------------------------------------------------------------------------

  /** Every piece between separators, empty ones included. */
  function Pieces(s: string, sep: char): (r: seq<string>)
    ensures |r| >= 1
    decreases |s|
  {
    if sep !in s then [s]
    else
      var i := FirstIndex(s, sep);
      [s[..i]] + Pieces(s[i + 1..], sep)
  }

  function FirstIndex(s: string, c: char): (i: nat)
    requires c in s
    ensures i < |s| && s[i] == c && c !in s[..i]
  {
    if s[0] == c then 0 else 1 + FirstIndex(s[1..], c)
  }

  /** The pieces glued back together with the separator between neighbours. */
  function JoinWith(parts: seq<string>, sep: string): (r: string)
  {
    if parts == [] then []
    else if |parts| == 1 then parts[0]
    else parts[0] + sep + JoinWith(parts[1..], sep)
  }

  function DropTrailingEmpty(parts: seq<string>): (r: seq<string>)
    ensures |r| <= |parts| && r == parts[..|r|]
    ensures r != [] ==> r[|r| - 1] != []
    ensures forall k :: |r| <= k < |parts| ==> parts[k] == []
  {
    if parts == [] then []
    else if parts[|parts| - 1] == [] then DropTrailingEmpty(parts[..|parts| - 1])
    else parts
  }

  /**
   * `s.split(String.valueOf(sep))`: when the separator does not occur the
   * result is `[s]` (even for the empty string); otherwise trailing empty
   * pieces are removed, so `","` splits into no pieces at all.
   */
  function JavaSplit(s: string, sep: char): (r: seq<string>)
    ensures sep !in s ==> r == [s]
  {
    if sep !in s then [s] else DropTrailingEmpty(Pieces(s, sep))
  }

  /** No piece contains the separator. */
  lemma {:induction false} PiecesHaveNoSeparator(s: string, sep: char)
    ensures forall k :: 0 <= k < |Pieces(s, sep)| ==> sep !in Pieces(s, sep)[k]
    decreases |s|
  {
    if sep in s {
      var i := FirstIndex(s, sep);
      PiecesHaveNoSeparator(s[i + 1..], sep);
      var tail := Pieces(s[i + 1..], sep);
      assert Pieces(s, sep) == [s[..i]] + tail;
      forall k | 1 <= k < |Pieces(s, sep)| ensures sep !in Pieces(s, sep)[k] {
        assert Pieces(s, sep)[k] == tail[k - 1];
      }
    }
  }

  /** `split` never returns a piece holding the separator. */
  lemma JavaSplitNoSeparator(s: string, sep: char)
    ensures forall k :: 0 <= k < |JavaSplit(s, sep)| ==> sep !in JavaSplit(s, sep)[k]
  {
    if sep in s {
      PiecesHaveNoSeparator(s, sep);
      var p := Pieces(s, sep);
      var r := DropTrailingEmpty(p);
      forall k | 0 <= k < |r| ensures sep !in r[k] {
        assert r[k] == p[k];
      }
    }
  }

  lemma JoinCons(head: string, tail: seq<string>, sep: string)
    requires tail != []
    ensures JoinWith([head] + tail, sep) == head + sep + JoinWith(tail, sep)
  {
    assert ([head] + tail)[1..] == tail;
  }

  lemma PiecesCons(s: string, sep: char)
    requires sep in s
    ensures Pieces(s, sep) == [s[..FirstIndex(s, sep)]] + Pieces(s[FirstIndex(s, sep) + 1..], sep)
  {
  }

  lemma CutAt(s: string, i: nat)
    requires i < |s|
    ensures s == s[..i] + [s[i]] + s[i + 1..]
  {
  }

  /** Gluing the pieces back with the separator gives the original string. */
  lemma {:induction false} PiecesJoin(s: string, sep: char)
    ensures JoinWith(Pieces(s, sep), [sep]) == s
    decreases |s|
  {
    if sep in s {
      var i := FirstIndex(s, sep);
      PiecesJoin(s[i + 1..], sep);
      PiecesCons(s, sep);
      JoinCons(s[..i], Pieces(s[i + 1..], sep), [sep]);
      CutAt(s, i);
    }
  }

  // ---------------------------------------------------------------------------
  // Decimal digits: Integer.parseInt and Integer.toString
  // ---------------------------------------------------------------------------

  predicate IsDigit(c: char) { '0' <= c <= '9' }

  predicate AllDigits(s: string)
  {
    forall i :: 0 <= i < |s| ==> IsDigit(s[i])
  }

  function DigitChar(d: int): (c: char)
    requires 0 <= d < 10
    ensures IsDigit(c) && c as int - '0' as int == d
  {
    ('0' as int + d) as char
  }

  /** The value of a run of decimal digits, most significant first. */
  function DigitsValue(s: string): (v: nat)
    requires AllDigits(s)
  {
    if s == [] then 0
    else DigitsValue(s[..|s| - 1]) * 10 + (s[|s| - 1] as int - '0' as int)
  }

  /** `Integer.toString` of a non-negative value: no sign, no leading zero. */
  function NatToString(n: nat): (s: string)
    ensures |s| >= 1 && AllDigits(s)
    ensures |s| > 1 ==> s[0] != '0'
  {
    if n < 10 then [DigitChar(n)] else NatToString(n / 10) + [DigitChar(n % 10)]
  }

  /** `Integer.toString` / string concatenation of an `int` or `long`. */
  function IntToString(n: int): (s: string)
    ensures |s| >= 1
    ensures n >= 0 ==> s == NatToString(n)
    ensures n < 0 ==> s == "-" + NatToString(-n)
  {
    if n < 0 then "-" + NatToString(-n) else NatToString(n)
  }

  lemma {:induction false} NatToStringValue(n: nat)
    ensures DigitsValue(NatToString(n)) == n
  {
    if n >= 10 {
      NatToStringValue(n / 10);
      var s := NatToString(n);
      assert s[..|s| - 1] == NatToString(n / 10);
    }
  }

  /**
   * `Integer.parseInt(s)` (radix 10, ASCII digits): an optional leading `+`
   * or `-`, then at least one digit, and the value must fit in an `int`;
   * anything else raises `NumberFormatException` (here `None`).
   */
  function ParseInt(s: string): (r: Option<int>)
    ensures r.Some? ==> IsInt32(r.value)
    ensures r.Some? ==> |s| >= 1
    ensures AllDigits(s) && s != [] && DigitsValue(s) <= INT_MAX ==> r == Some(DigitsValue(s))
  {
    if s == [] then None
    else if s[0] == '-' || s[0] == '+' then
      if |s| == 1 || !AllDigits(s[1..]) then None
      else
        var magnitude: int := DigitsValue(s[1..]);
        var v: int := if s[0] == '-' then -magnitude else magnitude;
        if IsInt32(v) then Some(v) else None
    else if !AllDigits(s) then None
    else
      var v := DigitsValue(s);
      if IsInt32(v) then Some(v) else None
  }

  /** Printing an `int` and parsing it back gives the same `int`. */
  lemma {:induction false} ParseIntToString(n: int)
    requires IsInt32(n)
    ensures ParseInt(IntToString(n)) == Some(n)
  {
    var s := IntToString(n);
    if n < 0 {
      NatToStringValue(-n);
      assert s[0] == '-' && |s| > 1;
      assert s[1..] == NatToString(-n);
    } else {
      NatToStringValue(n);
      assert s == NatToString(n) && AllDigits(s);
      assert IsDigit(s[0]);
    }
  }

  /** A leading zero does not change the value of a digit run. */
  lemma {:induction false} LeadingZeroValue(s: string)
    requires AllDigits(s)
    ensures AllDigits("0" + s) && DigitsValue("0" + s) == DigitsValue(s)
    decreases |s|
  {
    if s != [] {
      var t := "0" + s;
      assert t[..|t| - 1] == "0" + s[..|s| - 1];
      LeadingZeroValue(s[..|s| - 1]);
    }
  }

  function Pow10(k: nat): (p: nat)
    ensures p >= 1
  {
    if k == 0 then 1 else 10 * Pow10(k - 1)
  }

  /** A value below 10^k prints in at most k digits. */
  lemma {:induction false} NatToStringShort(n: nat, k: nat)
    requires k >= 1 && n < Pow10(k)
    ensures |NatToString(n)| <= k
  {
    if n >= 10 {
      NatToStringShort(n / 10, k - 1);
    }
  }

  /** `String.format("%0<width>d", n)` for a non-negative `n`. */
  function ZeroPad(n: nat, width: nat): (s: string)
    ensures AllDigits(s)
    ensures |s| == Max(width, |NatToString(n)|)
    ensures DigitsValue(s) == n
  {
    NatToStringValue(n);
    PadDigits(NatToString(n), width)
  }

  function PadDigits(s: string, width: nat): (r: string)
    requires AllDigits(s)
    ensures AllDigits(r)
    ensures |r| == Max(width, |s|)
    ensures DigitsValue(r) == DigitsValue(s)
    decreases width - |s|
  {
    if |s| >= width then s
    else
      LeadingZeroValue(s);
      PadDigits("0" + s, width)
  }

  // ---------------------------------------------------------------------------
  // "%,d": thousands separators
  // ---------------------------------------------------------------------------

  /** A digit run with a comma inserted before every group of three from the right. */
  function GroupThousands(s: string): (r: string)
    decreases |s|
  {
    if |s| <= 3 then s
    else GroupThousands(s[..|s| - 3]) + "," + s[|s| - 3..]
  }

  /** `String.format("%,d", n)` with a comma as the grouping separator. */
  function FormatGrouped(n: int): (r: string)
  {
    if n < 0 then "-" + GroupThousands(NatToString(-n)) else GroupThousands(NatToString(n))
  }

  function WithoutCommas(s: string): (r: string)
    ensures ',' !in r
  {
    if s == [] then []
    else (if s[0] == ',' then [] else [s[0]]) + WithoutCommas(s[1..])
  }

  lemma {:induction false} WithoutCommasAppend(a: string, b: string)
    ensures WithoutCommas(a + b) == WithoutCommas(a) + WithoutCommas(b)
    decreases |a|
  {
    if a != [] {
      assert (a + b)[0] == a[0] && (a + b)[1..] == a[1..] + b;
      WithoutCommasAppend(a[1..], b);
      var h := if a[0] == ',' then [] else [a[0]];
      calc {
        WithoutCommas(a + b);
        h + WithoutCommas(a[1..] + b);
        h + (WithoutCommas(a[1..]) + WithoutCommas(b));
        (h + WithoutCommas(a[1..])) + WithoutCommas(b);
      }
    } else {
      assert a + b == b;
    }
  }

  lemma {:induction false} WithoutCommasKeeps(s: string)
    requires ',' !in s
    ensures WithoutCommas(s) == s
  {
    if s != [] {
      WithoutCommasKeeps(s[1..]);
    }
  }

  lemma {:induction false} GroupThousandsUngroups(s: string)
    requires ',' !in s
    ensures WithoutCommas(GroupThousands(s)) == s
    decreases |s|
  {
    if |s| <= 3 {
      WithoutCommasKeeps(s);
    } else {
      var head, tail := s[..|s| - 3], s[|s| - 3..];
      SplitKeepsNoComma(s, |s| - 3);
      GroupThousandsUngroups(head);
      UngroupStep(GroupThousands(head), head, tail);
      assert s == head + tail;
    }
  }

  lemma SplitKeepsNoComma(s: string, k: nat)
    requires ',' !in s && k <= |s|
    ensures ',' !in s[..k] && ',' !in s[k..]
  {
    assert s == s[..k] + s[k..];
  }

  /** One separator and a comma-free group come off as the group alone. */
  lemma UngroupStep(g: string, head: string, tail: string)
    requires WithoutCommas(g) == head && ',' !in tail
    ensures WithoutCommas(g + "," + tail) == head + tail
  {
    var gc := g + ",";
    WithoutCommasAppend(gc, tail);
    WithoutCommasAppend(g, ",");
    WithoutCommasKeeps(tail);
    DropComma();
    assert WithoutCommas(gc) == head;
  }

  lemma DropComma()
    ensures WithoutCommas(",") == []
  {
    assert ","[0] == ',' && ","[1..] == [];
  }

  /** Removing the grouping separators from "%,d" gives back `Long.toString`. */
  lemma FormatGroupedUngroups(n: int)
    ensures WithoutCommas(FormatGrouped(n)) == IntToString(n)
  {
    var digits := NatToString(if n < 0 then -n else n);
    assert ',' !in digits by {
      assert forall i :: 0 <= i < |digits| ==> IsDigit(digits[i]);
    }
    GroupThousandsUngroups(digits);
    if n < 0 {
      WithoutCommasAppend("-", GroupThousands(digits));
    }
  }

  // ---------------------------------------------------------------------------
  // BigDecimal
  // ---------------------------------------------------------------------------

  /** A `java.math.BigDecimal`: the value `unscaled` × 10^(-`scale`). */
  datatype Decimal = Decimal(unscaled: int, scale: int)
  {
    function Value(): real
    {
      ScaledValue(unscaled, scale)
    }
  }

  /** `u` × 10^(-`s`), one decimal place at a time. */
  function ScaledValue(u: int, s: int): real
    decreases if s >= 0 then s else -s
  {
    if s == 0 then u as real
    else if s > 0 then ScaledValue(u, s - 1) / 10.0
    else ScaledValue(u, s + 1) * 10.0
  }

  /** A trailing zero of the unscaled value trades for one less decimal place. */
  lemma {:induction false} ScaledValueShift(v: int, s: int)
    ensures ScaledValue(10 * v, s) == ScaledValue(v, s - 1)
    decreases if s >= 0 then s else -s
  {
    if s > 1 {
      ScaledValueShift(v, s - 1);
    } else if s < 0 {
      ScaledValueShift(v, s + 1);
    }
  }

  /** Scaling the unscaled value by a whole factor scales the value by it. */
  lemma {:induction false} ScaledValueTimes(u: int, c: int, s: int)
    ensures ScaledValue(c * u, s) == c as real * ScaledValue(u, s)
    decreases if s >= 0 then s else -s
  {
    if s == 0 {
      assert (c * u) as real == c as real * u as real;
    } else if s > 0 {
      ScaledValueTimes(u, c, s - 1);
    } else {
      ScaledValueTimes(u, c, s + 1);
    }
  }

  /** Zero is zero at every scale. */
  lemma {:induction false} ScaledValueZero(s: int)
    ensures ScaledValue(0, s) == 0.0
    decreases if s >= 0 then s else -s
  {
    if s > 0 {
      ScaledValueZero(s - 1);
    } else if s < 0 {
      ScaledValueZero(s + 1);
    }
  }

  /** `q` is `mag / div` to the nearest whole number: within half a step of it. */
  predicate WithinHalf(mag: int, div: int, q: int)
  {
    (2 * q - 1) * div <= 2 * mag < (2 * q + 1) * div
  }

  /** `mag / div` rounded half up: within half a step of the exact quotient. */
  function RoundHalfUp(mag: nat, div: nat): (q: nat)
    requires div >= 1
    ensures WithinHalf(mag, div, q)
  {
    var q0, rem := mag / div, mag % div;
    var q := q0 + (if 2 * rem >= div then 1 else 0);
    assert mag == q0 * div + rem;
    assert (2 * q - 1) * div == 2 * q * div - div;
    assert (2 * q + 1) * div == 2 * q * div + div;
    assert q * div == q0 * div + (if 2 * rem >= div then div else 0);
    q
  }

  /**
   * `setScale(1, HALF_UP)` from a scale of at least 1: the unscaled value is
   * divided by 10^(scale-1), the magnitude rounded half up (halves away from
   * zero), so it is within half a unit of the exact quotient and keeps the sign.
   */
  function SetScaleOneHalfUp(d: Decimal): (r: Decimal)
    requires d.scale >= 1
    ensures r.scale == 1
    ensures WithinHalf(Abs(d.unscaled), Pow10(d.scale - 1), Abs(r.unscaled))
    ensures d.unscaled >= 0 ==> r.unscaled >= 0
    ensures d.unscaled <= 0 ==> r.unscaled <= 0
  {
    var q: int := RoundHalfUp(Abs(d.unscaled), Pow10(d.scale - 1));
    Decimal(if d.unscaled < 0 then -q else q, 1)
  }

  // ---------------------------------------------------------------------------
  // Calendar values handed in by the clock
  // ---------------------------------------------------------------------------

  datatype DayOfWeek = MON | TUE | WED | THU | FRI | SAT | SUN
  {
    /** `DayOfWeek.name().substring(0, 3)`. */
    function Abbrev(): (s: string)
      ensures |s| == 3
    {
      match this
      case MON => "MON" case TUE => "TUE" case WED => "WED" case THU => "THU"
      case FRI => "FRI" case SAT => "SAT" case SUN => "SUN"
    }
  }

  /** A calendar date of years 1 to 9999, as `LocalDate` holds it. */
  datatype Date = Date(year: int, month: int, day: int)
  {
    predicate Valid() { 1 <= year <= 9999 && 1 <= month <= 12 && 1 <= day <= 31 }
  }

  /** A `YearMonth`. */
  datatype YearMonth = YearMonth(year: int, month: int)
  {
    predicate Valid() { 1 <= year <= 9999 && 1 <= month <= 12 }
  }

  /** `YearMonth.toString` / `format("yyyy-MM")` for years 1 to 9999. */
  function FormatYearMonth(ym: YearMonth): (s: string)
    requires ym.Valid()
    ensures |s| == 7 && s[4] == '-'
    ensures AllDigits(s[..4]) && DigitsValue(s[..4]) == ym.year
    ensures AllDigits(s[5..]) && DigitsValue(s[5..]) == ym.month
  {
    NatToStringShort(ym.year, 4);
    NatToStringShort(ym.month, 2);
    var y, m := ZeroPad(ym.year, 4), ZeroPad(ym.month, 2);
    var s := y + "-" + m;
    assert s[..4] == y && s[5..] == m;
    s
  }

  /** Distinct year-months never share a key. */
  lemma FormatYearMonthInjective(a: YearMonth, b: YearMonth)
    requires a.Valid() && b.Valid()
    ensures FormatYearMonth(a) == FormatYearMonth(b) <==> a == b
  {
    if FormatYearMonth(a) == FormatYearMonth(b) {
      assert DigitsValue(FormatYearMonth(a)[..4]) == DigitsValue(FormatYearMonth(b)[..4]);
      assert DigitsValue(FormatYearMonth(a)[5..]) == DigitsValue(FormatYearMonth(b)[5..]);
    }
  }

  /**
   * `YearMonth.parse(s, ofPattern("yyyy-MM"))` on its four-digit form:
   * four digits of a year from 1, a dash, two digits of a month from 1 to
   * 12; anything else raises `DateTimeParseException` (here `None`).
   */
  function ParseYearMonth(s: string): (r: Option<YearMonth>)
    ensures r.Some? ==> r.value.Valid() && |s| == 7
  {
    if |s| == 7 && s[4] == '-' && AllDigits(s[..4]) && AllDigits(s[5..]) then
      var ym := YearMonth(DigitsValue(s[..4]), DigitsValue(s[5..]));
      if ym.year >= 1 && 1 <= ym.month <= 12 && ym.year <= 9999 then Some(ym) else None
    else None
  }

  /** Every valid month parses back from its own text. */
  lemma ParseFormatYearMonth(ym: YearMonth)
    requires ym.Valid()
    ensures ParseYearMonth(FormatYearMonth(ym)) == Some(ym)
  {
    DigitsBelow(FormatYearMonth(ym)[..4]);
  }

  /** Four digits never exceed 9999. */
  lemma {:induction false} DigitsBelow(s: string)
    requires AllDigits(s)
    ensures DigitsValue(s) < Pow10(|s|)
  {
    if s != [] {
      DigitsBelow(s[..|s| - 1]);
    }
  }

  /** `LocalDate.toString` for years 1 to 9999: yyyy-MM-dd. */
  function FormatDate(d: Date): (s: string)
    requires d.Valid()
    ensures |s| == 10 && s[4] == '-' && s[7] == '-'
    ensures s[..7] == FormatYearMonth(YearMonth(d.year, d.month))
    ensures AllDigits(s[8..]) && DigitsValue(s[8..]) == d.day
  {
    NatToStringShort(d.day, 2);
    var p := ZeroPad(d.day, 2);
    var s := FormatYearMonth(YearMonth(d.year, d.month)) + "-" + p;
    assert s[8..] == p;
    s
  }

  /** Distinct dates never share a key. */
  lemma FormatDateInjective(a: Date, b: Date)
    requires a.Valid() && b.Valid()
    ensures FormatDate(a) == FormatDate(b) <==> a == b
  {
    if FormatDate(a) == FormatDate(b) {
      FormatYearMonthInjective(YearMonth(a.year, a.month), YearMonth(b.year, b.month));
      assert DigitsValue(FormatDate(a)[8..]) == DigitsValue(FormatDate(b)[8..]);
    }
  }
}
