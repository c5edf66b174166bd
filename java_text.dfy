/** The parts of java.lang.String and java.lang.Integer that the library relies on:
    Integer.toString, Integer.parseInt (radix 10), String.split on a one-character
    literal, String.trim, String.indexOf and String.substring. */
module JavaText {
  import opened Wrappers

  const INT_MIN: int := -0x8000_0000
  const INT_MAX: int := 0x7fff_ffff

  /** A Java `int`. */
  type Int32 = x: int | -0x8000_0000 <= x <= 0x7fff_ffff

  /** Java `int` arithmetic: the result keeps the low 32 bits, read as two's complement. */
  function Wrap32(x: int): (r: Int32)
    ensures (r - x) % 0x1_0000_0000 == 0
    ensures INT_MIN <= x <= INT_MAX ==> r == x
  {
    var m := x % 0x1_0000_0000;
    if m > INT_MAX then m - 0x1_0000_0000 else m
  }

  /** A value one 2^32 period outside the `int` range wraps back by that period. */
  lemma Wrap32OnePeriod(x: int)
    requires INT_MIN <= x + 0x1_0000_0000 <= INT_MAX || INT_MIN <= x - 0x1_0000_0000 <= INT_MAX
    ensures INT_MIN <= x + 0x1_0000_0000 <= INT_MAX ==> Wrap32(x) == x + 0x1_0000_0000
    ensures INT_MIN <= x - 0x1_0000_0000 <= INT_MAX ==> Wrap32(x) == x - 0x1_0000_0000
  {
    if INT_MIN <= x + 0x1_0000_0000 <= INT_MAX {
      if x + 0x1_0000_0000 >= 0 {
        assert x % 0x1_0000_0000 == x + 0x1_0000_0000;
      } else {
        assert x % 0x1_0000_0000 == x + 2 * 0x1_0000_0000;
      }
    } else {
      if x - 0x1_0000_0000 >= 0 {
        assert x % 0x1_0000_0000 == x - 0x1_0000_0000;
      } else {
        assert x % 0x1_0000_0000 == x;
      }
    }
  }

  /** String.valueOf(boolean). */
  function BoolText(b: bool): (s: string)
    ensures s == "true" || s == "false"
  {
    if b then "true" else "false"
  }

  /** A Java String reference as `==` and `!=` see it: null, the one interned object
      that every occurrence of a literal (or other compile-time constant) denotes, or
      an object built at run time, which is never `==` to a literal. */
  datatype StringRef = NullRef | Interned(text: string) | Built(text: string)

  /** The text string concatenation writes for a reference: "null" for null. */
  function RefText(s: StringRef): string
  {
    if s.NullRef? then "null" else s.text
  }

  /** `s != null && s != ""`, where `!=` compares references. */
  function NotNullNorEmptyLiteral(s: StringRef): (b: bool)
    ensures b <==> !s.NullRef? && s != Interned("")
  {
    match s
    case NullRef => false
    case Interned(t) => t != ""
    case Built(_) => true
  }

  predicate IsDigit(c: char) { '0' <= c <= '9' }

  predicate AllDigits(s: string) { forall i :: 0 <= i < |s| ==> IsDigit(s[i]) }

  function DigitChar(d: nat): (c: char)
    requires d < 10
    ensures IsDigit(c)
  {
    (('0' as int) + d) as char
  }

  function DigitValue(c: char): (d: nat)
    requires IsDigit(c)
    ensures d < 10 && DigitChar(d) == c
  {
    (c as int) - ('0' as int)
  }

  // ---------------------------------------------------------------- Integer.toString

  /** The decimal digits of n, most significant first, without leading zeros. */
  function Digits(n: nat): (s: string)
    ensures |s| > 0 && AllDigits(s)
    ensures n > 0 ==> s[0] != '0'
  {
    if n < 10 then [DigitChar(n)] else Digits(n / 10) + [DigitChar(n % 10)]
  }

  /** Integer.toString(n): an optional minus sign followed by the digits of |n|. */
  function IntToString(n: int): (s: string)
    ensures |s| > 0 && ' ' !in s
    ensures n >= 0 <==> s[0] != '-'
  {
    if n < 0 then "-" + Digits(-n) else Digits(n)
  }

  // ---------------------------------------------------------------- Integer.parseInt

  /** The value of a string of decimal digits. */
  function DigitsValue(s: string): nat
    requires AllDigits(s)
  {
    if s == [] then 0 else DigitsValue(s[..|s| - 1]) * 10 + DigitValue(s[|s| - 1])
  }

  /** Integer.parseInt(s): an optional '+' or '-' followed by at least one digit, and a
      value that fits in an int; anything else throws NumberFormatException (None). */
  function ParseInt(s: string): (r: Option<Int32>)
    ensures r.Some? ==> |s| > 0 && (s[0] == '-' || s[0] == '+' || IsDigit(s[0]))
    ensures r.Some? && r.value < 0 ==> s[0] == '-'
    ensures s == "" || ' ' in s ==> r == None
  {
    if |s| == 0 then None
    else if s[0] == '-' || s[0] == '+' then
      if |s| == 1 || !AllDigits(s[1..]) then None
      else
        var v: int := if s[0] == '-' then -(DigitsValue(s[1..]) as int) else DigitsValue(s[1..]);
        if INT_MIN <= v <= INT_MAX then Some(v) else None
    else if !AllDigits(s) then None
    else if DigitsValue(s) <= INT_MAX then Some(DigitsValue(s))
    else None
  }

  lemma {:induction false} DigitsValueOfDigits(n: nat)
    ensures DigitsValue(Digits(n)) == n
  {
    if n >= 10 {
      DigitsValueOfDigits(n / 10);
      var s := Digits(n);
      assert s[..|s| - 1] == Digits(n / 10);
    }
  }

  /** Integer.parseInt reads back every int that Integer.toString writes. */
  lemma ParseIntToString(n: Int32)
    ensures ParseInt(IntToString(n)) == Some(n)
  {
    var m: int := n;
    if m < 0 {
      DigitsValueOfDigits(-m);
      assert IntToString(m)[1..] == Digits(-m);
    } else {
      DigitsValueOfDigits(n);
    }
  }

  // ---------------------------------------------------------------- Double.parseDouble

  function Pow10(n: nat): (p: nat)
    ensures p > 0
  {
    if n == 0 then 1 else 10 * Pow10(n - 1)
  }

  /** The index of the first '.' in s, or |s| when there is none. */
  function PointAt(s: string): (k: nat)
    ensures k <= |s| && '.' !in s[..k]
    ensures k < |s| ==> s[k] == '.'
    ensures '.' !in s ==> k == |s|
  {
    if s == [] || s[0] == '.' then 0 else 1 + PointAt(s[1..])
  }

  /** The unsigned decimal "d*", "d*.d*" with at least one digit: its exact value. */
  function UnsignedDecimal(s: string): (r: Option<real>)
    ensures AllDigits(s) && s != [] ==> r == Some(DigitsValue(s) as real)
    ensures r.Some? ==> r.value >= 0.0
  {
    assert AllDigits(s) ==> forall i :: 0 <= i < |s| ==> s[i] != '.';
    var k := PointAt(s);
    assert AllDigits(s) ==> k == |s| && s[..k] == s;
    var whole := s[..k];
    var fraction := if k < |s| then s[k + 1..] else [];
    if whole == [] && fraction == [] then None
    else if !AllDigits(whole) || !AllDigits(fraction) then None
    else Some(DigitsValue(whole) as real + DigitsValue(fraction) as real / Pow10(|fraction|) as real)
  }

  /** Double.parseDouble(s) on a plain decimal: an optional '+' or '-', digits and an
      optional '.' followed by more digits, with at least one digit in all. The value
      is the exact decimal; the other forms Java accepts are not modelled (None). */
  function ParseDecimal(s: string): (r: Option<real>)
    ensures s == "" ==> r == None
    ensures r.Some? && r.value < 0.0 ==> s[0] == '-'
  {
    if |s| > 0 && (s[0] == '-' || s[0] == '+') then
      match UnsignedDecimal(s[1..])
      case Some(v) => Some(if s[0] == '-' then -v else v)
      case None => None
    else UnsignedDecimal(s)
  }

  /** Every text parseInt accepts reads as the same number through parseDouble. */
  lemma ParseDecimalOfParseInt(s: string)
    requires ParseInt(s).Some?
    ensures ParseDecimal(s) == Some(ParseInt(s).value as real)
  {
    if s[0] == '-' || s[0] == '+' {
      assert UnsignedDecimal(s[1..]) == Some(DigitsValue(s[1..]) as real);
    }
  }

  /** A digit string after the point reads as its value over the matching power of ten. */
  lemma {:induction false} ParseDecimalFraction(whole: string, fraction: string)
    requires AllDigits(whole) && AllDigits(fraction) && whole != []
    ensures ParseDecimal(whole + "." + fraction) ==
      Some(DigitsValue(whole) as real + DigitsValue(fraction) as real / Pow10(|fraction|) as real)
  {
    var s := whole + "." + fraction;
    assert s == whole + ("." + fraction);
    PointAtPrefix(whole, "." + fraction);
    var k := PointAt(s);
    assert k == |whole| < |s|;
    assert s[..k] == whole;
    assert s[k + 1..] == fraction;
    assert s[0] == whole[0] && IsDigit(s[0]);
    assert ParseDecimal(s) == UnsignedDecimal(s);
  }

  lemma {:induction false} PointAtPrefix(t: string, rest: string)
    requires AllDigits(t) && rest != [] && rest[0] == '.'
    ensures PointAt(t + rest) == |t|
  {
    if t != [] {
      assert (t + rest)[1..] == t[1..] + rest;
      PointAtPrefix(t[1..], rest);
    }
  }

  /** "0.5" reads as one half. */
  lemma ParseHalf()
    ensures ParseDecimal("0.5") == Some(0.5)
  {
    ParseDecimalFraction("0", "5");
    assert "0" + "." + "5" == "0.5";
  }

  // ---------------------------------------------------------------- String.split

  /** Every field of s between occurrences of sep: one more field than occurrences. */
  function Fields(s: string, sep: char): (fs: seq<string>)
    ensures |fs| > 0
  {
    if s == [] then [""]
    else
      var rest := Fields(s[1..], sep);
      if s[0] == sep then [""] + rest else [[s[0]] + rest[0]] + rest[1..]
  }

  function DropTrailingEmpty(fs: seq<string>): (r: seq<string>)
    ensures |r| <= |fs| && r == fs[..|r|]
    ensures r != [] ==> r[|r| - 1] != ""
    ensures forall i :: |r| <= i < |fs| ==> fs[i] == ""
  {
    if fs != [] && fs[|fs| - 1] == "" then DropTrailingEmpty(fs[..|fs| - 1]) else fs
  }

  /** s.split(String.valueOf(sep)) for a separator that is not a regular-expression
      metacharacter: the string itself when sep does not occur, otherwise the fields
      with trailing empty fields removed. */
  function Split(s: string, sep: char): (r: seq<string>)
    ensures sep !in s ==> r == [s]
    ensures sep in s ==> r == DropTrailingEmpty(Fields(s, sep))
  {
    if sep !in s then [s] else DropTrailingEmpty(Fields(s, sep))
  }

  lemma {:induction false} FieldsWithoutSep(t: string, sep: char)
    requires sep !in t
    ensures Fields(t, sep) == [t]
  {
    if t != [] {
      FieldsWithoutSep(t[1..], sep);
      assert [t[0]] + t[1..] == t;
    }
  }

  lemma {:induction false} FieldsAfterSep(t: string, sep: char, rest: string)
    requires sep !in t
    ensures Fields(t + [sep] + rest, sep) == [t] + Fields(rest, sep)
  {
    if t != [] {
      FieldsAfterSep(t[1..], sep, rest);
      assert (t + [sep] + rest)[1..] == t[1..] + [sep] + rest;
      assert [t[0]] + t[1..] == t;
    } else {
      assert (t + [sep] + rest)[1..] == rest;
    }
  }

  lemma {:induction false} DropTrailingEmptyCons(a: string, fs: seq<string>)
    requires a != ""
    ensures DropTrailingEmpty([a] + fs) == [a] + DropTrailingEmpty(fs)
  {
    if fs != [] && fs[|fs| - 1] == "" {
      assert ([a] + fs)[..|[a] + fs| - 1] == [a] + fs[..|fs| - 1];
      DropTrailingEmptyCons(a, fs[..|fs| - 1]);
    }
  }

  /** The first field of a split is never looked at by what follows it: two texts that
      differ only in a non-empty, space-free first field split into the same tail. */
  lemma SplitFirstField(a: string, b: string, rest: string)
    requires a != "" && ' ' !in a && b != "" && ' ' !in b
    ensures |Split(b + " " + rest, ' ')| > 0 && Split(b + " " + rest, ' ')[0] == b
    ensures Split(a + " " + rest, ' ') == [a] + Split(b + " " + rest, ' ')[1..]
  {
    FieldsAfterSep(a, ' ', rest);
    FieldsAfterSep(b, ' ', rest);
    assert (a + " " + rest)[|a|] == ' ';
    assert (b + " " + rest)[|b|] == ' ';
    DropTrailingEmptyCons(a, Fields(rest, ' '));
    DropTrailingEmptyCons(b, Fields(rest, ' '));
  }

  // ---------------------------------------------------------------- space-separated integers

  /** What a StringBuilder gains from appending " " + n for each n of ts in turn. */
  function AppendInts(ts: seq<int>): string
  {
    if ts == [] then "" else " " + IntToString(ts[0]) + AppendInts(ts[1..])
  }

  /** ts written as space-separated decimal integers: the first one, then " " + each next. */
  function JoinInts(ts: seq<int>): string
    requires |ts| > 0
  {
    IntToString(ts[0]) + AppendInts(ts[1..])
  }

  /** Integer.toString of each element, in order. */
  function Strs(ts: seq<int>): (r: seq<string>)
    ensures |r| == |ts|
    ensures forall i :: 0 <= i < |ts| ==> r[i] == IntToString(ts[i])
  {
    if ts == [] then [] else [IntToString(ts[0])] + Strs(ts[1..])
  }

  /** One more append: the step a StringBuilder loop takes. */
  lemma {:induction false} AppendIntsSnoc(ts: seq<int>, n: int)
    ensures AppendInts(ts + [n]) == AppendInts(ts) + " " + IntToString(n)
  {
    if ts != [] {
      assert (ts + [n])[1..] == ts[1..] + [n];
      AppendIntsSnoc(ts[1..], n);
    } else {
      assert [n][1..] == [];
    }
  }

  /** Appending two runs of integers one after the other. */
  lemma {:induction false} AppendIntsConcat(ts: seq<int>, us: seq<int>)
    ensures AppendInts(ts + us) == AppendInts(ts) + AppendInts(us)
  {
    if ts != [] {
      assert (ts + us)[1..] == ts[1..] + us;
      AppendIntsConcat(ts[1..], us);
    } else {
      assert ts + us == us;
    }
  }

  lemma {:induction false} FieldsOfJoinInts(ts: seq<int>)
    requires |ts| > 0
    ensures Fields(JoinInts(ts), ' ') == Strs(ts)
    decreases |ts|
  {
    if |ts| == 1 {
      assert ts[1..] == [];
      assert JoinInts(ts) == IntToString(ts[0]);
      FieldsWithoutSep(IntToString(ts[0]), ' ');
      assert Strs(ts) == [IntToString(ts[0])] + Strs([]);
    } else {
      var t := ts[1..];
      assert JoinInts(ts) == IntToString(ts[0]) + [' '] + JoinInts(t);
      FieldsAfterSep(IntToString(ts[0]), ' ', JoinInts(t));
      FieldsOfJoinInts(t);
    }
  }

  /** Splitting the joined text on ' ' gives back the decimal text of every integer. */
  lemma SplitJoinInts(ts: seq<int>)
    requires |ts| > 0
    ensures Split(JoinInts(ts), ' ') == Strs(ts)
  {
    FieldsOfJoinInts(ts);
    if ' ' !in JoinInts(ts) {
      FieldsWithoutSep(JoinInts(ts), ' ');
    }
  }

  // ---------------------------------------------------------------- trim, indexOf, substring

  /** Java's trim treats every character up to U+0020 as white space. */
  predicate IsTrimmed(c: char) { c <= ' ' }

  function TrimStart(s: string): (r: string)
    ensures |r| <= |s| && r == s[|s| - |r|..]
    ensures r != [] ==> !IsTrimmed(r[0])
  {
    if s != [] && IsTrimmed(s[0]) then TrimStart(s[1..]) else s
  }

  function TrimEnd(s: string): (r: string)
    ensures |r| <= |s| && r == s[..|r|]
    ensures r != [] ==> !IsTrimmed(r[|r| - 1])
  {
    if s != [] && IsTrimmed(s[|s| - 1]) then TrimEnd(s[..|s| - 1]) else s
  }

  /** String.trim(): the string without leading and trailing white space. */
  function Trim(s: string): (r: string)
    ensures r != [] ==> !IsTrimmed(r[0]) && !IsTrimmed(r[|r| - 1])
  {
    TrimEnd(TrimStart(s))
  }

  lemma TrimUntouched(s: string)
    requires s != [] ==> !IsTrimmed(s[0]) && !IsTrimmed(s[|s| - 1])
    ensures Trim(s) == s
  {
  }

  predicate StartsAt(s: string, pat: string, i: int)
  {
    0 <= i && i + |pat| <= |s| && s[i..i + |pat|] == pat
  }

  predicate Contains(s: string, pat: string)
  {
    exists i :: 0 <= i <= |s| - |pat| && StartsAt(s, pat, i)
  }

  function IndexOfFrom(s: string, pat: string, i: nat): (r: int)
    requires i <= |s| + 1
    ensures r == -1 || (i <= r && StartsAt(s, pat, r))
    decreases |s| + 1 - i
  {
    if i + |pat| > |s| then -1
    else if s[i..i + |pat|] == pat then i
    else IndexOfFrom(s, pat, i + 1)
  }

  /** s.indexOf(pat): the first position where pat starts, or -1. */
  function IndexOf(s: string, pat: string): (r: int)
    ensures r == -1 || StartsAt(s, pat, r)
  {
    IndexOfFrom(s, pat, 0)
  }

  /** The search from i finds no earlier start, and -1 only when there is none. */
  lemma {:induction false} IndexOfFromFirst(s: string, pat: string, i: nat)
    requires i <= |s| + 1
    ensures IndexOfFrom(s, pat, i) == -1 ==> forall j :: i <= j <= |s| ==> !StartsAt(s, pat, j)
    ensures IndexOfFrom(s, pat, i) >= 0 ==> forall j :: i <= j < IndexOfFrom(s, pat, i) ==> !StartsAt(s, pat, j)
    decreases |s| + 1 - i
  {
    if i + |pat| <= |s| && s[i..i + |pat|] != pat {
      IndexOfFromFirst(s, pat, i + 1);
    }
  }

  /** indexOf gives the first start of pat, and -1 exactly when pat does not occur. */
  lemma IndexOfFirst(s: string, pat: string)
    ensures IndexOf(s, pat) == -1 <==> !Contains(s, pat)
    ensures IndexOf(s, pat) >= 0 ==> forall j :: 0 <= j < IndexOf(s, pat) ==> !StartsAt(s, pat, j)
  {
    IndexOfFromFirst(s, pat, 0);
  }

  /** pat is first found right after a when its k-th character occurs neither in a nor
      earlier in pat. */
  lemma IndexOfByChar(a: string, pat: string, b: string, k: nat)
    requires k < |pat| && pat[k] !in a && pat[k] !in pat[..k]
    ensures IndexOf(a + (pat + b), pat) == |a|
  {
    var s := a + (pat + b);
    assert s[|a|..|a| + |pat|] == pat;
    assert StartsAt(s, pat, |a|);
    IndexOfFirst(s, pat);
  }

  /** s.substring(b, e): StringIndexOutOfBoundsException unless 0 <= b <= e <= |s|. */
  function Substring(s: string, b: int, e: int): (r: Result<string>)
    ensures r.Ok? <==> 0 <= b <= e <= |s|
    ensures r.Ok? ==> |r.value| == e - b && forall k :: 0 <= k < e - b ==> r.value[k] == s[b + k]
    ensures r.Err? ==> r.error == IndexOutOfBounds
  {
    if 0 <= b <= e <= |s| then Ok(s[b..e]) else Err(IndexOutOfBounds)
  }

  // ---------------------------------------------------------------- case conversion

  function LowerChar(c: char): char
  {
    if 'A' <= c <= 'Z' then ((c as int) + 32) as char else c
  }

  /** toLowerCase, restricted to ASCII letters. */
  function ToLower(s: string): (r: string)
    ensures |r| == |s| && forall i :: 0 <= i < |s| ==> r[i] == LowerChar(s[i])
  {
    if s == [] then [] else [LowerChar(s[0])] + ToLower(s[1..])
  }

  function UpperChar(c: char): char
  {
    if 'a' <= c <= 'z' then ((c as int) - 32) as char else c
  }

  /** toUpperCase, restricted to ASCII letters. */
  function ToUpper(s: string): (r: string)
    ensures |r| == |s| && forall i :: 0 <= i < |s| ==> r[i] == UpperChar(s[i])
  {
    if s == [] then [] else [UpperChar(s[0])] + ToUpper(s[1..])
  }

  /** Upper-casing the lower-cased form of an upper-case name gives the name back. */
  lemma UpperOfLower(s: string)
    requires forall i :: 0 <= i < |s| ==> 'A' <= s[i] <= 'Z'
    ensures ToUpper(ToLower(s)) == s
  {
    var r := ToUpper(ToLower(s));
    forall i | 0 <= i < |s|
      ensures r[i] == s[i]
    {
      UpperOfLowerChar(s[i]);
    }
  }

  lemma UpperOfLowerChar(c: char)
    requires 'A' <= c <= 'Z'
    ensures UpperChar(LowerChar(c)) == c
  {
    assert 'a' <= LowerChar(c) <= 'z';
  }
}
