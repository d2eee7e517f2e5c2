/** The Kotlin string functions the editor relies on: `trim`, `isBlank`,
    `lowercase`, `split`, `joinToString`, `toIntOrNull` and `Int.toString`. */
module Text {
  import opened Data
  import Seqs

  /** `Char.isWhitespace()`: Java's whitespace characters together with the
      Unicode space separators. */
  predicate IsWhitespace(c: char) {
    || c == ' ' || c == '\t' || c == '\n' || c == '\r'
    || c == '\U{B}' || c == '\U{C}'
    || ('\U{1C}' <= c <= '\U{1F}')
    || c == '\U{A0}' || c == '\U{1680}'
    || ('\U{2000}' <= c <= '\U{200A}')
    || c == '\U{2028}' || c == '\U{2029}' || c == '\U{202F}' || c == '\U{205F}' || c == '\U{3000}'
  }

  /** `isBlank()`: empty, or whitespace only. */
  predicate IsBlank(s: string) {
    forall i :: 0 <= i < |s| ==> IsWhitespace(s[i])
  }

  function TrimStart(s: string): (r: string)
    ensures |r| <= |s|
  {
    if |s| > 0 && IsWhitespace(s[0]) then TrimStart(s[1..]) else s
  }

  function TrimEnd(s: string): (r: string)
    ensures |r| <= |s|
  {
    if |s| > 0 && IsWhitespace(s[|s| - 1]) then TrimEnd(s[..|s| - 1]) else s
  }

  /** `trim()`: the string without its leading and trailing whitespace. */
  function Trim(s: string): (r: string)
    ensures |r| <= |s|
  {
    TrimEnd(TrimStart(s))
  }

  /** `trimStart` drops a whitespace prefix and keeps the rest, which starts
      with a non-blank character. */
  lemma {:induction false} TrimStartDrops(s: string)
    ensures var r := TrimStart(s);
            && r == s[|s| - |r|..]
            && (forall k :: 0 <= k < |s| - |r| ==> IsWhitespace(s[k]))
            && (|r| > 0 ==> !IsWhitespace(r[0]))
    decreases |s|
  {
    if |s| > 0 && IsWhitespace(s[0]) {
      TrimStartDrops(s[1..]);
    }
  }

  /** `trimEnd` drops a whitespace suffix and keeps the rest, which ends with a
      non-blank character. */
  lemma {:induction false} TrimEndDrops(s: string)
    ensures var r := TrimEnd(s);
            && r == s[..|r|]
            && (forall k :: |r| <= k < |s| ==> IsWhitespace(s[k]))
            && (|r| > 0 ==> !IsWhitespace(r[|r| - 1]))
    decreases |s|
  {
    if |s| > 0 && IsWhitespace(s[|s| - 1]) {
      TrimEndDrops(s[..|s| - 1]);
    }
  }

  /** A string that neither starts nor ends with whitespace is its own trim. */
  lemma TrimKeeps(s: string)
    requires |s| > 0 && !IsWhitespace(s[0]) && !IsWhitespace(s[|s| - 1])
    ensures Trim(s) == s
  {
    assert TrimStart(s) == s;
  }

  /** One character of `lowercase()` (the root locale), for the Latin, Latin-1
      and Cyrillic capitals. */
  function Lower(c: char): char {
    if 'A' <= c <= 'Z' then (c as int + 32) as char
    else if 'À' <= c <= 'Þ' && c != '×' then (c as int + 32) as char
    else if 'Ѐ' <= c <= 'Џ' then (c as int + 80) as char
    else if 'А' <= c <= 'Я' then (c as int + 32) as char
    else c
  }

  function Lowercase(s: string): (r: string)
    ensures |r| == |s|
  {
    if |s| == 0 then [] else [Lower(s[0])] + Lowercase(s[1..])
  }

  /** `lowercase()` maps each character on its own. */
  lemma {:induction false} LowercaseEach(s: string, t: string)
    requires |s| == |t|
    requires forall i :: 0 <= i < |s| ==> Lower(s[i]) == t[i]
    ensures Lowercase(s) == t
  {
    if |s| > 0 {
      LowercaseEach(s[1..], t[1..]);
      assert t == [t[0]] + t[1..];
    }
  }

  /** The index of the first `sep` in `s`, or -1. */
  function IndexOf(s: string, sep: char): (r: int)
    ensures -1 <= r < |s|
    ensures r >= 0 ==> s[r] == sep && sep !in s[..r]
    ensures r == -1 <==> sep !in s
  {
    Seqs.FirstWhere(s, c => c == sep)
  }

  /** `split(sep)`: the pieces between separators; n separators give n + 1 pieces. */
  function Split(s: string, sep: char): (r: seq<string>)
    ensures |r| >= 1
    ensures forall k :: 0 <= k < |r| ==> sep !in r[k]
    decreases |s|
  {
    var i := IndexOf(s, sep);
    if i < 0 then [s] else [s[..i]] + Split(s[i + 1..], sep)
  }

  /** The pieces with `sep` between each two. */
  function Join(parts: seq<string>, sep: char): string {
    if |parts| == 0 then ""
    else if |parts| == 1 then parts[0]
    else parts[0] + [sep] + Join(parts[1..], sep)
  }

  /** Splitting a piece free of `sep`, followed by `sep` and more text, cuts
      exactly after that piece. */
  lemma SplitFirst(p: string, rest: string, sep: char)
    requires sep !in p
    ensures Split(p + [sep] + rest, sep) == [p] + Split(rest, sep)
  {
    var s := p + [sep] + rest;
    assert s[|p|] == sep;
    assert s[..|p|] == p;
    assert s[|p| + 1..] == rest;
    assert IndexOf(s, sep) == |p|;
  }

  lemma {:induction false} SplitJoin(parts: seq<string>, sep: char)
    requires |parts| >= 1
    requires forall k :: 0 <= k < |parts| ==> sep !in parts[k]
    ensures Split(Join(parts, sep), sep) == parts
    decreases |parts|
  {
    if |parts| == 1 {
      assert Join(parts, sep) == parts[0];
    } else {
      SplitFirst(parts[0], Join(parts[1..], sep), sep);
      SplitJoin(parts[1..], sep);
      assert parts == [parts[0]] + parts[1..];
    }
  }

  predicate IsDigit(c: char) { '0' <= c <= '9' }

  predicate AllDigits(s: string) {
    forall i :: 0 <= i < |s| ==> IsDigit(s[i])
  }

  /** The value of a string of decimal digits. */
  function DigitsValue(s: string): (v: nat)
    requires AllDigits(s)
  {
    if |s| == 0 then 0
    else DigitsValue(s[..|s| - 1]) * 10 + (s[|s| - 1] as int - '0' as int)
  }

  function ToInt32(v: int): (r: Option<Int32>)
    ensures r.Some? <==> MinInt32 <= v <= MaxInt32
    ensures r.Some? ==> r.value == v
  {
    if MinInt32 <= v <= MaxInt32 then Some(v) else None
  }

  /** An optional sign followed by at least one decimal digit. */
  predicate IntegerText(s: string) {
    || (|s| >= 1 && AllDigits(s))
    || (|s| >= 2 && (s[0] == '-' || s[0] == '+') && AllDigits(s[1..]))
  }

  /** The value an integer text denotes. */
  function TextValue(s: string): int
    requires IntegerText(s)
  {
    if s[0] == '-' then -(DigitsValue(s[1..]) as int)
    else if s[0] == '+' then DigitsValue(s[1..])
    else DigitsValue(s)
  }

  /** `toIntOrNull()`: an optional sign followed by at least one decimal digit,
      whose value fits in an `Int`; anything else gives null. */
  function ParseInt(s: string): (r: Option<Int32>)
    ensures r.Some? ==> |s| > 0
  {
    if |s| == 0 then None
    else if s[0] == '-' || s[0] == '+' then
      if |s| == 1 || !AllDigits(s[1..]) then None
      else
        var v: int := DigitsValue(s[1..]);
        ToInt32(if s[0] == '-' then -v else v)
    else if AllDigits(s) then ToInt32(DigitsValue(s))
    else None
  }

  /** `toIntOrNull` accepts exactly the integer texts whose value fits in an
      `Int`, and yields that value. */
  lemma ParseIntSpec(s: string)
    ensures ParseInt(s).Some? <==> IntegerText(s) && MinInt32 <= TextValue(s) <= MaxInt32
    ensures ParseInt(s).Some? ==> ParseInt(s).value == TextValue(s)
  {
  }

  function Digit(d: nat): (c: char)
    requires d < 10
    ensures IsDigit(c) && c as int - '0' as int == d
  {
    ('0' as int + d) as char
  }

  function NatToString(n: nat): (s: string)
    ensures |s| >= 1 && AllDigits(s)
  {
    if n < 10 then [Digit(n)] else NatToString(n / 10) + [Digit(n % 10)]
  }

  /** `Int.toString()`: decimal, with a minus sign for negative values. */
  function IntToString(n: int): (s: string)
    ensures |s| >= 1
    ensures ',' !in s
  {
    if n < 0 then "-" + NatToString(-n) else NatToString(n)
  }

  lemma {:induction false} NatToStringValue(n: nat)
    ensures DigitsValue(NatToString(n)) == n
  {
    if n >= 10 {
      var s := NatToString(n / 10);
      NatToStringValue(n / 10);
      assert (s + [Digit(n % 10)])[..|s|] == s;
    }
  }

  /** Parsing what `toString` printed gives back the number. */
  lemma ParseIntOfString(n: Int32)
    ensures ParseInt(IntToString(n)) == Some(n)
  {
    var s := IntToString(n);
    var m: int := n;
    if m < 0 {
      var t := NatToString(-m);
      assert s == "-" + t && s[0] == '-' && s[1..] == t;
      NatToStringValue(-m);
      assert DigitsValue(s[1..]) == -m;
    } else {
      assert s == NatToString(n) && IsDigit(s[0]);
      NatToStringValue(n);
    }
  }

  /** `toString` never prints whitespace at either end, so `trim` keeps it. */
  lemma TrimIntToString(n: int)
    ensures Trim(IntToString(n)) == IntToString(n)
  {
    var s := IntToString(n);
    if n < 0 {
      assert s[|s| - 1] == NatToString(-n)[|NatToString(-n)| - 1];
    }
    assert IsDigit(s[|s| - 1]);
    TrimKeeps(s);
  }
}
