/** Strings as the programs see them: white space, lines, decimal numbers. */
module Text {
  import opened Prelude

  /** What `str.strip` of Python removes. */
  const PYTHON_SPACE: set<char> := {
    ' ', '\t', '\n', '\U{0b}', '\U{0c}', '\r', '\U{1c}', '\U{1d}', '\U{1e}', '\U{1f}', '\U{85}', '\U{a0}', '\U{1680}',
    '\U{2000}', '\U{2001}', '\U{2002}', '\U{2003}', '\U{2004}', '\U{2005}', '\U{2006}', '\U{2007}', '\U{2008}',
    '\U{2009}', '\U{200a}', '\U{2028}', '\U{2029}', '\U{202f}', '\U{205f}', '\U{3000}' }

  /** What `strings.TrimSpace` of Go removes. */
  const GO_SPACE: set<char> := PYTHON_SPACE - {'\U{1c}', '\U{1d}', '\U{1e}', '\U{1f}'}

  /** What `trim` of JavaScript removes. */
  const JAVASCRIPT_SPACE: set<char> := GO_SPACE - {'\U{85}'} + {'\U{feff}'}

  /** White space has no visible character of ASCII; all that follows needs no more than this. */
  predicate Invisible(space: set<char>) { forall c | c in space :: !('!' <= c <= '~') }

  lemma SpacesInvisible()
    ensures Invisible(PYTHON_SPACE) && Invisible(GO_SPACE) && Invisible(JAVASCRIPT_SPACE)
  {}

  function TrimStart(s: string, space: set<char>): string {
    if s != "" && s[0] in space then TrimStart(s[1..], space) else s
  }

  function TrimEnd(s: string, space: set<char>): string {
    if s != "" && s[|s| - 1] in space then TrimEnd(s[..|s| - 1], space) else s
  }

  function Trim(s: string, space: set<char>): string { TrimEnd(TrimStart(s, space), space) }

  /** No white space at either end. */
  predicate Trimmed(s: string, space: set<char>) { s == "" || (s[0] !in space && s[|s| - 1] !in space) }

  lemma TrimTrimmed(s: string, space: set<char>)
    requires Trimmed(s, space)
    ensures Trim(s, space) == s
  {}

  lemma {:induction false} TrimStartMeans(s: string, space: set<char>) returns (front: string)
    ensures s == front + TrimStart(s, space) && forall c | c in front :: c in space
    ensures TrimStart(s, space) == "" || TrimStart(s, space)[0] !in space
  {
    if s != "" && s[0] in space {
      var rest := TrimStartMeans(s[1..], space);
      front := [s[0]] + rest;
    } else {
      front := "";
    }
  }

  lemma {:induction false} TrimEndMeans(s: string, space: set<char>) returns (back: string)
    ensures s == TrimEnd(s, space) + back && forall c | c in back :: c in space
    ensures TrimEnd(s, space) == "" || TrimEnd(s, space)[|TrimEnd(s, space)| - 1] !in space
  {
    if s != "" && s[|s| - 1] in space {
      var rest := TrimEndMeans(s[..|s| - 1], space);
      back := rest + [s[|s| - 1]];
    } else {
      back := "";
    }
  }

  /** Trimming takes white space away at both ends, all of it and nothing else. */
  lemma TrimMeans(s: string, space: set<char>) returns (front: string, back: string)
    ensures s == front + Trim(s, space) + back && Trimmed(Trim(s, space), space)
    ensures (forall c | c in front :: c in space) && forall c | c in back :: c in space
  {
    front := TrimStartMeans(s, space);
    back := TrimEndMeans(TrimStart(s, space), space);
  }

  /** A text is blank exactly if trimming leaves nothing. */
  lemma BlankIff(s: string, space: set<char>)
    ensures Trim(s, space) == "" <==> forall c | c in s :: c in space
  {
    var front, back := TrimMeans(s, space);
    if Trim(s, space) != "" { assert Trim(s, space)[0] in s; }
  }

  function Count(s: string, c: char): nat {
    if s == "" then 0 else (if s[0] == c then 1 else 0) + Count(s[1..], c)
  }

  lemma {:induction false} CountConcat(s: string, t: string, c: char)
    ensures Count(s + t, c) == Count(s, c) + Count(t, c)
  {
    if s == "" {
      assert s + t == t;
    } else {
      assert (s + t)[1..] == s[1..] + t;
      CountConcat(s[1..], t, c);
    }
  }

  lemma {:induction false} CountNone(s: string, c: char)
    ensures Count(s, c) == 0 <==> c !in s
  {
    if s != "" { CountNone(s[1..], c); }
  }

  predicate HasSuffix(s: string, t: string) { |s| >= |t| && s[|s| - |t|..] == t }

  const DIGITS := "0123456789"
  const LOWER_CASE := "abcdefghijklmnopqrstuvwxyz"
  const UPPER_CASE := "ABCDEFGHIJKLMNOPQRSTUVWXYZ"

  lemma LowerCaseIff(c: char)
    ensures c in LOWER_CASE <==> 'a' <= c <= 'z'
  {}

  lemma UpperCaseIff(c: char)
    ensures c in UPPER_CASE <==> 'A' <= c <= 'Z'
  {}

  lemma DigitsIff(c: char)
    ensures c in DIGITS <==> '0' <= c <= '9'
  {}

  predicate OccursAt(s: string, t: string, i: int) { 0 <= i <= |s| - |t| && s[i..i + |t|] == t }

  predicate Contains(s: string, t: string) { exists i | 0 <= i <= |s| :: OccursAt(s, t, i) }

  lemma ContainsIff(s: string, t: string)
    ensures Contains(s, t) <==> exists pre: string, post: string :: s == pre + t + post
  {
    if i :| 0 <= i <= |s| && OccursAt(s, t, i) {
      assert s == s[..i] + t + s[i + |t|..];
    }
    if pre: string, post: string :| s == pre + t + post {
      assert s[|pre|..|pre| + |t|] == t;
      assert OccursAt(s, t, |pre|);
    }
  }

  /** What comes before the first `c`, or everything. */
  function Before(s: string, c: char): (p: string)
    ensures p <= s && c !in p
    ensures |p| < |s| ==> s[|p|] == c
  {
    if s == "" || s[0] == c then "" else [s[0]] + Before(s[1..], c)
  }

  /** What comes after the first `c`, or nothing. */
  function After(s: string, c: char): string {
    if Before(s, c) == s then "" else s[|Before(s, c)| + 1..]
  }

  lemma {:induction false} BeforeConcat(s: string, t: string, c: char)
    requires c !in s && (t == "" || t[0] == c)
    ensures Before(s + t, c) == s
  {
    if s == "" {
      assert s + t == t;
    } else {
      assert (s + t)[1..] == s[1..] + t;
      BeforeConcat(s[1..], t, c);
    }
  }

  // ---- Joining and splitting ----

  function Join(parts: seq<string>, separator: string): string {
    if parts == [] then "" else if |parts| == 1 then parts[0] else parts[0] + separator + Join(parts[1..], separator)
  }

  /** The pieces between the occurrences of `c`. */
  function Split(s: string, c: char): (parts: seq<string>)
    ensures parts != []
  {
    if s == "" then [""]
    else
      var rest := Split(s[1..], c);
      if s[0] == c then [""] + rest else [[s[0]] + rest[0]] + rest[1..]
  }

  lemma {:induction false} SplitFirst(s: string, t: string, c: char)
    requires c !in s
    ensures Split(s, c) == [s]
    ensures Split(s + [c] + t, c) == [s] + Split(t, c)
  {
    if s == "" {
      assert s + [c] + t == [c] + t;
    } else {
      SplitFirst(s[1..], t, c);
      assert s == [s[0]] + s[1..];
      assert (s + [c] + t)[1..] == s[1..] + [c] + t;
    }
  }

  /** Splitting undoes joining when no part has the separator. */
  lemma {:induction false} SplitJoin(parts: seq<string>, c: char)
    requires parts != [] && forall p | p in parts :: c !in p
    ensures Split(Join(parts, [c]), c) == parts
    decreases |parts|
  {
    if |parts| == 1 {
      SplitFirst(parts[0], "", c);
    } else {
      var rest := Join(parts[1..], [c]);
      SplitJoin(parts[1..], c);
      SplitFirst(parts[0], rest, c);
      calc {
        Split(Join(parts, [c]), c);
        { assert Join(parts, [c]) == parts[0] + [c] + rest; }
        Split(parts[0] + [c] + rest, c);
        [parts[0]] + Split(rest, c);
        [parts[0]] + parts[1..];
        parts;
      }
    }
  }

  // ---- Decimal numbers ----

  predicate Digit(c: char) { '0' <= c <= '9' }

  predicate AllDigits(s: string) { forall c | c in s :: Digit(c) }

  function Decimal(n: nat): (s: string)
    ensures s != "" && AllDigits(s)
  {
    (if n < 10 then "" else Decimal(n / 10)) + [('0' as int + n % 10) as char]
  }

  function Print(n: int): string { if n < 0 then "-" + Decimal(-n) else Decimal(n) }

  function Value(s: string): nat
    requires AllDigits(s)
  {
    if s == "" then 0 else
    assert Digit(s[|s| - 1]);
    Value(s[..|s| - 1]) * 10 + (s[|s| - 1] as int - '0' as int)
  }

  function Unsigned(s: string): string {
    if s != "" && (s[0] == '+' || s[0] == '-') then s[1..] else s
  }

  /** A 64-bit integer in base ten, with an optional sign, as `strconv.ParseInt` reads it. */
  function ParseInt(s: string): Option<int> {
    if Unsigned(s) == "" || !AllDigits(Unsigned(s)) then None
    else
      var n := if s[0] == '-' then 0 - Value(Unsigned(s)) else Value(Unsigned(s));
      if -0x8000_0000_0000_0000 <= n < 0x8000_0000_0000_0000 then Some(n) else None
  }

  lemma {:induction false} ValueOfDecimal(n: nat)
    ensures Value(Decimal(n)) == n
  {
    var s := Decimal(n);
    assert s[|s| - 1] as int - '0' as int == n % 10;
    if n >= 10 {
      ValueOfDecimal(n / 10);
      assert s[..|s| - 1] == Decimal(n / 10);
    }
  }

  lemma ParseSigned(s: string, d: string, v: int)
    requires d != "" && AllDigits(d) && Value(d) == v && (s == "-" + d || s == d)
    requires -0x8000_0000_0000_0000 < v < 0x8000_0000_0000_0000 || (v == 0x8000_0000_0000_0000 && s != d)
    ensures ParseInt(s) == Some(if s == d then v else -v)
  {
    assert Digit(d[0]);
  }

  lemma ParsePrint(n: int)
    requires -0x8000_0000_0000_0000 <= n < 0x8000_0000_0000_0000
    ensures ParseInt(Print(n)) == Some(n)
  {
    var d := Decimal(if n < 0 then -n else n);
    ValueOfDecimal(if n < 0 then -n else n);
    if n < 0 { assert |"-" + d| != |d|; }
    ParseSigned(Print(n), d, if n < 0 then -n else n);
  }
}
