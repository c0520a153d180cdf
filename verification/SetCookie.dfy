/** Taking apart a Set-Cookie header whose values were joined by commas: a comma separates two
    cookies if a `token=x` follows, but not inside an Expires attribute, whose date has a comma. */
module SetCookie {
  import opened Text

  // ---- Patterns ----

  /** The characters of a token. */
  predicate TokenChar(c: char) {
    || '0' <= c <= '9' || 'a' <= c <= 'z' || 'A' <= c <= 'Z'
    || c in {'!', '#', '$', '%', '&', '\'', '*', '+', '-', '.', '^', '_', '`', '|', '~'}
  }

  lemma TokenCharIff(c: char)
    ensures TokenChar(c) <==> c in "!#$%&'*+-.^_`|~" || c in DIGITS || c in LOWER_CASE || c in UPPER_CASE
  {
    DigitsIff(c);
    LowerCaseIff(c);
    UpperCaseIff(c);
  }

  predicate LineEnd(c: char) { c == '\n' || c == '\r' || c == '\U{2028}' || c == '\U{2029}' }

  /** The rest of a token, an equals sign, and a character that does not end a line. */
  predicate PairRest(s: string) {
    s != "" && if TokenChar(s[0]) then PairRest(s[1..]) else s[0] == '=' && |s| > 1 && !LineEnd(s[1])
  }

  predicate PairStart(s: string) { s != "" && TokenChar(s[0]) && PairRest(s[1..]) }

  predicate IsLetter(c: char, lower: char) { c == lower || ('a' <= lower <= 'z' && c as int == lower as int - 32) }

  lemma LettersIff(c: char)
    ensures IsLetter(c, 'e') == (c in "eE") && IsLetter(c, 'x') == (c in "xX") && IsLetter(c, 'p') == (c in "pP")
        && IsLetter(c, 'i') == (c in "iI") && IsLetter(c, 'r') == (c in "rR") && IsLetter(c, 's') == (c in "sS")
  {}

  /** The attribute's name at position `i`, in any case. */
  predicate ExpiresAt(s: string, i: nat) {
    i + 8 <= |s| &&
    IsLetter(s[i], 'e') && IsLetter(s[i + 1], 'x') && IsLetter(s[i + 2], 'p') && IsLetter(s[i + 3], 'i') &&
    IsLetter(s[i + 4], 'r') && IsLetter(s[i + 5], 'e') && IsLetter(s[i + 6], 's') && s[i + 7] == '='
  }

  // ---- Splitting ----

  function Piece(s: string, space: set<char>): seq<string> {
    if Trim(s, space) == "" then [] else [Trim(s, space)]
  }

  /** What is left of the header is `rest`; `piece` has been read since the last cut. */
  function Pieces(piece: string, rest: string, inExpires: bool, space: set<char>): seq<string>
    decreases |rest|
  {
    if rest == "" then Piece(piece, space)
    else if !inExpires && ExpiresAt(rest, 0) then Pieces(piece + rest[..8], rest[8..], true, space)
    else if !inExpires && rest[0] == ',' && PairStart(TrimStart(rest[1..], space)) then
      Piece(piece, space) + Pieces("", rest[1..], false, space)
    else Pieces(piece + [rest[0]], rest[1..], inExpires && rest[0] != ';', space)
  }

  lemma Regroup(a: seq<string>, b: seq<string>, c: seq<string>)
    ensures a + (b + c) == a + b + c && a + [] == a
  {}

  /** One round of the loop, on the rest of the header. */
  lemma Step(value: string, start: nat, index: nat, inExpires: bool, space: set<char>)
    requires start <= index < |value|
    ensures var rest := value[index..]; var piece := value[start..index];
      Pieces(piece, rest, inExpires, space) ==
        if !inExpires && ExpiresAt(value, index) then Pieces(value[start..index + 8], value[index + 8..], true, space)
        else if !inExpires && value[index] == ',' && PairStart(TrimStart(value[index + 1..], space)) then
          Piece(piece, space) + Pieces(value[index + 1..index + 1], value[index + 1..], false, space)
        else Pieces(value[start..index + 1], value[index + 1..], inExpires && value[index] != ';', space)
  {
    var rest := value[index..];
    assert ExpiresAt(value, index) == ExpiresAt(rest, 0);
    if !inExpires && ExpiresAt(rest, 0) {
      assert rest[8..] == value[index + 8..] && value[start..index] + rest[..8] == value[start..index + 8];
    } else if !inExpires && rest[0] == ',' && PairStart(TrimStart(rest[1..], space)) {
      assert rest[1..] == value[index + 1..] && value[index + 1..index + 1] == "";
    } else {
      assert rest[1..] == value[index + 1..] && value[start..index] + [rest[0]] == value[start..index + 1];
    }
  }

  lemma {:induction false} TrimEndKeeps(s: string, k: nat, space: set<char>)
    requires k < |s| && s[k] !in space
    ensures |TrimEnd(s, space)| > k && TrimEnd(s, space) <= s
    decreases |s|
  {
    if s[|s| - 1] in space { TrimEndKeeps(s[..|s| - 1], k, space); }
  }

  lemma {:induction false} BlankChars(s: string, space: set<char>)
    requires Trim(s, space) == ""
    ensures forall c | c in s :: c in space
    decreases |s|
  {
    if s != "" {
      if s[0] in space {
        BlankChars(s[1..], space);
      } else {
        TrimEndKeeps(s, 0, space);
      }
    }
  }

  lemma {:induction false} BlankHasNone(piece: string, rest: string, space: set<char>)
    requires Invisible(space) && Trim(piece + rest, space) == ""
    ensures Pieces(piece, rest, false, space) == []
    decreases |rest|
  {
    BlankChars(piece + rest, space);
    if rest == "" {
      assert piece + rest == piece;
    } else {
      assert rest[0] in piece + rest && rest[0] in space;
      assert piece + rest == (piece + [rest[0]]) + rest[1..];
      BlankHasNone(piece + [rest[0]], rest[1..], space);
    }
  }

  method SplitCoalescedSetCookieHeader(value: string, space: set<char>) returns (parts: seq<string>)
    requires Invisible(space)
    ensures parts == Pieces("", value, false, space)
  {
    if Trim(value, space) == "" {
      assert "" + value == value;
      BlankHasNone("", value, space);
      return [];
    }
    parts := [];
    var start, index, inExpires := 0, 0, false;
    assert value[0..0] == "" && value[0..] == value;
    while index < |value|
      invariant start <= index <= |value|
      invariant parts + Pieces(value[start..index], value[index..], inExpires, space) == Pieces("", value, false, space)
      decreases |value| - index
    {
      Step(value, start, index, inExpires, space);
      if !inExpires && ExpiresAt(value, index) {
        inExpires := true;
        index := index + 8;
      } else if inExpires {
        if value[index] == ';' { inExpires := false; }
        index := index + 1;
      } else if value[index] != ',' || !PairStart(TrimStart(value[index + 1..], space)) {
        index := index + 1;
      } else {
        Regroup(parts, Piece(value[start..index], space),
            Pieces(value[index + 1..index + 1], value[index + 1..], false, space));
        var candidate := Trim(value[start..index], space);
        if candidate != "" { parts := parts + [candidate]; }
        index := index + 1;
        start := index;
      }
    }
    assert value[start..index] == value[start..] && value[index..] == "";
    var last := Trim(value[start..], space);
    if last != "" { parts := parts + [last]; }
  }

  // ---- Trimming ----

  lemma {:induction false} TrimStartBlank(s: string, t: string, space: set<char>)
    requires forall c | c in s :: c in space
    ensures TrimStart(s + t, space) == TrimStart(t, space)
    decreases |s|
  {
    if s == "" {
      assert s + t == t;
    } else {
      assert (s + t)[1..] == s[1..] + t;
      TrimStartBlank(s[1..], t, space);
    }
  }

  lemma {:induction false} TrimEndBlank(s: string, space: set<char>)
    requires forall c | c in s :: c in space
    ensures TrimEnd(s, space) == ""
    decreases |s|
  {
    if s != "" { TrimEndBlank(s[..|s| - 1], space); }
  }

  /** A part that begins and goes on to position `k` keeps all of that. */
  lemma TrimKeeps(s: string, k: nat, space: set<char>)
    requires k < |s| && s[0] !in space && s[k] !in space
    ensures k < |Trim(s, space)| <= |s|
  {
    TrimEndKeeps(s, k, space);
  }

  // ---- Which lists of cookies survive ----

  predicate Opens(c: string, j: nat, k: nat) {
    j + 8 <= k <= |c| && ExpiresAt(c, j) && ';' !in c[j + 8..k]
  }

  /** Position `k` belongs to an Expires attribute: its name ends before, and no semicolon since. */
  predicate InExpires(c: string, k: nat) { exists j: nat | j <= k :: Opens(c, j, k) }

  /** The comma at position `k` would be taken for the end of a cookie; `next` is what follows `c`. */
  predicate CutsAt(c: string, k: nat, next: string, space: set<char>) {
    k < |c| && c[k] == ',' && !InExpires(c, k) && PairStart(TrimStart(c[k + 1..] + next, space))
  }

  predicate Whole(c: string, next: string, space: set<char>) { forall k: nat | k < |c| :: !CutsAt(c, k, next, space) }

  /** Starts like a cookie and has no white space around it. */
  predicate IsCookie(c: string, space: set<char>) { PairStart(c) && Trimmed(c, space) }

  /** No cookie has a comma that looks like its end, and every cookie but the last has closed its
      Expires attribute. */
  predicate Separable(cs: seq<string>, space: set<char>) {
    forall i: nat | i < |cs| ::
        if i + 1 < |cs| then Whole(cs[i], ",", space) && !InExpires(cs[i], |cs[i]|) else Whole(cs[i], "", space)
  }

  /** After a whole cookie the header ends or goes on with a comma; one character tells. */
  predicate Follows(s: string, next: string) { (s == "" && next == "") || (s != "" && s[0] == ',' && next == ",") }

  lemma {:induction false} RestAhead(c: string, s: string, next: string)
    requires Follows(s, next)
    ensures PairRest(c + s) == PairRest(c + next)
  {
    if c == "" {
      assert c + s == s && c + next == next;
      assert !TokenChar(',');
    } else {
      assert (c + s)[1..] == c[1..] + s && (c + next)[1..] == c[1..] + next;
      RestAhead(c[1..], s, next);
    }
  }

  lemma {:induction false} PairAhead(c: string, s: string, next: string, space: set<char>)
    requires Follows(s, next) && Invisible(space)
    ensures PairStart(TrimStart(c + s, space)) == PairStart(TrimStart(c + next, space))
  {
    if c == "" {
      assert c + s == s && c + next == next;
      assert ',' !in space;
    } else {
      assert (c + s)[1..] == c[1..] + s && (c + next)[1..] == c[1..] + next;
      if c[0] in space { PairAhead(c[1..], s, next, space); } else { RestAhead(c[1..], s, next); }
    }
  }

  /** The scanner stands where no name of an Expires attribute has been passed halfway. */
  ghost predicate Aligned(c: string, i: nat) {
    forall j: nat | j < i < j + 8 && ExpiresAt(c, j) :: InExpires(c, j)
  }

  /** Two names do not overlap. */
  lemma Overlap(c: string, i: nat, j: nat)
    requires ExpiresAt(c, i)
    ensures i < j < i + 8 ==> !ExpiresAt(c, j)
  {}

  /** A name that starts inside the attribute that is open at `i`. */
  lemma NotBetween(c: string, j: nat, i: nat, m: nat)
    requires Opens(c, j, i) && i < |c| && m < i + 1 < m + 8 && ExpiresAt(c, m)
    ensures InExpires(c, m)
  {
    Overlap(c, j, m);
    Overlap(c, m, j);
    if j + 8 <= m {
      assert c[j + 8..i] == c[j + 8..m] + c[m..i];
      assert Opens(c, j, m);
    }
  }

  lemma Stays(c: string, i: nat)
    requires i < |c| && InExpires(c, i)
    ensures InExpires(c, i + 1) <==> c[i] != ';'
    ensures Aligned(c, i + 1)
  {
    var j: nat :| j <= i && Opens(c, j, i);
    assert c[j + 8..i + 1] == c[j + 8..i] + [c[i]];
    if c[i] != ';' { assert Opens(c, j, i + 1); }
    if InExpires(c, i + 1) {
      var m: nat :| m <= i + 1 && Opens(c, m, i + 1);
      if m + 8 <= i { assert c[i] in c[m + 8..i + 1]; } else { assert c[m + 7] == '='; }
    }
    forall m: nat | m < i + 1 < m + 8 && ExpiresAt(c, m) ensures InExpires(c, m) { NotBetween(c, j, i, m); }
  }

  lemma StillOpen(c: string, j: nat, i: nat)
    requires j < i < j + 8 && ExpiresAt(c, j) && InExpires(c, j)
    ensures InExpires(c, i)
  {
    var m: nat :| m <= j && Opens(c, m, j);
    assert c[m + 8..i] == c[m + 8..j] + c[j..i];
    assert Opens(c, m, i);
  }

  lemma Passes(c: string, i: nat)
    requires i < |c| && !InExpires(c, i) && !ExpiresAt(c, i) && Aligned(c, i)
    ensures !InExpires(c, i + 1) && Aligned(c, i + 1)
  {
    if InExpires(c, i + 1) {
      var j: nat :| j <= i + 1 && Opens(c, j, i + 1);
      if j + 8 <= i {
        assert c[j + 8..i + 1] == c[j + 8..i] + [c[i]];
        assert Opens(c, j, i);
      } else {
        StillOpen(c, j, i);
      }
    }
    forall m: nat | m < i + 1 < m + 8 && ExpiresAt(c, m) ensures InExpires(c, m) { assert m < i < m + 8; }
  }

  lemma Jumps(c: string, i: nat)
    requires ExpiresAt(c, i)
    ensures InExpires(c, i + 8) && Aligned(c, i + 8)
  {
    assert Opens(c, i, i + 8);
    forall m: nat | m < i + 8 < m + 8 ensures !ExpiresAt(c, m) { Overlap(c, i, m); }
  }

  lemma NameAhead(c: string, i: nat, s: string)
    requires i <= |c| && (s == "" || s[0] == ',')
    ensures ExpiresAt(c[i..] + s, 0) == ExpiresAt(c, i)
  {
    var rest := c[i..] + s;
    assert forall k | i <= k < |c| :: rest[k - i] == c[k];
    if s != "" { assert rest[|c| - i] == ','; }
  }

  /** What is left to do at position `i` of a cookie that `s` follows. */
  function At(c: string, i: nat, s: string, space: set<char>): seq<string>
    requires i <= |c|
  {
    Pieces(c[..i], c[i..] + s, InExpires(c, i), space)
  }

  lemma ReadsChar(c: string, i: nat, s: string, inExpires: bool, space: set<char>)
    requires i < |c| && (!inExpires
        ==> !ExpiresAt(c[i..] + s, 0) && !(c[i] == ',' && PairStart(TrimStart(c[i + 1..] + s, space))))
    ensures Pieces(c[..i], c[i..] + s, inExpires, space)
        == Pieces(c[..i + 1], c[i + 1..] + s, inExpires && c[i] != ';', space)
  {
    var rest := c[i..] + s;
    assert rest[0] == c[i] && rest[1..] == c[i + 1..] + s && c[..i] + [c[i]] == c[..i + 1];
  }

  lemma ReadsName(c: string, i: nat, s: string, space: set<char>)
    requires ExpiresAt(c, i)
    ensures Pieces(c[..i], c[i..] + s, false, space) == Pieces(c[..i + 8], c[i + 8..] + s, true, space)
  {
    var rest := c[i..] + s;
    assert ExpiresAt(rest, 0);
    assert rest[8..] == c[i + 8..] + s && c[..i] + rest[..8] == c[..i + 8];
  }

  /** One step of the scanner, over a character or a whole name. */
  lemma StepsOn(c: string, i: nat, upto: nat, s: string, next: string, space: set<char>) returns (j: nat)
    requires Follows(s, next) && Invisible(space) && i < upto <= |c| && (upto == |c| || c[upto] == ',') && Aligned(c, i)
    requires !CutsAt(c, i, next, space)
    ensures i < j <= upto && Aligned(c, j) && At(c, i, s, space) == At(c, j, s, space)
  {
    j := i + 1;
    if InExpires(c, i) {
      Stays(c, i);
      ReadsChar(c, i, s, true, space);
    } else if ExpiresAt(c, i) {
      j := i + 8;
      Jumps(c, i);
      ReadsName(c, i, s, space);
    } else {
      Passes(c, i);
      PairAhead(c[i + 1..], s, next, space);
      NameAhead(c, i, s);
      ReadsChar(c, i, s, false, space);
    }
  }

  /** The scanner passes over a stretch without a cut and arrives in the declared state. */
  lemma {:induction false} Walk(c: string, i: nat, upto: nat, s: string, next: string, space: set<char>)
    requires Follows(s, next) && Invisible(space) && i <= upto <= |c| && (upto == |c| || c[upto] == ',')
        && Aligned(c, i)
    requires forall k: nat | i <= k < upto :: !CutsAt(c, k, next, space)
    ensures At(c, i, s, space) == At(c, upto, s, space)
    decreases upto - i
  {
    if i < upto {
      var j := StepsOn(c, i, upto, s, next, space);
      Walk(c, j, upto, s, next, space);
    }
  }

  lemma AlignedStart(c: string)
    ensures Aligned(c, 0) && !InExpires(c, 0)
  {}

  lemma FromStart(c: string, upto: nat, s: string, next: string, space: set<char>)
    requires Follows(s, next) && Invisible(space) && upto <= |c| && (upto == |c| || c[upto] == ',')
    requires forall k: nat | k < upto :: !CutsAt(c, k, next, space)
    ensures Pieces("", c + s, false, space) == At(c, upto, s, space)
  {
    AlignedStart(c);
    Walk(c, 0, upto, s, next, space);
    assert c[..0] == "" && c[0..] == c;
  }

  /** A whole cookie is read to its end. */
  lemma ReadsWhole(c: string, s: string, next: string, space: set<char>)
    requires Follows(s, next) && Invisible(space) && Whole(c, next, space)
    ensures Pieces("", c + s, false, space) == Pieces(c, s, InExpires(c, |c|), space)
  {
    FromStart(c, |c|, s, next, space);
    assert c[..|c|] == c && c[|c|..] + s == s;
  }

  lemma {:induction false} FirstCut(c: string, i: nat, next: string, space: set<char>) returns (k: nat)
    requires CutsAt(c, i, next, space)
    ensures k <= i && CutsAt(c, k, next, space) && forall m: nat | m < k :: !CutsAt(c, m, next, space)
    decreases i
  {
    if m: nat :| m < i && CutsAt(c, m, next, space) {
      k := FirstCut(c, m, next, space);
    } else {
      k := i;
    }
  }

  lemma Emits(piece: string, rest: string, space: set<char>)
    requires rest != "" && rest[0] == ',' && PairStart(TrimStart(rest[1..], space)) && Trim(piece, space) != ""
    ensures Pieces(piece, rest, false, space) == [Trim(piece, space)] + Pieces("", rest[1..], false, space)
  {
    assert !ExpiresAt(rest, 0);
  }

  lemma Shortens(piece: string, rest: string, after: string, space: set<char>)
    requires rest != "" && rest[0] == ',' && rest[1..] == after && PairStart(TrimStart(after, space)) && piece != ""
        && piece[0] !in space
    ensures var r := Pieces(piece, rest, false, space); r != [] && |r[0]| <= |piece|
  {
    TrimKeeps(piece, 0, space);
    Emits(piece, rest, space);
  }

  lemma CutShortens(c: string, k: nat, s: string, next: string, space: set<char>)
    requires Follows(s, next) && Invisible(space) && IsCookie(c, space) && CutsAt(c, k, next, space)
    ensures var r := At(c, k, s, space); r != [] && |r[0]| < |c|
  {
    assert k > 0 by { assert !TokenChar(','); }
    PairAhead(c[k + 1..], s, next, space);
    assert (c[k..] + s)[1..] == c[k + 1..] + s;
    Shortens(c[..k], c[k..] + s, c[k + 1..] + s, space);
  }

  /** A cookie that is not whole comes out shorter. */
  lemma BreaksUp(c: string, s: string, next: string, space: set<char>)
    requires Follows(s, next) && Invisible(space) && IsCookie(c, space) && !Whole(c, next, space)
    ensures var r := Pieces("", c + s, false, space); r != [] && r[0] != c
  {
    var i: nat :| i < |c| && CutsAt(c, i, next, space);
    var k := FirstCut(c, i, next, space);
    FromStart(c, k, s, next, space);
    CutShortens(c, k, s, next, space);
  }

  /** What has been read is in the next piece, whatever follows. */
  lemma {:induction false} Swallows(piece: string, k: nat, rest: string, inExpires: bool, space: set<char>)
    requires k < |piece| && piece[0] !in space && piece[k] !in space
    ensures var r := Pieces(piece, rest, inExpires, space); r != [] && |r[0]| > k
    decreases |rest|
  {
    TrimKeeps(piece, k, space);
    if rest == "" {
    } else if !inExpires && ExpiresAt(rest, 0) {
      Swallows(piece + rest[..8], k, rest[8..], true, space);
    } else if !inExpires && rest[0] == ',' && PairStart(TrimStart(rest[1..], space)) {
    } else {
      Swallows(piece + [rest[0]], k, rest[1..], inExpires && rest[0] != ';', space);
    }
  }

  /** White space before a piece does not matter. */
  lemma {:induction false} LeadingSpace(a: char, piece: string, rest: string, inExpires: bool, space: set<char>)
    requires a in space
    ensures Pieces([a] + piece, rest, inExpires, space) == Pieces(piece, rest, inExpires, space)
    decreases |rest|
  {
    assert ([a] + piece)[1..] == piece;
    if rest == "" {
    } else if !inExpires && ExpiresAt(rest, 0) {
      assert [a] + piece + rest[..8] == [a] + (piece + rest[..8]);
      LeadingSpace(a, piece + rest[..8], rest[8..], true, space);
    } else if !inExpires && rest[0] == ',' && PairStart(TrimStart(rest[1..], space)) {
    } else {
      assert [a] + piece + [rest[0]] == [a] + (piece + [rest[0]]);
      LeadingSpace(a, piece + [rest[0]], rest[1..], inExpires && rest[0] != ';', space);
    }
  }

  lemma {:induction false} PairStartsLonger(c: string, s: string)
    requires PairRest(c)
    ensures PairRest(c + s)
  {
    assert (c + s)[1..] == c[1..] + s;
    if TokenChar(c[0]) { PairStartsLonger(c[1..], s); }
  }

  /** The comma after a cookie that has closed its Expires attribute is a cut. */
  lemma Separates(c: string, d: string, more: string, space: set<char>)
    requires Invisible(space) && ' ' in space && IsCookie(c, space) && IsCookie(d, space)
    ensures Pieces(c, ", " + (d + more), false, space) == [c] + Pieces("", d + more, false, space)
  {
    var rest := ", " + (d + more);
    assert rest[1..] == " " + (d + more) && rest[1..][1..] == d + more;
    assert (d + more)[0] == d[0] && (d + more)[1..] == d[1..] + more;
    PairStartsLonger(d[1..], more);
    assert TrimStart(rest[1..], space) == d + more;
    TrimTrimmed(c, space);
    Emits(c, rest, space);
    assert " " + (d + more) != "" && !ExpiresAt(" " + (d + more), 0);
    LeadingSpace(' ', "", d + more, false, space);
    assert [' '] + "" == "" + [' '];
  }

  lemma JoinStarts(cs: seq<string>)
    requires |cs| >= 2
    ensures var j := Join(cs[1..], ", ");
      cs[1] <= j && j == cs[1] + j[|cs[1]|..] && Join(cs, ", ") == cs[0] + (", " + (cs[1] + j[|cs[1]|..]))
  {
    var j := Join(cs[1..], ", ");
    if |cs| == 2 { assert cs[1..] == [cs[1]]; }
    assert cs[0] + ", " + j == cs[0] + (", " + j);
  }

  lemma OneCookie(c: string, space: set<char>)
    requires Invisible(space) && IsCookie(c, space)
    ensures Pieces("", c, false, space) == [c] <==> Whole(c, "", space)
  {
    assert c + "" == c;
    if Whole(c, "", space) {
      ReadsWhole(c, "", "", space);
      TrimTrimmed(c, space);
    } else {
      BreaksUp(c, "", "", space);
    }
  }

  lemma SeparableTail(cs: seq<string>, space: set<char>)
    requires |cs| >= 2
    ensures Separable(cs, space)
        <==> Whole(cs[0], ",", space) && !InExpires(cs[0], |cs[0]|) && Separable(cs[1..], space)
  {
    var rest := cs[1..];
    if Separable(cs, space) {
      forall i: nat | i < |rest|
        ensures if i + 1 < |rest| then Whole(rest[i], ",", space) && !InExpires(rest[i], |rest[i]|)
            else Whole(rest[i], "", space)
      {
        assert rest[i] == cs[i + 1];
      }
    }
    if Whole(cs[0], ",", space) && !InExpires(cs[0], |cs[0]|) && Separable(rest, space) {
      forall i: nat | i < |cs|
        ensures if i + 1 < |cs| then Whole(cs[i], ",", space) && !InExpires(cs[i], |cs[i]|) else Whole(cs[i], "", space)
      {
        if i > 0 { assert cs[i] == rest[i - 1]; }
      }
    }
  }

  lemma FirstCookie(c: string, d: string, more: string, space: set<char>)
    requires Invisible(space) && ' ' in space && IsCookie(c, space) && IsCookie(d, space)
    ensures var r := Pieces("", c + (", " + (d + more)), false, space);
      if Whole(c, ",", space) && !InExpires(c, |c|) then r == [c] + Pieces("", d + more, false, space)
      else r != [] && r[0] != c
  {
    var s := ", " + (d + more);
    if !Whole(c, ",", space) {
      BreaksUp(c, s, ",", space);
    } else {
      ReadsWhole(c, s, ",", space);
      if InExpires(c, |c|) {
        assert Pieces(c, s, true, space) == Pieces(c + [s[0]], s[1..], true, space);
        Swallows(c + [','], |c|, s[1..], true, space);
      } else {
        Separates(c, d, more, space);
      }
    }
  }

  /** Splitting undoes joining with a comma and a space exactly for separable cookies. */
  lemma {:induction false} SplitUndoesJoin(cs: seq<string>, space: set<char>)
    requires Invisible(space) && ' ' in space && forall c | c in cs :: IsCookie(c, space)
    ensures Pieces("", Join(cs, ", "), false, space) == cs <==> Separable(cs, space)
    decreases |cs|
  {
    if cs == [] {
    } else if |cs| == 1 {
      OneCookie(cs[0], space);
      assert cs == [cs[0]];
      assert Separable(cs, space) <==> Whole(cs[0], "", space);
    } else {
      SplitUndoesJoin(cs[1..], space);
      SeparableTail(cs, space);
      var j := Join(cs[1..], ", ");
      JoinStarts(cs);
      FirstCookie(cs[0], cs[1], j[|cs[1]|..], space);
      assert cs == [cs[0]] + cs[1..];
    }
  }

  /** An Expires attribute that its cookie does not close swallows the next cookie. */
  lemma UnclosedExpiresJoins(c: string, d: string, k: nat, space: set<char>)
    requires Invisible(space) && ' ' in space && IsCookie(c, space) && IsCookie(d, space)
    requires ExpiresAt(c, k) && ';' !in c[k + 8..]
    ensures Pieces("", Join([c, d], ", "), false, space) != [c, d]
  {
    assert c[k + 8..|c|] == c[k + 8..];
    assert Opens(c, k, |c|);
    var cs := [c, d];
    assert cs[0] == c && InExpires(cs[0], |cs[0]|);
    SplitUndoesJoin(cs, space);
  }

  lemma UnclosedExample(space: set<char>)
    requires Invisible(space) && ' ' in space
    ensures Pieces("", Join(["a=1; expires=0", "b=2"], ", "), false, space) != ["a=1; expires=0", "b=2"]
  {
    var c := "a=1; expires=0";
    assert c[13..] == "0";
    assert IsCookie(c, space) by { assert c[1..][0] == '='; }
    assert IsCookie("b=2", space) by { assert "b=2"[1..][0] == '='; }
    UnclosedExpiresJoins(c, "b=2", 5, space);
  }
}
