/** The guard's handling of text and bytes: reading git's list of changes, showing paths without
    surprising characters, and reading files up to a bound. */
module GuardText {
  import opened Prelude
  import opened Text

  // ---- The list of changes ----

  datatype Change = Change(status: char, path: string, source: Option<string>)
  {
    /** A rename or copy has a source, and nothing else has. */
    predicate Valid() {
      && path != "" && '\0' !in path
      && (if status == 'R' || status == 'C' then source.Some? && source.value != "" && '\0' !in source.value
          else (status == 'A' || status == 'M' || status == 'D' || status == 'T') && source.None?)
    }
  }

  /** A change as git prints it: the score follows the status. */
  datatype Entry = Entry(change: Change, score: string)
  {
    predicate Valid() { change.Valid() && '\0' !in score }
    function Tokens(): seq<string> {
      [[change.status] + score] + (if change.source.Some? then [change.source.value] else []) + [change.path]
    }
  }

  function Flat(entries: seq<Entry>): seq<string> {
    if entries == [] then [] else entries[0].Tokens() + Flat(entries[1..])
  }

  function Changes(entries: seq<Entry>): seq<Change> {
    if entries == [] then [] else [entries[0].change] + Changes(entries[1..])
  }

  /** With `-z`, every token is followed by a NUL character. */
  function Print(tokens: seq<string>): string {
    if tokens == [] then "" else tokens[0] + "\0" + Print(tokens[1..])
  }

  function NonEmpty(tokens: seq<string>): seq<string> {
    if tokens == [] then [] else (if tokens[0] == "" then [] else [tokens[0]]) + NonEmpty(tokens[1..])
  }

  function TokensOf(output: string): seq<string> { NonEmpty(Split(output, '\0')) }

  function Prepend(c: Change, r: Result<seq<Change>, ()>): Result<seq<Change>, ()> {
    if r.Ok? then Ok([c] + r.value) else r
  }

  function Parse(tokens: seq<string>): Result<seq<Change>, ()> {
    if tokens == [] then Ok([])
    else if tokens[0] == "" then Err(())
    else
      var status := tokens[0][0];
      if status == 'R' || status == 'C' then
        if |tokens| < 3 then Err(()) else Prepend(Change(status, tokens[2], Some(tokens[1])), Parse(tokens[3..]))
      else if status == 'A' || status == 'M' || status == 'D' || status == 'T' then
        if |tokens| < 2 then Err(()) else Prepend(Change(status, tokens[1], None), Parse(tokens[2..]))
      else Err(())
  }

  function Extend(before: seq<Change>, r: Result<seq<Change>, ()>): Result<seq<Change>, ()> {
    if r.Ok? then Ok(before + r.value) else r
  }

  lemma ExtendPrepend(before: seq<Change>, c: Change, r: Result<seq<Change>, ()>)
    ensures Extend(before, Prepend(c, r)) == Extend(before + [c], r)
  {
    if r.Ok? { assert before + ([c] + r.value) == before + [c] + r.value; }
  }

  /** What the parser reads at position `i` of the tokens. */
  lemma ParseAt(tokens: seq<string>, i: nat)
    requires i < |tokens| && tokens[i] != ""
    ensures var status := tokens[i][0];
      Parse(tokens[i..]) ==
        if status == 'R' || status == 'C' then
          if i + 2 >= |tokens| then Err(())
          else Prepend(Change(status, tokens[i + 2], Some(tokens[i + 1])), Parse(tokens[i + 3..]))
        else if status == 'A' || status == 'M' || status == 'D' || status == 'T' then
          if i + 1 >= |tokens| then Err(()) else Prepend(Change(status, tokens[i + 1], None), Parse(tokens[i + 2..]))
        else Err(())
  {
    var rest := tokens[i..];
    if i + 1 < |tokens| { assert rest[2..] == tokens[i + 2..]; }
    if i + 2 < |tokens| { assert rest[3..] == tokens[i + 3..]; }
  }

  lemma ExtendNothing(r: Result<seq<Change>, ()>)
    ensures Extend([], r) == r
  {
    if r.Ok? { assert [] + r.value == r.value; }
  }

  lemma ParseWhole(tokens: seq<string>)
    ensures Parse(tokens) == Extend([], Parse(tokens[0..]))
  {
    assert tokens[0..] == tokens;
    ExtendNothing(Parse(tokens));
  }

  method ParseNameStatus(output: string) returns (r: Result<seq<Change>, ()>)
    ensures r == Parse(TokensOf(output))
  {
    var tokens := TokensOf(output);
    var changes: seq<Change>, index := [], 0;
    ParseWhole(tokens);
    while index < |tokens|
      invariant index <= |tokens| && Parse(tokens) == Extend(changes, Parse(tokens[index..]))
      decreases |tokens| - index
    {
      var token := tokens[index];
      if token == "" { return Err(()); }
      ParseAt(tokens, index);
      index := index + 1;
      var status := token[0];
      var change: Change;
      if status == 'R' || status == 'C' {
        if index + 1 >= |tokens| { return Err(()); }
        change := Change(status, tokens[index + 1], Some(tokens[index]));
        index := index + 2;
      } else if status == 'A' || status == 'M' || status == 'D' || status == 'T' {
        if index >= |tokens| { return Err(()); }
        change := Change(status, tokens[index], None);
        index := index + 1;
      } else {
        return Err(());
      }
      ExtendPrepend(changes, change, Parse(tokens[index..]));
      changes := changes + [change];
    }
    assert changes + [] == changes;
    r := Ok(changes);
  }

  lemma {:induction false} SplitPrint(tokens: seq<string>)
    requires forall i | 0 <= i < |tokens| :: tokens[i] != "" && '\0' !in tokens[i]
    ensures TokensOf(Print(tokens)) == tokens
    decreases |tokens|
  {
    if tokens != [] {
      SplitPrint(tokens[1..]);
      SplitFirst(tokens[0], Print(tokens[1..]), '\0');
      assert ([tokens[0]] + Split(Print(tokens[1..]), '\0'))[1..] == Split(Print(tokens[1..]), '\0');
      assert tokens == [tokens[0]] + tokens[1..];
    }
  }

  lemma {:induction false} FlatTokens(entries: seq<Entry>)
    requires forall i | 0 <= i < |entries| :: entries[i].Valid()
    ensures forall i | 0 <= i < |Flat(entries)| :: Flat(entries)[i] != "" && '\0' !in Flat(entries)[i]
    decreases |entries|
  {
    if entries != [] { FlatTokens(entries[1..]); }
  }

  lemma {:induction false} ParseFlat(entries: seq<Entry>)
    requires forall i | 0 <= i < |entries| :: entries[i].Valid()
    ensures Parse(Flat(entries)) == Ok(Changes(entries))
    decreases |entries|
  {
    if entries != [] {
      ParseFlat(entries[1..]);
      var e, rest := entries[0], Flat(entries[1..]);
      assert Flat(entries)[|e.Tokens()|..] == rest;
    }
  }

  /** Parsing inverts printing, for every list of changes and every choice of scores. */
  lemma ParseInvertsPrint(entries: seq<Entry>)
    requires forall i | 0 <= i < |entries| :: entries[i].Valid()
    ensures Parse(TokensOf(Print(Flat(entries)))) == Ok(Changes(entries))
  {
    FlatTokens(entries);
    SplitPrint(Flat(entries));
    ParseFlat(entries);
  }

  /** And nothing else is accepted: whatever parses is the printed form of what it is parsed to. */
  lemma {:induction false} AcceptedIsPrinted(tokens: seq<string>) returns (entries: seq<Entry>)
    requires forall i | 0 <= i < |tokens| :: tokens[i] != "" && '\0' !in tokens[i]
    requires Parse(tokens).Ok?
    ensures Flat(entries) == tokens && Changes(entries) == Parse(tokens).value
    ensures forall i | 0 <= i < |entries| :: entries[i].Valid()
    decreases |tokens|
  {
    if tokens == [] {
      entries := [];
    } else {
      var status := tokens[0][0];
      var renamed := status == 'R' || status == 'C';
      var n := if renamed then 3 else 2;
      var rest := AcceptedIsPrinted(tokens[n..]);
      var change := if renamed then Change(status, tokens[2], Some(tokens[1])) else Change(status, tokens[1], None);
      var first := Entry(change, tokens[0][1..]);
      assert [status] + tokens[0][1..] == tokens[0];
      assert first.Tokens() == tokens[..n];
      entries := [first] + rest;
      assert entries[1..] == rest && tokens == tokens[..n] + tokens[n..];
    }
  }

  lemma {:induction false} SplitClean(s: string)
    ensures forall i | 0 <= i < |Split(s, '\0')| :: '\0' !in Split(s, '\0')[i]
  {
    if s != "" { SplitClean(s[1..]); }
  }

  lemma {:induction false} NonEmptyClean(parts: seq<string>)
    requires forall i | 0 <= i < |parts| :: '\0' !in parts[i]
    ensures forall i | 0 <= i < |NonEmpty(parts)| :: NonEmpty(parts)[i] != "" && '\0' !in NonEmpty(parts)[i]
  {
    if parts != [] { NonEmptyClean(parts[1..]); }
  }

  lemma {:induction false} TokensClean(output: string)
    ensures forall i | 0 <= i < |TokensOf(output)| :: TokensOf(output)[i] != "" && '\0' !in TokensOf(output)[i]
  {
    SplitClean(output);
    NonEmptyClean(Split(output, '\0'));
  }

  /** For any output at all: it is accepted only if its tokens, the empty ones dropped, are those of
      some valid changes. */
  lemma OnlyPrintedAccepted(output: string) returns (entries: seq<Entry>)
    requires Parse(TokensOf(output)).Ok?
    ensures TokensOf(output) == Flat(entries) && Parse(TokensOf(output)) == Ok(Changes(entries))
    ensures forall i | 0 <= i < |entries| :: entries[i].Valid()
  {
    TokensClean(output);
    entries := AcceptedIsPrinted(TokensOf(output));
  }

  /** No empty token: the output ends with a NUL, if it is not empty, and has none at its start or
      after another. */
  predicate Tidy(output: string) {
    && (output == "" || output[|output| - 1] == '\0')
    && forall i | 0 <= i < |output| && output[i] == '\0' :: i > 0 && output[i - 1] != '\0'
  }

  predicate Printed(output: string, entries: seq<Entry>) {
    (forall i | 0 <= i < |entries| :: entries[i].Valid()) && output == Print(Flat(entries))
  }

  lemma {:induction false} PrintTidy(tokens: seq<string>)
    requires forall i | 0 <= i < |tokens| :: tokens[i] != "" && '\0' !in tokens[i]
    ensures Tidy(Print(tokens))
    decreases |tokens|
  {
    if tokens != [] {
      var t, rest := tokens[0], Print(tokens[1..]);
      PrintTidy(tokens[1..]);
      var s := Print(tokens);
      assert s == t + "\0" + rest;
      assert forall k | 0 <= k < |t| :: s[k] in t;
      forall i | 0 <= i < |s| && s[i] == '\0' ensures i > 0 && s[i - 1] != '\0' {
        if i > |t| { assert rest[i - |t| - 1] == '\0'; }
      }
    }
  }

  lemma TidyRest(output: string, k: nat)
    requires Tidy(output) && 0 < k <= |output| && output[k - 1] == '\0'
    ensures Tidy(output[k..])
  {
    var rest := output[k..];
    forall i | 0 <= i < |rest| && rest[i] == '\0' ensures i > 0 && rest[i - 1] != '\0' {
      assert output[k + i] == '\0';
    }
  }

  lemma {:induction false} TidyPrinted(output: string)
    requires Tidy(output)
    ensures Print(TokensOf(output)) == output
    decreases |output|
  {
    if output != "" {
      var t := Before(output, '\0');
      assert t != output by { assert output[|output| - 1] in output; }
      var rest := output[|t| + 1..];
      assert output == t + "\0" + rest;
      assert Tidy(rest) by { TidyRest(output, |t| + 1); }
      TidyPrinted(rest);
      SplitFirst(t, rest, '\0');
      assert t != "";
      assert ([t] + Split(rest, '\0'))[1..] == Split(rest, '\0');
      assert TokensOf(output) == [t] + TokensOf(rest);
    }
  }

  /** An accepted output is itself the printed form of some valid changes exactly if it has no empty tokens. */
  lemma PrintedExactly(output: string)
    requires Parse(TokensOf(output)).Ok?
    ensures (exists entries :: Printed(output, entries)) <==> Tidy(output)
  {
    if entries :| Printed(output, entries) {
      FlatTokens(entries);
      PrintTidy(Flat(entries));
    }
    if Tidy(output) {
      var entries := OnlyPrintedAccepted(output);
      TidyPrinted(output);
      assert Printed(output, entries);
    }
  }

  // ---- Showing a path ----

  predicate SafeChar(c: char) {
    'a' <= c <= 'z' || 'A' <= c <= 'Z' || '0' <= c <= '9' || c == '.' || c == '_' || c == '/' || c == '-'
  }

  lemma SafeCharIff(c: char)
    ensures SafeChar(c) <==> c in "./_-" || c in DIGITS || c in LOWER_CASE || c in UPPER_CASE
  {
    DigitsIff(c);
    LowerCaseIff(c);
    UpperCaseIff(c);
  }

  function HexDigit(d: nat): char
    requires d < 16
  {
    if d < 10 then ('0' as int + d) as char else ('a' as int + d - 10) as char
  }

  function DigitValue(c: char): nat {
    if '0' <= c <= '9' then c as int - '0' as int else if 'a' <= c <= 'f' then c as int - 'a' as int + 10 else 0
  }

  function Hex(n: nat, width: nat): (s: string)
    ensures |s| == width && forall c | c in s :: SafeChar(c)
  {
    if width == 0 then "" else Hex(n / 16, width - 1) + [HexDigit(n % 16)]
  }

  function HexValue(s: string): nat {
    if s == "" then 0 else HexValue(s[..|s| - 1]) * 16 + DigitValue(s[|s| - 1])
  }

  function Capacity(width: nat): nat { if width == 0 then 1 else 16 * Capacity(width - 1) }

  lemma {:induction false} HexRoundTrip(n: nat, width: nat)
    requires n < Capacity(width)
    ensures HexValue(Hex(n, width)) == n
  {
    if width > 0 {
      HexRoundTrip(n / 16, width - 1);
      var s := Hex(n, width);
      assert s[..|s| - 1] == Hex(n / 16, width - 1);
    }
  }

  function EscapeCodepoint(code: nat): string {
    if code <= 0xFF then "\\x" + Hex(code, 2) else if code <= 0xFFFF then "\\u" + Hex(code, 4) else "\\U" + Hex(code, 8)
  }

  function Shown(c: char): string { if SafeChar(c) then [c] else EscapeCodepoint(c as int) }

  function Display(path: string): string {
    if path == "" then "" else Display(path[..|path| - 1]) + Shown(path[|path| - 1])
  }

  method DisplayPath(path: string) returns (shown: string)
    ensures shown == Display(path)
  {
    shown := "";
    var n := 0;
    while n < |path|
      invariant n <= |path| && shown == Display(path[..n])
    {
      assert path[..n + 1][..n] == path[..n];
      if SafeChar(path[n]) { shown := shown + [path[n]]; } else { shown := shown + EscapeCodepoint(path[n] as int); }
      n := n + 1;
    }
    assert path[..n] == path;
  }

  function Width(c: char): nat { if c == 'x' then 2 else if c == 'u' then 4 else 8 }

  predicate IsCode(n: nat) { n < 0xD800 || 0xE000 <= n < 0x11_0000 }

  function More(c: char, rest: Option<string>): Option<string> {
    if rest.Some? then Some([c] + rest.value) else None
  }

  /** Reads a shown path back; nothing if it is not one. */
  function Read(shown: string): Option<string> {
    if shown == "" then Some("")
    else if shown[0] != '\\' then More(shown[0], Read(shown[1..]))
    else if |shown| < 2 || |shown| < 2 + Width(shown[1]) then None
    else
      var w := Width(shown[1]);
      var n := HexValue(shown[2..2 + w]);
      if IsCode(n) then More(n as char, Read(shown[2 + w..])) else None
  }

  lemma Capacities()
    ensures Capacity(2) == 0x100 && Capacity(4) == 0x1_0000 && Capacity(8) == 0x1_0000_0000
  {}

  lemma ReadShown(c: char, rest: string)
    ensures Read(Shown(c) + rest) == More(c, Read(rest))
  {
    var s := Shown(c) + rest;
    if SafeChar(c) {
      assert s[1..] == rest;
    } else {
      var n := c as int;
      var w := if n <= 0xFF then 2 else if n <= 0xFFFF then 4 else 8;
      Capacities();
      HexRoundTrip(n, w);
      assert s[0] == '\\' && Width(s[1]) == w;
      assert s[2..2 + w] == Hex(n, w) && s[2 + w..] == rest;
    }
  }

  function Follow(path: string, rest: Option<string>): Option<string> {
    if rest.Some? then Some(path + rest.value) else None
  }

  lemma FollowMore(front: string, c: char, rest: Option<string>)
    ensures Follow(front, More(c, rest)) == Follow(front + [c], rest) && Follow("", rest) == rest
  {
    if rest.Some? { assert front + ([c] + rest.value) == front + [c] + rest.value && "" + rest.value == rest.value; }
  }

  lemma {:induction false} ReadDisplay(path: string, rest: string)
    ensures Read(Display(path) + rest) == Follow(path, Read(rest))
    decreases |path|
  {
    if path == "" {
      assert Display(path) + rest == rest;
      FollowMore("", 'a', Read(rest));
    } else {
      var front, c := path[..|path| - 1], path[|path| - 1];
      calc {
        Read(Display(path) + rest);
        { assert Display(path) + rest == Display(front) + (Shown(c) + rest); }
        Read(Display(front) + (Shown(c) + rest));
        { ReadDisplay(front, Shown(c) + rest); }
        Follow(front, Read(Shown(c) + rest));
        { ReadShown(c, rest); }
        Follow(front, More(c, Read(rest)));
        { FollowMore(front, c, Read(rest)); }
        Follow(front + [c], Read(rest));
        { assert path == front + [c]; }
        Follow(path, Read(rest));
      }
    }
  }

  lemma {:induction false} DisplayChars(path: string)
    ensures forall c | c in Display(path) :: SafeChar(c) || c == '\\'
  {
    if path != "" { DisplayChars(path[..|path| - 1]); }
  }

  /** A shown path can be read back, so different paths are shown differently; and it has no
      characters but safe ones and backslashes. */
  lemma DisplayReadsBack(path: string)
    ensures Read(Display(path)) == Some(path)
    ensures forall c | c in Display(path) :: SafeChar(c) || c == '\\'
  {
    ReadDisplay(path, "");
    assert Display(path) + "" == Display(path) && path + "" == path;
    DisplayChars(path);
  }

  // ---- Reading up to a bound ----

  type Byte = x: int | 0 <= x < 256

  /** A file descriptor: each read returns as many bytes as the script says, but at least one
      until the end, and no more than asked for. */
  class Descriptor {
    var rest: seq<Byte>
    var script: seq<nat>

    constructor (stream: seq<Byte>, script: seq<nat>)
      ensures rest == stream && this.script == script
    {
      rest, this.script := stream, script;
    }

    /** Asking for nothing would look like the end. */
    method Read(most: nat) returns (chunk: seq<Byte>)
      requires 0 < most <= 65536
      modifies this
      ensures chunk + rest == old(rest) && |chunk| <= most
      ensures chunk == [] <==> old(rest) == []
    {
      var size := most;
      if script != [] {
        if script[0] < size { size := script[0]; }
        script := script[1..];
      }
      if size == 0 { size := 1; }
      if size > |rest| { size := |rest|; }
      chunk := rest[..size];
      rest := rest[size..];
    }
  }

  /** However the reads are cut up: returns the whole stream exactly if it is within the bound, and
      never takes more than one byte beyond it. */
  method BoundedRead(fd: Descriptor, limit: nat) returns (r: Result<seq<Byte>, ()>)
    modifies fd
    ensures if |old(fd.rest)| <= limit then r == Ok(old(fd.rest)) else r == Err(())
    ensures |fd.rest| <= |old(fd.rest)| <= |fd.rest| + limit + 1
    ensures fd.rest == old(fd.rest)[|old(fd.rest)| - |fd.rest|..]
  {
    var held: seq<Byte>, total := [], 0;
    while true
      invariant total == |held| <= limit && held + fd.rest == old(fd.rest)
      decreases |fd.rest|
    {
      ghost var before := fd.rest;
      var most := if limit - total + 1 < 65536 then limit - total + 1 else 65536;
      var chunk := fd.Read(most);
      if chunk == [] {
        assert held + fd.rest == held;
        return Ok(held);
      }
      assert held + chunk + fd.rest == held + before;
      held := held + chunk;
      total := total + |chunk|;
      if total > limit { return Err(()); }
    }
  }
}
