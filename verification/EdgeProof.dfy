/** The proof that a request came through the edge: the worker validates and signs it, and the
    gateway validates and verifies it again, each with its own code. */
module EdgeProof {
  import opened Prelude
  import opened Text

  const APP_GATEWAY := "app-gateway"
  const SECOND := 1_000_000_000

  // ---- Character classes ----

  predicate Hex(c: char) { '0' <= c <= '9' || 'a' <= c <= 'f' || 'A' <= c <= 'F' }

  predicate LowerHex(c: char) { '0' <= c <= '9' || 'a' <= c <= 'f' }

  predicate Alphanumeric(c: char) { '0' <= c <= '9' || 'a' <= c <= 'z' || 'A' <= c <= 'Z' }

  predicate TargetChar(c: char) {
    Alphanumeric(c) || c in {'.', '_', '~', '!', '$', '&', '\'', '(', ')', '*', '+', ',', ';', '=', ':', '@', '/',
        '?', '%', '-'}
  }

  /** Both patterns for the request target. */
  predicate TargetPattern(s: string) { s != "" && s[0] == '/' && forall c | c in s :: TargetChar(c) }

  predicate Visible(c: char) { '\U{21}' <= c <= '\U{7e}' }

  predicate IdChar(c: char) { Alphanumeric(c) || c == '.' || c == '_' || c == '-' }

  /** Key identifiers and request identifiers. */
  predicate IdPattern(s: string) { 1 <= |s| <= 128 && forall c | c in s :: IdChar(c) }

  predicate HexDigest(s: string) { |s| == 64 && forall c | c in s :: LowerHex(c) }

  predicate LabelChar(c: char) { '0' <= c <= '9' || 'a' <= c <= 'z' }

  predicate HostLabel(s: string) {
    && 1 <= |s| <= 63 && LabelChar(s[0]) && LabelChar(s[|s| - 1])
    && forall c | c in s :: LabelChar(c) || c == '-'
  }

  lemma HexIff(c: char)
    ensures Hex(c) <==> c in DIGITS || c in "abcdef" || c in "ABCDEF"
    ensures LowerHex(c) <==> c in DIGITS || c in "abcdef"
  {
    DigitsIff(c);
  }

  lemma LabelCharIff(c: char)
    ensures LabelChar(c) <==> c in DIGITS || c in LOWER_CASE
  {
    DigitsIff(c);
    LowerCaseIff(c);
  }

  lemma AlphanumericIff(c: char)
    ensures Alphanumeric(c) <==> c in DIGITS || c in LOWER_CASE || c in UPPER_CASE
  {
    DigitsIff(c);
    LowerCaseIff(c);
    UpperCaseIff(c);
  }

  /** Every visible character of ASCII belongs to a target but eleven. */
  lemma TargetCharIff(c: char)
    ensures TargetChar(c) <==> Visible(c) && c !in "\"#<>[]\\^`{|}"
    ensures Visible(c) <==> 0x20 < c as int < 0x7f
  {}

  /** A label of a host name: 63 characters at the most, and no hyphen at either end. */
  lemma HostLabelIff(s: string)
    ensures HostLabel(s) <==>
      && s != "" && |s| < 64 && s[0] != '-' && s[|s| - 1] != '-'
      && forall c | c in s :: c == '-' || c in DIGITS || c in LOWER_CASE
  {
    forall c: char ensures LabelChar(c) <==> c in DIGITS || c in LOWER_CASE { LabelCharIff(c); }
    if s != "" { assert s[0] in s && s[|s| - 1] in s; }
  }

  lemma IdPatternIff(s: string)
    ensures IdPattern(s) <==> s != "" && |s| < 129 && forall c | c in s :: c in "._-" || Alphanumeric(c)
  {}

  // ---- Percent escapes ----

  /** Section 2.1 of RFC 3986: a percent sign is followed by two hexadecimal digits. */
  predicate PercentEncoded(s: string) {
    forall i | 0 <= i < |s| && s[i] == '%' :: i + 2 < |s| && Hex(s[i + 1]) && Hex(s[i + 2])
  }

  /** What is left to scan after position `i`, for a loop that steps over whole escapes. */
  function EscapesFrom(s: string, i: nat): bool
    decreases |s| - i
  {
    if i >= |s| then true
    else if s[i] != '%' then EscapesFrom(s, i + 1)
    else i + 2 < |s| && Hex(s[i + 1]) && Hex(s[i + 2]) && EscapesFrom(s, i + 3)
  }

  /** Stepping over escapes checks every percent sign, because no digit is one. */
  lemma {:induction false} EscapesExact(s: string, i: nat)
    ensures EscapesFrom(s, i) <==>
      forall k | i <= k < |s| && s[k] == '%' :: k + 2 < |s| && Hex(s[k + 1]) && Hex(s[k + 2])
    decreases |s| - i
  {
    if i < |s| {
      if s[i] != '%' {
        EscapesExact(s, i + 1);
      } else if i + 2 < |s| && Hex(s[i + 1]) && Hex(s[i + 2]) {
        EscapesExact(s, i + 3);
      }
    }
  }

  /** The gateway's loop. */
  method ValidPercentEscapes(s: string) returns (ok: bool)
    ensures ok <==> PercentEncoded(s)
  {
    EscapesExact(s, 0);
    var i := 0;
    while i < |s|
      invariant EscapesFrom(s, i) == EscapesFrom(s, 0)
      decreases |s| - i
    {
      if s[i] == '%' {
        if i + 2 >= |s| || !Hex(s[i + 1]) || !Hex(s[i + 2]) { return false; }
        i := i + 2;
      }
      i := i + 1;
    }
    ok := true;
  }

  // ---- The two validators of the request target ----

  /** The worker's: its loop also refuses invisible characters, except inside an escape. */
  predicate WorkerTarget(s: string) {
    && TargetPattern(s) && PercentEncoded(s) && Count(s, '?') <= 1
    && !(|s| >= 2 && s[1] == '/')
    && !Contains(s, "http://") && !Contains(s, "https://")
  }

  method IsAppGatewayRequestTarget(s: string, hash: string) returns (ok: bool)
    ensures ok <==> hash == "" && WorkerTarget(s)
  {
    if hash != "" { return false; }
    if s == "" || s[0] != '/' || (|s| >= 2 && s[1] == '/') || '#' in s || '\\' in s { return false; }
    if Contains(s, "http://") || Contains(s, "https://") { return false; }
    if Count(s, '?') > 1 { return false; }
    EscapesExact(s, 0);
    var i := 0;
    while i < |s|
      invariant EscapesFrom(s, i) == EscapesFrom(s, 0)
      decreases |s| - i
    {
      if !Visible(s[i]) {
        assert !TargetChar(s[i]);
        return false;
      }
      if s[i] == '%' {
        if !(i + 1 < |s| && Hex(s[i + 1])) || !(i + 2 < |s| && Hex(s[i + 2])) { return false; }
        i := i + 2;
      }
      i := i + 1;
    }
    ok := TargetPattern(s);
  }

  /** The target as it is sent: the query, if there is one, after a question mark. */
  function Target(path: string, query: string): string { if query == "" then path else path + "?" + query }

  /** The gateway's, which answers with the target, or with nothing. */
  predicate GatewayTarget(s: string) { TargetPattern(s) && PercentEncoded(s) && Count(s, '?') <= 1 }

  function Canonical(path: string, query: string): string {
    var s := Target(if path == "" then "/" else path, query);
    if GatewayTarget(s) then s else ""
  }

  method IsCanonical(s: string) returns (ok: bool)
    ensures ok <==> GatewayTarget(s)
  {
    if '\\' in s || '#' in s || Count(s, '?') > 1 {
      assert !TargetChar('\\') && !TargetChar('#');
      return false;
    }
    var n := 0;
    while n < |s|
      invariant n <= |s|
    {
      if !Visible(s[n]) {
        assert !TargetChar(s[n]);
        return false;
      }
      n := n + 1;
    }
    var escapes := ValidPercentEscapes(s);
    ok := TargetPattern(s) && escapes;
  }

  method CanonicalRequestTarget(path: string, query: string) returns (r: string)
    ensures r == Canonical(path, query)
  {
    var s := path;
    if s == "" { s := "/"; }
    if query != "" { s := s + "?" + query; }
    var ok := IsCanonical(s);
    r := if ok then s else "";
  }

  /** The gateway's server takes the request line apart at the first question mark. */
  function PathOf(s: string): string { Before(s, '?') }

  function QueryOf(s: string): string { After(s, '?') }

  /** The worker's language is the gateway's without a leading double slash and without an
      embedded scheme. */
  lemma TargetLanguages(s: string)
    ensures WorkerTarget(s) <==>
      GatewayTarget(s) && !("//" <= s) && !Contains(s, "http://") && !Contains(s, "https://")
  {
    assert "//" <= s <==> |s| >= 2 && s[0] == '/' && s[1] == '/';
  }

  lemma TakenApart(s: string)
    requires s != "" && s[0] == '/'
    ensures PathOf(s) != ""
    ensures Target(PathOf(s), QueryOf(s)) == s <==> QueryOf(s) != "" || '?' !in s
  {
    var p := PathOf(s);
    if |p| < |s| {
      assert s == p + "?" + s[|p| + 1..];
    } else {
      assert p == s;
    }
  }

  /** The gateway puts together again the target that was sent, unless that ends in a lone
      question mark. */
  lemma TargetArrives(s: string)
    requires GatewayTarget(s)
    ensures Canonical(PathOf(s), QueryOf(s)) == s <==> QueryOf(s) != "" || '?' !in s
  {
    TakenApart(s);
  }

  // ---- The two validators of the host ----

  predicate HostChar(c: char) { LabelChar(c) || c == '-' || c == '.' }

  predicate HostChars(s: string) { forall c | c in s :: HostChar(c) }

  function Slug(host: string, suffix: string): string
    requires HasSuffix(host, "." + suffix)
  {
    host[..|host| - |suffix| - 1]
  }

  datatype WorkerConfig = WorkerConfig(control: string, suffix: string, reserved: set<string>, keyId: string,
                                       secret: string)
  {
    /** What reading the configuration has established. */
    predicate Valid() {
      && HasSuffix(control, "." + suffix) && Slug(control, suffix) in reserved
      && HostChars(suffix) && IdPattern(keyId)
    }
  }

  predicate IsValidAppSlug(slug: string, reserved: set<string>) {
    slug != "" && '.' !in slug && !("xn--" <= slug) && HostLabel(slug) && slug !in reserved
  }

  /** The worker's: the host of an application. */
  predicate WorkerHost(cfg: WorkerConfig, host: string) {
    && host != cfg.control && host != cfg.suffix && HasSuffix(host, "." + cfg.suffix)
    && IsValidAppSlug(Slug(host, cfg.suffix), cfg.reserved)
  }

  /** The gateway's. */
  predicate GatewayHost(host: string, suffix: string) {
    && HasSuffix(host, "." + suffix)
    && Count(host, '.') == Count(suffix, '.') + 1
    && HostLabel(Slug(host, suffix))
  }

  lemma OneLabel(name: string, suffix: string)
    requires HostLabel(name)
    ensures var host := name + "." + suffix;
      GatewayHost(host, suffix) && Slug(host, suffix) == name
  {
    var host, rest := name + "." + suffix, "." + suffix;
    assert host == name + rest;
    assert host[|host| - |rest|..] == rest && host[..|host| - |rest|] == name;
    CountConcat(name, rest, '.');
    assert rest[1..] == suffix;
    CountNone(name, '.');
  }

  /** Counting the dots adds nothing: one label in front of the suffix. */
  lemma GatewayHostIff(host: string, suffix: string)
    ensures GatewayHost(host, suffix) <==> exists name :: HostLabel(name) && host == name + "." + suffix
  {
    if GatewayHost(host, suffix) {
      assert host == Slug(host, suffix) + "." + suffix;
    }
    if name :| HostLabel(name) && host == name + "." + suffix { OneLabel(name, suffix); }
  }

  lemma HostsAgree(cfg: WorkerConfig, host: string)
    requires cfg.Valid()
    ensures WorkerHost(cfg, host) <==>
      && GatewayHost(host, cfg.suffix)
      && !("xn--" <= Slug(host, cfg.suffix)) && Slug(host, cfg.suffix) !in cfg.reserved
  {
    if HasSuffix(host, "." + cfg.suffix) {
      var slug := Slug(host, cfg.suffix);
      assert host == slug + ("." + cfg.suffix);
      CountConcat(slug, "." + cfg.suffix, '.');
      assert ("." + cfg.suffix)[1..] == cfg.suffix;
      CountNone(slug, '.');
      if host == cfg.control { assert slug == Slug(cfg.control, cfg.suffix); }
    }
  }

  // ---- Signing ----

  /** The digest and the keyed hash; both are written as 64 hexadecimal digits. */
  datatype Crypto = Crypto(digest: string -> string, mac: (string, string) -> string)
  {
    ghost predicate Valid() {
      (forall b :: HexDigest(digest(b))) && forall k, m :: HexDigest(mac(k, m))
    }
  }

  datatype Header = KeyId | Timestamp | RequestId | PublicHost | DestinationClass | Signature

  /** A request as it reaches the gateway; `toOrigin` says that it was sent to the gateway's own host. */
  datatype Request = Request(headers: map<Header, seq<string>>, httpMethod: string, path: string, query: string,
                             body: string, toOrigin: bool)

  datatype Url = Url(path: string, query: string, hash: string)

  datatype Proof = Proof(host: string, target: string, digest: string, timestamp: int, requestId: string, keyId: string)

  /** The fields that are signed, apart from the version and the destination class. */
  function Fields(p: Proof, httpMethod: string): seq<string> {
    ["mim-origin-v2", APP_GATEWAY, httpMethod, p.host, p.target, p.digest, Print(p.timestamp), p.requestId, p.keyId]
  }

  function Signed(crypto: Crypto, key: string, p: Proof, httpMethod: string): string {
    crypto.mac(key, Join(Fields(p, httpMethod), "\n"))
  }

  /** The message that both sides sign, from its last line to its first. */
  lemma SignedMeans(crypto: Crypto, key: string, p: Proof, httpMethod: string)
    ensures var identifiers := Print(p.timestamp) + "\n" + (p.requestId + "\n" + p.keyId);
      var content := p.host + "\n" + (p.target + "\n" + (p.digest + "\n" + identifiers));
      Signed(crypto, key, p, httpMethod)
          == crypto.mac(key, "mim-origin-v2" + "\n" + ("app-gateway" + "\n" + (httpMethod + "\n" + content)))
  {
    var all := Fields(p, httpMethod);
    assert Join(all[8..], "\n") == p.keyId && all[7..][1..] == all[8..] && all[6..][1..] == all[7..];
    assert all[5..][1..] == all[6..] && all[4..][1..] == all[5..] && all[3..][1..] == all[4..];
    assert all[2..][1..] == all[3..] && all[1..][1..] == all[2..];
    assert Join(all[7..], "\n") == p.requestId + "\n" + p.keyId;
    assert Join(all[6..], "\n") == Print(p.timestamp) + "\n" + (p.requestId + "\n" + p.keyId);
    assert Join(all[5..], "\n") == p.digest + "\n" + Join(all[6..], "\n");
    assert Join(all[4..], "\n") == p.target + "\n" + Join(all[5..], "\n");
    assert Join(all[3..], "\n") == p.host + "\n" + Join(all[4..], "\n");
    assert Join(all[2..], "\n") == httpMethod + "\n" + Join(all[3..], "\n");
    assert Join(all[1..], "\n") == "app-gateway" + "\n" + Join(all[2..], "\n");
  }

  const APP_METHODS: set<string> := {"GET", "HEAD", "POST", "PUT", "PATCH", "DELETE", "OPTIONS"}

  /** What the worker claims about a request for an application. */
  function Claimed(cfg: WorkerConfig, crypto: Crypto, host: string, url: Url, body: string, timestamp: int,
                   requestId: string): Proof {
    Proof(host, Target(url.path, url.query), crypto.digest(body), timestamp, requestId, cfg.keyId)
  }

  function Outgoing(p: Proof, httpMethod: string, body: string, signature: string): Request {
    Request(map[
      KeyId := [p.keyId], Timestamp := [Print(p.timestamp)], RequestId := [p.requestId], PublicHost := [p.host],
      DestinationClass := [APP_GATEWAY], Signature := [signature]],
      httpMethod, PathOf(p.target), QueryOf(p.target), body, true)
  }

  predicate Forwards(cfg: WorkerConfig, host: string, url: Url, httpMethod: string) {
    WorkerHost(cfg, host) && url.hash == "" && WorkerTarget(Target(url.path, url.query)) && httpMethod in APP_METHODS
  }

  /** The request that the worker sends on, if it does. */
  function Forward(cfg: WorkerConfig, crypto: Crypto, host: string, url: Url, httpMethod: string, body: string,
                   timestamp: int, requestId: string): Option<Request> {
    if !Forwards(cfg, host, url, httpMethod) then None
    else
      var p := Claimed(cfg, crypto, host, url, body, timestamp, requestId);
      Some(Outgoing(p, httpMethod, body, Signed(crypto, cfg.secret, p, httpMethod)))
  }

  lemma ForwardsIff(cfg: WorkerConfig, crypto: Crypto, host: string, url: Url, httpMethod: string, body: string,
                    timestamp: int, requestId: string)
    ensures Forward(cfg, crypto, host, url, httpMethod, body, timestamp, requestId).Some? <==>
      && WorkerHost(cfg, host) && url.hash == "" && WorkerTarget(Target(url.path, url.query))
      && (httpMethod == "GET" || httpMethod == "HEAD" || httpMethod == "POST" || httpMethod == "PUT"
          || httpMethod == "PATCH" || httpMethod == "DELETE" || httpMethod == "OPTIONS")
  {}

  // ---- Verifying ----

  /** `fold` is how the gateway's library lowers letters, and leaves the characters of a host alone;
      `space` is what the library trims. */
  datatype GatewayConfig = GatewayConfig(suffix: string, keys: map<string, string>, fold: char -> char,
                                         space: set<char>)
  {
    ghost predicate Valid() { HostChars(suffix) && Invisible(space) && forall c | HostChar(c) :: fold(c) == c }
    function Lower(s: string): (r: string)
      ensures |r| == |s|
    {
      seq(|s|, i requires 0 <= i < |s| => fold(s[i]))
    }
  }

  /** The only value of a header, trimmed; nothing if there are several or it is blank. */
  function Single(cfg: GatewayConfig, req: Request, h: Header): string {
    if h in req.headers && |req.headers[h]| == 1 then Trim(req.headers[h][0], cfg.space) else ""
  }

  /** `now` is in nanoseconds. */
  predicate Fresh(timestamp: int, now: int) { 0 <= now - timestamp * SECOND <= 60 * SECOND }

  function VerifyEdgeProof(cfg: GatewayConfig, crypto: Crypto, req: Request, now: int): Option<Proof> {
    var host := cfg.Lower(Single(cfg, req, PublicHost));
    var keyId, requestId, signature :=
        Single(cfg, req, KeyId), Single(cfg, req, RequestId), Single(cfg, req, Signature);
    var timestamp := ParseInt(Single(cfg, req, Timestamp));
    if !GatewayHost(host, cfg.suffix) || !req.toOrigin || Single(cfg, req, DestinationClass) != APP_GATEWAY then None
    else if !IdPattern(keyId) || !IdPattern(requestId) || !HexDigest(signature) then None
    else if timestamp.None? || !Fresh(timestamp.value, now) || keyId !in cfg.keys then None
    else
      var p := Proof(host, Canonical(req.path, req.query), crypto.digest(req.body), timestamp.value, requestId, keyId);
      if signature == Signed(crypto, cfg.keys[keyId], p, req.httpMethod) then Some(p) else None
  }

  // ---- From edge to gateway ----

  lemma LowerHost(cfg: GatewayConfig, host: string)
    requires cfg.Valid() && HostChars(host)
    ensures cfg.Lower(host) == host
  {
    forall i | 0 <= i < |host| ensures cfg.fold(host[i]) == host[i] { assert HostChar(host[i]); }
  }

  lemma HostCharsOf(host: string, suffix: string)
    requires HasSuffix(host, "." + suffix) && HostLabel(Slug(host, suffix)) && HostChars(suffix)
    ensures HostChars(host) && host != ""
  {
    assert host == Slug(host, suffix) + ("." + suffix);
  }

  lemma PrintVisible(n: int)
    ensures Print(n) != "" && forall c | c in Print(n) :: '-' <= c <= '9'
  {
    if n < 0 { assert AllDigits(Decimal(-n)); } else { assert AllDigits(Decimal(n)); }
  }

  predicate Carries(cfg: GatewayConfig, req: Request, h: Header, v: string) {
    h in req.headers && req.headers[h] == [v] && Single(cfg, req, h) == v
  }

  predicate Arrived(cfg: GatewayConfig, req: Request, p: Proof, signature: string) {
    && Carries(cfg, req, KeyId, p.keyId) && Carries(cfg, req, Timestamp, Print(p.timestamp))
    && Carries(cfg, req, RequestId, p.requestId) && Carries(cfg, req, PublicHost, p.host)
    && Carries(cfg, req, DestinationClass, APP_GATEWAY) && Carries(cfg, req, Signature, signature)
  }

  lemma Accepts(gateway: GatewayConfig, crypto: Crypto, req: Request, p: Proof, signature: string, now: int)
    requires gateway.Valid() && Arrived(gateway, req, p, signature) && req.toOrigin
    requires HexDigest(signature) && IdPattern(p.keyId) && IdPattern(p.requestId)
        && 0 <= p.timestamp < 0x8000_0000_0000_0000
    requires GatewayHost(p.host, gateway.suffix) && HostChars(p.host) && p.keyId in gateway.keys
    requires Canonical(req.path, req.query) == p.target && crypto.digest(req.body) == p.digest
    ensures VerifyEdgeProof(gateway, crypto, req, now)
         == if Fresh(p.timestamp, now) && signature == Signed(crypto, gateway.keys[p.keyId], p, req.httpMethod)
             then Some(p) else None
  {
    ParsePrint(p.timestamp);
    LowerHost(gateway, p.host);
  }

  /** Nothing that would be trimmed. */
  predicate Plain(v: string) { v != "" && forall c | c in v :: '-' <= c <= 'z' }

  lemma PlainFields(p: Proof, signature: string)
    requires IdPattern(p.keyId) && IdPattern(p.requestId) && HexDigest(signature) && HostChars(p.host) && p.host != ""
    ensures Plain(p.keyId) && Plain(p.requestId) && Plain(signature) && Plain(p.host) && Plain(Print(p.timestamp))
        && Plain(APP_GATEWAY)
  {
    PrintVisible(p.timestamp);
  }

  lemma SentPlain(cfg: GatewayConfig, req: Request, h: Header, v: string)
    requires cfg.Valid() && h in req.headers && req.headers[h] == [v] && Plain(v)
    ensures Carries(cfg, req, h, v)
  {
    assert v[0] in v && v[|v| - 1] in v;
    TrimTrimmed(v, cfg.space);
  }

  lemma HeadersArrive(gateway: GatewayConfig, p: Proof, httpMethod: string, body: string, signature: string)
    requires gateway.Valid() && Plain(p.keyId) && Plain(p.requestId) && Plain(signature) && Plain(p.host)
    requires Plain(Print(p.timestamp)) && Plain(APP_GATEWAY)
    ensures Arrived(gateway, Outgoing(p, httpMethod, body, signature), p, signature)
  {
    var req := Outgoing(p, httpMethod, body, signature);
    SentPlain(gateway, req, KeyId, p.keyId);
    SentPlain(gateway, req, Timestamp, Print(p.timestamp));
    SentPlain(gateway, req, RequestId, p.requestId);
    SentPlain(gateway, req, DestinationClass, APP_GATEWAY);
    SentPlain(gateway, req, Signature, signature);
    SentPlain(gateway, req, PublicHost, p.host);
  }

  lemma TargetDelivered(path: string, query: string)
    requires '?' !in path && WorkerTarget(Target(path, query))
    ensures var s := Target(path, query); Canonical(PathOf(s), QueryOf(s)) == s
  {
    var s := Target(path, query);
    var rest := if query == "" then "" else "?" + query;
    assert s == path + rest;
    BeforeConcat(path, rest, '?');
    assert QueryOf(s) == query;
    TargetArrives(s);
  }

  /** With the key, suffix and body shared, the gateway accepts what the worker signs exactly while
      it is no more than a minute old, and it proves exactly what the worker claimed. */
  lemma RoundTrip(edge: WorkerConfig, gateway: GatewayConfig, crypto: Crypto, host: string, url: Url,
                  httpMethod: string, body: string, timestamp: int, requestId: string, now: int)
    requires edge.Valid() && gateway.Valid() && crypto.Valid()
    requires gateway.suffix == edge.suffix && edge.keyId in gateway.keys && gateway.keys[edge.keyId] == edge.secret
    requires IdPattern(requestId) && 0 <= timestamp < 0x8000_0000_0000_0000 && '?' !in url.path
    requires Forward(edge, crypto, host, url, httpMethod, body, timestamp, requestId).Some?
    ensures var r := VerifyEdgeProof(gateway, crypto,
        Forward(edge, crypto, host, url, httpMethod, body, timestamp, requestId).value, now);
      if 0 <= now - timestamp * 1_000_000_000 <= 60_000_000_000
      then r == Some(Proof(host, Target(url.path, url.query), crypto.digest(body), timestamp, requestId, edge.keyId))
      else r == None
  {
    var p := Claimed(edge, crypto, host, url, body, timestamp, requestId);
    var signature := Signed(crypto, edge.secret, p, httpMethod);
    HostCharsOf(host, edge.suffix);
    HostsAgree(edge, host);
    TargetDelivered(url.path, url.query);
    assert HexDigest(signature);
    PlainFields(p, signature);
    HeadersArrive(gateway, p, httpMethod, body, signature);
    Accepts(gateway, crypto, Outgoing(p, httpMethod, body, signature), p, signature, now);
  }

  /** No field of a proof that the gateway accepts, or the worker makes, can have a line break. */
  predicate OneLine(s: string) { '\n' !in s }

  predicate InRange(n: int) { -0x8000_0000_0000_0000 <= n < 0x8000_0000_0000_0000 }

  lemma FieldsApart(p: Proof, m: string, q: Proof, n: string)
    requires forall f | f in Fields(p, m) :: OneLine(f)
    requires forall f | f in Fields(q, n) :: OneLine(f)
    requires Join(Fields(p, m), "\n") == Join(Fields(q, n), "\n")
    requires InRange(p.timestamp) && InRange(q.timestamp)
    ensures p == q && m == n
  {
    SplitJoin(Fields(p, m), '\n');
    SplitJoin(Fields(q, n), '\n');
    var a, b := Fields(p, m), Fields(q, n);
    assert a == b;
    assert a[2] == b[2] && a[3] == b[3] && a[4] == b[4] && a[5] == b[5] && a[6] == b[6] && a[7] == b[7] && a[8] == b[8];
    ParsePrint(p.timestamp);
    ParsePrint(q.timestamp);
  }

  predicate WellFormed(p: Proof) {
    && HostChars(p.host) && (p.target == "" || TargetPattern(p.target)) && HexDigest(p.digest)
    && InRange(p.timestamp) && IdPattern(p.requestId) && IdPattern(p.keyId)
  }

  lemma FieldLines(p: Proof, httpMethod: string)
    requires WellFormed(p) && OneLine(httpMethod)
    ensures forall f | f in Fields(p, httpMethod) :: OneLine(f)
  {
    PrintVisible(p.timestamp);
    assert OneLine(p.host) by { assert !HostChar('\n'); }
    assert OneLine(p.target) by { assert !TargetChar('\n'); }
    assert OneLine(p.digest) && OneLine(p.requestId) && OneLine(p.keyId);
  }

  lemma AcceptedForm(gateway: GatewayConfig, crypto: Crypto, req: Request, now: int)
    requires gateway.Valid() && crypto.Valid() && VerifyEdgeProof(gateway, crypto, req, now).Some?
    ensures WellFormed(VerifyEdgeProof(gateway, crypto, req, now).value)
  {
    var p := VerifyEdgeProof(gateway, crypto, req, now).value;
    HostCharsOf(p.host, gateway.suffix);
    assert HexDigest(crypto.digest(req.body));
  }

  lemma ClaimedForm(edge: WorkerConfig, crypto: Crypto, host: string, url: Url, httpMethod: string, body: string,
                    timestamp: int, requestId: string)
    requires edge.Valid() && crypto.Valid() && IdPattern(requestId) && InRange(timestamp)
    requires Forward(edge, crypto, host, url, httpMethod, body, timestamp, requestId).Some?
    ensures WellFormed(Claimed(edge, crypto, host, url, body, timestamp, requestId)) && OneLine(httpMethod)
  {
    HostCharsOf(host, edge.suffix);
    assert HexDigest(crypto.digest(body));
  }

  /** A signature of the worker is good for one request only: whatever request the gateway accepts
      with it came to the gateway's own host within the minute, and has the method, host, target, body
      digest, time, and identifiers that were signed.
      The keyed hash is taken not to collide on the two messages. */
  lemma Binding(edge: WorkerConfig, gateway: GatewayConfig, crypto: Crypto, host: string, url: Url,
                httpMethod: string, body: string, timestamp: int, requestId: string, req: Request, now: int)
    requires edge.Valid() && gateway.Valid() && crypto.Valid() && IdPattern(requestId) && InRange(timestamp)
    requires Forward(edge, crypto, host, url, httpMethod, body, timestamp, requestId).Some?
    requires VerifyEdgeProof(gateway, crypto, req, now).Some? && OneLine(req.httpMethod)
    requires var p, q := Claimed(edge, crypto, host, url, body, timestamp, requestId),
        VerifyEdgeProof(gateway, crypto, req, now).value;
      && Single(gateway, req, Signature) == Signed(crypto, edge.secret, p, httpMethod)
      && (Signed(crypto, gateway.keys[q.keyId], q, req.httpMethod) == Signed(crypto, edge.secret, p, httpMethod)
          ==> Join(Fields(q, req.httpMethod), "\n") == Join(Fields(p, httpMethod), "\n"))
    ensures VerifyEdgeProof(gateway, crypto, req, now)
        == Some(Claimed(edge, crypto, host, url, body, timestamp, requestId))
    ensures req.httpMethod == httpMethod && req.toOrigin && 0 <= now - timestamp * 1_000_000_000 <= 60_000_000_000
    ensures Target(if req.path == "" then "/" else req.path, req.query) == Target(url.path, url.query)
    ensures crypto.digest(req.body) == crypto.digest(body) && edge.keyId in gateway.keys
        && host == gateway.Lower(Single(gateway, req, PublicHost))
  {
    var p, q := Claimed(edge, crypto, host, url, body, timestamp, requestId),
        VerifyEdgeProof(gateway, crypto, req, now).value;
    AcceptedForm(gateway, crypto, req, now);
    ClaimedForm(edge, crypto, host, url, httpMethod, body, timestamp, requestId);
    FieldLines(p, httpMethod);
    FieldLines(q, req.httpMethod);
    assert p.target != "";
    FieldsApart(q, req.httpMethod, p, httpMethod);
  }
}
