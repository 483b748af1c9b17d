/**
 * Which browser origins the services accept: parsing the configured origin
 * lists, the fall-back lists, the localhost exception, the per-request
 * origin check and the origin list handed to the socket server. The API
 * gateway, the shared service module, the monolithic server and the chat
 * service each carry their own copy; the copies differ in defaults, in the
 * localhost exception and in which variable they read first.
 */
module Cors {
  import opened Common

  // ---------------------------------------------------------------------
  // Parsing a configured list

  /** A character of the pattern `[,\s]`. */
  predicate IsSeparator(c: char) {
    c == ',' || IsSpace(c)
  }

  /** A piece the parsing can produce: non-empty, with no comma or white space. */
  predicate IsToken(w: string) {
    w != "" && forall i :: 0 <= i < |w| ==> !IsSeparator(w[i])
  }

  /** The length of the run of non-separators `s` starts with. */
  function WordLength(s: string): (n: nat)
    ensures n <= |s|
    ensures forall i :: 0 <= i < n ==> !IsSeparator(s[i])
    ensures n < |s| ==> IsSeparator(s[n])
  {
    if s == [] || IsSeparator(s[0]) then 0 else 1 + WordLength(s[1..])
  }

  /**
   * `.split(/[,\s]+/).map(trim).filter(Boolean)`: the maximal runs of
   * characters other than commas and white space. Splitting at runs of
   * separators leaves pieces without white space, so the trim changes
   * nothing; the filter drops the empty pieces at either end.
   */
  function Tokens(s: string): (r: seq<string>)
    ensures forall w :: w in r ==> IsToken(w)
    ensures |r| <= |s|
    decreases |s|
  {
    if s == [] then []
    else if IsSeparator(s[0]) then Tokens(s[1..])
    else
      var n := WordLength(s);
      [s[..n]] + Tokens(s[n..])
  }

  /** The list written back out, comma-separated. */
  function Join(ws: seq<string>): string {
    if ws == [] then ""
    else if |ws| == 1 then ws[0]
    else ws[0] + "," + Join(ws[1..])
  }

  /** A token followed by a separator or nothing is the first token. */
  lemma {:induction false} WordLengthOfToken(w: string, rest: string)
    requires IsToken(w) && (rest == [] || IsSeparator(rest[0]))
    ensures WordLength(w + rest) == |w|
  {
    if |w| > 1 {
      assert (w + rest)[1..] == w[1..] + rest;
      WordLengthOfToken(w[1..], rest);
    } else {
      assert (w + rest)[1..] == rest;
    }
  }

  lemma TokensAfterWord(w: string, rest: string)
    requires IsToken(w) && (rest == [] || IsSeparator(rest[0]))
    ensures Tokens(w + rest) == [w] + Tokens(rest)
  {
    WordLengthOfToken(w, rest);
    assert (w + rest)[..|w|] == w;
    assert (w + rest)[|w|..] == rest;
  }

  /** Writing a list of tokens out and parsing it gives the list back. */
  lemma {:induction false} TokensOfJoin(ws: seq<string>)
    requires forall w :: w in ws ==> IsToken(w)
    ensures Tokens(Join(ws)) == ws
  {
    if |ws| == 1 {
      TokensAfterWord(ws[0], []);
      assert ws[0] + [] == ws[0];
    } else if |ws| > 1 {
      var tail := Join(ws[1..]);
      assert ws[0] + "," + tail == ws[0] + ("," + tail);
      TokensAfterWord(ws[0], "," + tail);
      assert ("," + tail)[1..] == tail;
      TokensOfJoin(ws[1..]);
      assert ws == [ws[0]] + ws[1..];
    }
  }

  /** A configured value: unset, a string, or an array of values. */
  datatype Raw = Unset | Text(s: string) | Many(items: seq<Raw>)

  /** `toArray` of the gateway and the shared module: arrays are flattened, strings parsed. */
  function ToArray(raw: Raw): (r: seq<string>)
    ensures forall w :: w in r ==> IsToken(w)
    decreases raw, 1
  {
    match raw
    case Unset => []
    case Text(s) => Tokens(s)
    case Many(items) => ToArrayAll(items)
  }

  function ToArrayAll(items: seq<Raw>): (r: seq<string>)
    ensures forall w :: w in r ==> IsToken(w)
    decreases items, 0
  {
    if items == [] then []
    else ToArray(items[0]) + ToArrayAll(items[1..])
  }

  /** An array parses to its members' pieces, in order. */
  lemma {:induction false} ToArrayAllAppend(xs: seq<Raw>, ys: seq<Raw>)
    ensures ToArrayAll(xs + ys) == ToArrayAll(xs) + ToArrayAll(ys)
  {
    if xs == [] {
      assert xs + ys == ys;
    } else {
      assert (xs + ys)[1..] == xs[1..] + ys;
      ToArrayAllAppend(xs[1..], ys);
    }
  }

  // ---------------------------------------------------------------------
  // The localhost exception

  /** `(:\d+)?$` after the host: nothing, or a colon and one or more digits. */
  predicate IsPortSuffix(p: string) {
    p == "" || (|p| >= 2 && p[0] == ':' && forall i :: 1 <= i < |p| ==> IsDigit(p[i]))
  }

  /** `(localhost|127\.0\.0\.1)(:\d+)?$` on the lower-cased rest of the origin. */
  predicate IsLocalHostAndPort(s: string) {
    (StartsWith(s, "localhost") || StartsWith(s, "127.0.0.1")) && IsPortSuffix(s[9..])
  }

  /**
   * `isLocalhostOrigin`: the pattern `^https?://(localhost|127\.0\.0\.1)(:\d+)?$`
   * matched without regard to letter case.
   */
  predicate IsLocalhostOrigin(origin: string) {
    IsLocalPattern(ToLower(origin))
  }

  /** The pattern itself, on text already in lower case. */
  predicate IsLocalPattern(l: string) {
    if StartsWith(l, "https://") then IsLocalHostAndPort(l[8..])
    else if StartsWith(l, "http://") then IsLocalHostAndPort(l[7..])
    else false
  }

  /** The split of an origin into scheme and the rest. */
  lemma SchemeSplit(scheme: string, rest: string)
    requires scheme == "http://" || scheme == "https://"
    ensures var l := scheme + rest;
            (scheme == "https://" ==> StartsWith(l, "https://") && l[8..] == rest) &&
            (scheme == "http://" ==> !StartsWith(l, "https://") && StartsWith(l, "http://") && l[7..] == rest)
  {
    var l := scheme + rest;
    if scheme == "http://" {
      assert l[4] == ':';
      assert l[..7] == scheme;
    } else {
      assert l[..8] == scheme;
    }
  }

  /** After the scheme, a local host is accepted exactly when a port suffix, or nothing, follows it. */
  lemma HostThenRest(host: string, rest: string)
    requires host == "localhost" || host == "127.0.0.1"
    ensures IsLocalHostAndPort(host + rest) <==> IsPortSuffix(rest)
  {
    assert (host + rest)[..9] == host;
    assert (host + rest)[9..] == rest;
    if host == "localhost" {
      assert (host + rest)[0] == 'l';
      assert !StartsWith(host + rest, "127.0.0.1");
    } else {
      assert (host + rest)[0] == '1';
      assert !StartsWith(host + rest, "localhost");
    }
  }

  /** Scheme and local host followed by `rest` match exactly when `rest` is empty or a port. */
  lemma SchemeHostRest(scheme: string, host: string, rest: string)
    requires scheme == "http://" || scheme == "https://"
    requires host == "localhost" || host == "127.0.0.1"
    ensures IsLocalPattern(scheme + host + rest) <==> IsPortSuffix(rest)
  {
    assert scheme + host + rest == scheme + (host + rest);
    SchemeSplit(scheme, host + rest);
    HostThenRest(host, rest);
  }

  /** Every origin of the form scheme, local host, optional port is accepted, in any letter case. */
  lemma LocalhostAccepted(origin: string, scheme: string, host: string, port: string)
    requires scheme == "http://" || scheme == "https://"
    requires host == "localhost" || host == "127.0.0.1"
    requires IsPortSuffix(port)
    requires ToLower(origin) == scheme + host + port
    ensures IsLocalhostOrigin(origin)
  {
    SchemeHostRest(scheme, host, port);
  }

  /** A local host followed by anything but a port, such as `localhost.example.com`, is refused. */
  lemma LookAlikeRefused(origin: string, scheme: string, host: string, rest: string)
    requires scheme == "http://" || scheme == "https://"
    requires host == "localhost" || host == "127.0.0.1"
    requires !IsPortSuffix(rest)
    requires ToLower(origin) == scheme + host + rest
    ensures !IsLocalhostOrigin(origin)
  {
    SchemeHostRest(scheme, host, rest);
  }

  // ---------------------------------------------------------------------
  // The per-request origin check

  /** What the `origin` callback answers: allowed, or an error with its message. */
  datatype Verdict = Allowed | Refused(message: string)

  /** The gateway's check: no origin, a local origin, or a listed one passes. */
  function GatewayCheck(allowed: seq<string>, origin: string): (r: Verdict)
    ensures r.Allowed? <==> origin == "" || IsLocalhostOrigin(origin) || origin in allowed
    ensures r.Refused? ==> r.message == "Origin " + origin + " is not allowed by CORS"
  {
    if origin == "" then Allowed
    else if IsLocalhostOrigin(origin) || origin in allowed then Allowed
    else Refused("Origin " + origin + " is not allowed by CORS")
  }

  /** The shared module's check: no localhost exception. */
  function SharedCheck(allowed: seq<string>, origin: string): (r: Verdict)
    ensures r.Allowed? <==> origin == "" || origin in allowed
    ensures r.Allowed? ==> GatewayCheck(allowed, origin).Allowed?
    ensures r.Refused? ==> r.message == "Origin " + origin + " is not allowed by CORS"
  {
    if origin == "" then Allowed
    else if origin in allowed then Allowed
    else Refused("Origin " + origin + " is not allowed by CORS")
  }

  /** The chat service's check: as the gateway's, with a shorter message. */
  function ChatServiceCheck(allowed: seq<string>, origin: string): (r: Verdict)
    ensures r.Allowed? <==> origin == "" || IsLocalhostOrigin(origin) || origin in allowed
    ensures r.Allowed? == GatewayCheck(allowed, origin).Allowed?
    ensures r.Refused? ==> r.message == "Origin " + origin + " not allowed by CORS"
  {
    if origin == "" || IsLocalhostOrigin(origin) || origin in allowed then Allowed
    else Refused("Origin " + origin + " not allowed by CORS")
  }

  /** The monolith's `isOriginAllowed`. */
  function IsOriginAllowed(allowed: seq<string>, origin: string): (r: bool)
    ensures r <==> origin == "" || IsLocalhostOrigin(origin) || origin in allowed
    ensures r == GatewayCheck(allowed, origin).Allowed?
  {
    origin == "" || IsLocalhostOrigin(origin) || origin in allowed
  }

  /** An unlisted local origin is where they part: the gateway lets it through, the shared module refuses it. */
  lemma LocalOriginOnlyAtGateway(allowed: seq<string>, origin: string)
    requires origin !in allowed
    requires ToLower(origin) == "http://" + "localhost" + ":5173"
    ensures GatewayCheck(allowed, origin).Allowed? && SharedCheck(allowed, origin).Refused?
  {
    LocalhostAccepted(origin, "http://", "localhost", ":5173");
    assert origin != "" by { assert |ToLower(origin)| == |origin|; }
  }

  // ---------------------------------------------------------------------
  // The gateway and the shared module

  const GatewayDefaultOrigins: seq<string> := ["http://localhost:5173", "http://localhost:3000", "http://localhost:30080"]
  const SharedDefaultOrigins: seq<string> := ["http://localhost:3000"]

  /** `getAllowedOrigins(raw)`: the parsed list, or `defaults` when it parses to nothing. */
  function AllowedOrigins(raw: Raw, defaults: seq<string>): (r: seq<string>)
    ensures |ToArray(raw)| > 0 ==> r == ToArray(raw)
    ensures |ToArray(raw)| == 0 ==> r == defaults
  {
    var parsed := ToArray(raw);
    if |parsed| > 0 then parsed else defaults
  }

  /** `process.env.ALLOWED_ORIGINS || process.env.ORIGIN`; an unset variable is "". */
  function ConfiguredRaw(allowedOriginsEnv: string, originEnv: string): (r: Raw)
    ensures allowedOriginsEnv != "" ==> r == Text(allowedOriginsEnv)
    ensures allowedOriginsEnv == "" ==> r == Text(originEnv)
  {
    Text(OrElse(allowedOriginsEnv, originEnv))
  }

  /** The gateway's list: never empty, every entry a token or a default. */
  function GatewayAllowedOrigins(allowedOriginsEnv: string, originEnv: string): (r: seq<string>)
    ensures |r| > 0
    ensures forall w :: w in r ==> IsToken(w) || w in GatewayDefaultOrigins
  {
    AllowedOrigins(ConfiguredRaw(allowedOriginsEnv, originEnv), GatewayDefaultOrigins)
  }

  /** The shared module's list: never empty, every entry a token or its single default. */
  function SharedAllowedOrigins(allowedOriginsEnv: string, originEnv: string): (r: seq<string>)
    ensures |r| > 0
    ensures forall w :: w in r ==> IsToken(w) || w in SharedDefaultOrigins
  {
    AllowedOrigins(ConfiguredRaw(allowedOriginsEnv, originEnv), SharedDefaultOrigins)
  }

  /** A configured comma-separated list is taken exactly. */
  lemma ConfiguredListUsed(ws: seq<string>, originEnv: string)
    requires ws != [] && forall w :: w in ws ==> IsToken(w)
    ensures Join(ws) != ""
    ensures GatewayAllowedOrigins(Join(ws), originEnv) == ws
    ensures SharedAllowedOrigins(Join(ws), originEnv) == ws
  {
    TokensOfJoin(ws);
  }

  /** A value of nothing but commas and white space parses to nothing. */
  lemma {:induction false} OnlySeparatorsParseToNothing(s: string)
    requires forall i :: 0 <= i < |s| ==> IsSeparator(s[i])
    ensures Tokens(s) == []
  {
    if s != [] {
      OnlySeparatorsParseToNothing(s[1..]);
    }
  }

  /**
   * Such a value in `ALLOWED_ORIGINS` gives the defaults: `ORIGIN` is not
   * consulted, as the first variable is set.
   */
  lemma BlankListGivesDefaults(s: string, originEnv: string)
    requires s != "" && forall i :: 0 <= i < |s| ==> IsSeparator(s[i])
    ensures GatewayAllowedOrigins(s, originEnv) == GatewayDefaultOrigins
    ensures SharedAllowedOrigins(s, originEnv) == SharedDefaultOrigins
  {
    OnlySeparatorsParseToNothing(s);
  }

  /** `getPrimaryOrigin`: the first allowed origin. */
  function PrimaryOrigin(allowed: seq<string>): (r: string)
    requires |allowed| > 0
    ensures r in allowed && r == allowed[0]
  {
    allowed[0]
  }

  /** The options `buildCorsOptions` returns, apart from the `origin` callback. */
  datatype CorsOptions = CorsOptions(credentials: bool, optionsSuccessStatus: int)

  /** The keys the caller's `overrides` carry. */
  datatype CorsOverrides = CorsOverrides(credentials: Option<bool>, optionsSuccessStatus: Option<int>)

  /** Credentials allowed and status 204, unless overridden. */
  function BuildCorsOptions(overrides: CorsOverrides): (r: CorsOptions)
    ensures r.credentials == (if overrides.credentials.Some? then overrides.credentials.value else true)
    ensures r.optionsSuccessStatus == (if overrides.optionsSuccessStatus.Some? then overrides.optionsSuccessStatus.value else 204)
  {
    CorsOptions(
      if overrides.credentials.Some? then overrides.credentials.value else true,
      if overrides.optionsSuccessStatus.Some? then overrides.optionsSuccessStatus.value else 204)
  }

  /**
   * `socketOrigins(...extras)`: the allowed origins, then the extras' pieces,
   * each once, first occurrence first. The `filter(Boolean)` removes
   * nothing, as no piece and no default is empty.
   */
  function SocketOrigins(allowed: seq<string>, extras: seq<Raw>): (r: seq<string>)
    ensures NoDups(r)
    ensures forall w :: w in r <==> w in allowed || w in ToArrayAll(extras)
    ensures |allowed| > 0 ==> |r| > 0 && r[0] == allowed[0]
  {
    var combined := allowed + ToArrayAll(extras);
    if |allowed| > 0 then
      DedupeKeepsHead(combined);
      Dedupe(combined)
    else
      Dedupe(combined)
  }

  /** Distinct allowed origins and new distinct extras are listed as given, the extras after. */
  lemma SocketOriginsOfDistinct(allowed: seq<string>, extras: seq<Raw>)
    requires NoDups(allowed + ToArrayAll(extras))
    ensures SocketOrigins(allowed, extras) == allowed + ToArrayAll(extras)
  {
    DedupeOfDistinct(allowed + ToArrayAll(extras));
  }

  // ---------------------------------------------------------------------
  // The monolithic server

  const ServerDefaultOrigins: seq<string> := ["http://localhost:5173", "http://localhost:3000", "http://localhost:30080"]

  predicate IsQuote(c: char) { c == '"' || c == '\'' }

  /** `sanitize`: every quote removed, then trimmed. */
  function Sanitize(value: string): (r: string)
    ensures forall i :: 0 <= i < |r| ==> !IsQuote(r[i])
    ensures |r| <= |value|
  {
    var unquoted := Keep(value, c => !IsQuote(c));
    var r := Trim(unquoted);
    PieceHasNoQuote(unquoted, r);
    r
  }

  /** A piece of a quote-free string is quote-free. */
  lemma PieceHasNoQuote(s: string, t: string)
    requires forall c :: c in s ==> !IsQuote(c)
    requires Contains(s, t)
    ensures forall i :: 0 <= i < |t| ==> !IsQuote(t[i])
  {
    var j :| 0 <= j <= |s| - |t| && PieceAt(s, t, j);
    assert s[j..j + |t|] == t;
    forall i | 0 <= i < |t| ensures !IsQuote(t[i]) {
      assert t[i] == s[j..j + |t|][i] == s[j + i];
    }
  }

  /** Removing quotes from a string without any changes nothing. */
  lemma {:induction false} KeepAllOfUnquoted(s: string)
    requires forall i :: 0 <= i < |s| ==> !IsQuote(s[i])
    ensures Keep(s, c => !IsQuote(c)) == s
  {
    if s != [] {
      KeepAllOfUnquoted(s[1..]);
      assert s == [s[0]] + s[1..];
    }
  }

  /** Sanitizing twice is sanitizing once. */
  lemma SanitizeIdempotent(value: string)
    ensures Sanitize(Sanitize(value)) == Sanitize(value)
  {
    var once := Sanitize(value);
    KeepAllOfUnquoted(once);
    var unquoted := Keep(value, c => !IsQuote(c));
    TrimIdempotent(unquoted);
  }

  /** `splitOrigins`: the pieces of the sanitized value, none with a quote. */
  function SplitOrigins(value: string): (r: seq<string>)
    ensures forall w :: w in r ==> IsToken(w)
  {
    Tokens(Sanitize(value))
  }

  /** The monolith's raw configuration: arrays are taken as they are, not parsed. */
  datatype ServerRaw = NotGiven | Given(s: string) | GivenList(items: seq<string>)

  /** `resolveAllowedOrigins(raw, fallback)` */
  function ResolveAllowedOrigins(raw: ServerRaw, fallback: seq<string>): (r: seq<string>)
    ensures raw.NotGiven? || raw == Given("") ==> r == fallback
    ensures raw.GivenList? ==> r == (if |raw.items| > 0 then raw.items else fallback)
    ensures raw.Given? && raw.s != "" ==> r == (if |SplitOrigins(raw.s)| > 0 then SplitOrigins(raw.s) else fallback)
  {
    match raw
    case NotGiven => fallback
    case Given(s) =>
      if s == "" then fallback
      else
        var parsed := SplitOrigins(s);
        if |parsed| > 0 then parsed else fallback
    case GivenList(items) => if |items| > 0 then items else fallback
  }

  /** The monolith reads `ORIGIN` first and `ALLOWED_ORIGINS` second, the reverse of the services. */
  function ServerAllowedOrigins(originEnv: string, allowedOriginsEnv: string): (r: seq<string>)
    ensures |r| > 0
    ensures originEnv != "" ==> r == ResolveAllowedOrigins(Given(originEnv), ServerDefaultOrigins)
    ensures originEnv == "" && allowedOriginsEnv == "" ==> r == ServerDefaultOrigins
  {
    var raw := OrElse(originEnv, allowedOriginsEnv);
    ResolveAllowedOrigins(if raw == "" then NotGiven else Given(raw), ServerDefaultOrigins)
  }

  /** A quoted, comma-separated list is read without its quotes. */
  lemma QuotedListParsed(ws: seq<string>)
    requires ws != [] && forall w :: w in ws ==> IsToken(w) && forall i :: 0 <= i < |w| ==> !IsQuote(w[i])
    ensures SplitOrigins("\"" + Join(ws) + "\"") == ws
  {
    var j := Join(ws);
    JoinUnquoted(ws);
    KeepAllOfUnquoted(j);
    KeepAroundQuotes(j);
    JoinTrimmed(ws);
    TokensOfJoin(ws);
  }

  /** A joined list of quote-free pieces has no quote. */
  lemma {:induction false} JoinUnquoted(ws: seq<string>)
    requires forall w :: w in ws ==> forall i :: 0 <= i < |w| ==> !IsQuote(w[i])
    ensures forall i :: 0 <= i < |Join(ws)| ==> !IsQuote(Join(ws)[i])
  {
    if |ws| > 1 {
      JoinUnquoted(ws[1..]);
      var t := Join(ws[1..]);
      var s := ws[0] + "," + t;
      forall i | 0 <= i < |s| ensures !IsQuote(s[i]) {
        if i < |ws[0]| { assert s[i] == ws[0][i]; }
        else if i == |ws[0]| { }
        else { assert s[i] == t[i - |ws[0]| - 1]; }
      }
    }
  }

  /** The surrounding quotes are dropped. */
  lemma KeepAroundQuotes(j: string)
    requires Keep(j, c => !IsQuote(c)) == j
    ensures Keep("\"" + j + "\"", c => !IsQuote(c)) == j
  {
    assert ("\"" + j + "\"")[1..] == j + "\"";
    KeepAppendQuote(j);
  }

  lemma {:induction false} KeepAppendQuote(j: string)
    ensures Keep(j + "\"", c => !IsQuote(c)) == Keep(j, c => !IsQuote(c))
  {
    if j == [] {
      assert j + "\"" == "\"";
      assert "\""[1..] == [];
    } else {
      assert (j + "\"")[1..] == j[1..] + "\"";
      KeepAppendQuote(j[1..]);
    }
  }

  /** A joined list of tokens starts and ends with a token character, so trimming leaves it. */
  lemma JoinTrimmed(ws: seq<string>)
    requires ws != [] && forall w :: w in ws ==> IsToken(w)
    ensures Trim(Join(ws)) == Join(ws)
  {
    JoinEnds(ws);
    TrimOfTrimmed(Join(ws));
  }

  lemma {:induction false} JoinEnds(ws: seq<string>)
    requires ws != [] && forall w :: w in ws ==> IsToken(w)
    ensures |Join(ws)| > 0 && !IsSeparator(Join(ws)[0]) && !IsSeparator(Join(ws)[|Join(ws)| - 1])
  {
    assert ws[0] in ws;
    if |ws| > 1 {
      assert forall w :: w in ws[1..] ==> w in ws;
      JoinEnds(ws[1..]);
      var t := Join(ws[1..]);
      var s := ws[0] + "," + t;
      assert s[0] == ws[0][0];
      assert s[|s| - 1] == t[|t| - 1];
    }
  }

  // ---------------------------------------------------------------------
  // The chat service

  const ChatServiceDefaultOrigins: seq<string> := ["http://localhost:5173", "http://localhost:3000", "http://localhost:30080"]

  /** The chat service's `toArray`: `String(input || "")` parsed; unset gives nothing. */
  function ChatServiceToArray(input: string): (r: seq<string>)
    ensures input == "" ==> r == []
    ensures forall w :: w in r ==> IsToken(w)
  {
    Tokens(input)
  }

  /** The chat service's list, read on every request. */
  function ChatServiceAllowedOrigins(allowedOriginsEnv: string, originEnv: string): (r: seq<string>)
    ensures |r| > 0
    ensures r == GatewayAllowedOrigins(allowedOriginsEnv, originEnv)
  {
    var parsed := ChatServiceToArray(OrElse(allowedOriginsEnv, originEnv));
    if |parsed| > 0 then parsed else ChatServiceDefaultOrigins
  }
}
