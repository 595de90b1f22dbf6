/** Daemon endpoints `host:port` and `[ipv6]:port`: parsing, printing and normalising. */
module DaemonEndpoints {
  import opened Options
  import opened Text

  datatype HostPort = HostPort(host: string, port: int, isIpv6: bool)
  datatype EndpointError = HostRequired | BadBracketForm | BadPlainForm | BadPort

  // ---------------------------------------------------------------------------------------------
  // Parsing and printing

  /** One to five digits. */
  predicate IsPortText(s: string) {
    1 <= |s| <= 5 && AllDigits(s)
  }

  function ParsePort(text: string): Result<int, EndpointError>
    requires AllDigits(text)
  {
    var port := DecimalValue(text);
    if port < 1 || port > 65535 then Err(BadPort) else Ok(port)
  }

  /** `[`, anything without `]`, `]:` and a port: the host and port texts. */
  function MatchBracketed(s: string): Option<(string, string)> {
    match LastIndexOf(s, ':')
    case None => None
    case Some(n) =>
      if n >= 3 && s[0] == '[' && s[n - 1] == ']' && ']' !in s[1..n - 1] && IsPortText(s[n + 1..])
      then Some((s[1..n - 1], s[n + 1..])) else None
  }

  /** Anything on one line, `:` and a port. */
  function MatchPlain(s: string): Option<(string, string)> {
    match LastIndexOf(s, ':')
    case None => None
    case Some(n) =>
      if n >= 1 && (forall i | 0 <= i < n :: !IsLineTerminator(s[i])) && IsPortText(s[n + 1..])
      then Some((s[..n], s[n + 1..])) else None
  }

  function Build(host: string, portText: string, isIpv6: bool): Result<HostPort, EndpointError>
    requires AllDigits(portText)
  {
    if Trim(host) == "" then Err(HostRequired)
    else
      match ParsePort(portText)
      case Err(e) => Err(e)
      case Ok(port) => Ok(HostPort(Trim(host), port, isIpv6))
  }

  function ParseHostPort(input: string): Result<HostPort, EndpointError> {
    var trimmed := Trim(input);
    if trimmed == "" then Err(HostRequired)
    else if trimmed[0] == '[' then
      match MatchBracketed(trimmed)
      case None => Err(BadBracketForm)
      case Some(parts) => Build(parts.0, parts.1, true)
    else
      match MatchPlain(trimmed)
      case None => Err(BadPlainForm)
      case Some(parts) => Build(parts.0, parts.1, false)
  }

  function Print(p: HostPort): string
    requires p.port >= 0
  {
    if p.isIpv6 then "[" + p.host + "]:" + Decimal(p.port) else p.host + ":" + Decimal(p.port)
  }

  function NormalizeHostPort(input: string): Result<string, EndpointError> {
    match ParseHostPort(input)
    case Err(e) => Err(e)
    case Ok(p) => assert p.port >= 0; Ok(Print(p))
  }

  function NormalizeLoopbackToLocalhost(endpoint: string): Result<string, EndpointError> {
    match ParseHostPort(endpoint)
    case Err(e) => Err(e)
    case Ok(p) =>
      assert p.port >= 0;
      if p.host == "127.0.0.1" || (!p.isIpv6 && p.host == "0.0.0.0") then Ok("localhost:" + Decimal(p.port))
      else if p.isIpv6 && (p.host == "::1" || p.host == "::") then Ok("localhost:" + Decimal(p.port))
      else Ok(endpoint)
  }

  // ---------------------------------------------------------------------------------------------
  // The texts the two forms match

  predicate BracketedText(s: string, host: string, port: string) {
    s == "[" + host + "]:" + port && host != "" && ']' !in host && OneToFiveDigits(port)
  }

  predicate PlainText(s: string, host: string, port: string) {
    s == host + ":" + port && host != "" && (forall i | 0 <= i < |host| :: !IsLineTerminator(host[i]))
    && OneToFiveDigits(port)
  }

  predicate OneToFiveDigits(s: string) {
    |s| in {1, 2, 3, 4, 5} && forall i | 0 <= i < |s| :: '0' <= s[i] <= '9'
  }

  lemma BracketedPieces(host: string, port: string)
    requires ':' !in port
    ensures var s, n := "[" + host + "]:" + port, |host| + 2;
            LastIndexOf(s, ':') == Some(n) && s[1..n - 1] == host && s[n + 1..] == port && s[n - 1] == ']'
            && s[0] == '['
  {
    LastIndexOfAt("[" + host + "]", ':', port);
    assert "[" + host + "]:" + port == "[" + host + "]" + [':'] + port;
  }

  lemma PlainPieces(host: string, port: string)
    requires ':' !in port
    ensures var s, n := host + ":" + port, |host|;
            LastIndexOf(s, ':') == Some(n) && s[..n] == host && s[n + 1..] == port
  {
    LastIndexOfAt(host, ':', port);
    assert host + ":" + port == host + [':'] + port;
  }

  /** The bracketed form, as the pattern `^\[([^\]]+)\]:(\d{1,5})$` reads. */
  lemma BracketedIsPattern(s: string, host: string, port: string)
    ensures MatchBracketed(s) == Some((host, port)) <==> BracketedText(s, host, port)
  {
    assert IsPortText(port) <==> OneToFiveDigits(port);
    hide LastIndexOf, IsPortText, OneToFiveDigits;
    if BracketedText(s, host, port) {
      DigitsHaveNoColon(port);
      BracketedPieces(host, port);
    }
    if MatchBracketed(s) == Some((host, port)) {
      var n := LastIndexOf(s, ':').value;
      assert s == "[" + s[1..n - 1] + "]:" + s[n + 1..];
    }
  }

  lemma {:induction false} PlainMatches(host: string, port: string)
    requires PlainText(host + ":" + port, host, port)
    ensures MatchPlain(host + ":" + port) == Some((host, port))
  {
    DigitsHaveNoColon(port);
    PlainPieces(host, port);
    hide LastIndexOf;
    assert forall i | 0 <= i < |host| :: (host + ":" + port)[i] == host[i];
  }

  /** The plain form, as the pattern `^(.+):(\d{1,5})$` reads. */
  lemma {:induction false} PlainIsPattern(s: string, host: string, port: string)
    ensures MatchPlain(s) == Some((host, port)) <==> PlainText(s, host, port)
  {
    if PlainText(s, host, port) {
      PlainMatches(host, port);
    }
    if MatchPlain(s) == Some((host, port)) {
      hide LastIndexOf;
      var n := LastIndexOf(s, ':').value;
      assert s == s[..n] + ":" + s[n + 1..];
    }
  }

  lemma DigitsHaveNoColon(s: string)
    requires IsPortText(s)
    ensures ':' !in s
  {
  }

  /** What a recognised host and port come to: white space around the host goes, a blank host is an error before the
      port is looked at, and the port is the number written, from 1 to 65535. */
  predicate ReadsAs(r: Result<HostPort, EndpointError>, host: string, port: string, isIpv6: bool)
    requires OneToFiveDigits(port)
  {
    assert AllDigits(port);
    if Trim(host) == "" then r == Err(HostRequired)
    else if 1 <= DecimalValue(port) <= 65535 then r == Ok(HostPort(Trim(host), DecimalValue(port), isIpv6))
    else r == Err(BadPort)
  }

  /** Parsing, exactly: a blank input, a bracketed one and a plain one, each with its own error. */
  lemma {:induction false} ParsedExactly(input: string)
    ensures var t, r := Trim(input), ParseHostPort(input);
            if t == "" then r == Err(HostRequired)
            else if t[0] == '[' then
              && (forall host, port :: BracketedText(t, host, port) ==> ReadsAs(r, host, port, true))
              && ((forall host, port :: !BracketedText(t, host, port)) ==> r == Err(BadBracketForm))
            else
              && (forall host, port :: PlainText(t, host, port) ==> ReadsAs(r, host, port, false))
              && ((forall host, port :: !PlainText(t, host, port)) ==> r == Err(BadPlainForm))
  {
    var t := Trim(input);
    hide Trim, MatchBracketed, MatchPlain, DecimalValue;
    forall host, port ensures MatchBracketed(t) == Some((host, port)) <==> BracketedText(t, host, port) {
      BracketedIsPattern(t, host, port);
    }
    forall host, port ensures MatchPlain(t) == Some((host, port)) <==> PlainText(t, host, port) {
      PlainIsPattern(t, host, port);
    }
    if MatchBracketed(t).Some? {
      assert MatchBracketed(t) == Some((MatchBracketed(t).value.0, MatchBracketed(t).value.1));
    }
    if MatchPlain(t).Some? {
      assert MatchPlain(t) == Some((MatchPlain(t).value.0, MatchPlain(t).value.1));
    }
  }

  // ---------------------------------------------------------------------------------------------
  // Round trips

  /** The endpoints that come out of parsing. */
  predicate IsEndpoint(p: HostPort) {
    && 1 <= p.port <= 65535
    && p.host != "" && Trimmed(p.host)
    && if p.isIpv6 then ']' !in p.host
       else p.host[0] != '[' && forall i | 0 <= i < |p.host| :: !IsLineTerminator(p.host[i])
  }

  lemma PortPrints(port: int)
    requires 1 <= port <= 65535
    ensures IsPortText(Decimal(port)) && ParsePort(Decimal(port)) == Ok(port)
  {
    DecimalRoundTrip(port);
    DecimalLength(port, 5);
  }

  lemma {:induction false} DecimalLength(n: nat, digits: nat)
    requires digits >= 1 && n < Power10(digits)
    ensures |Decimal(n)| <= digits
  {
    if n >= 10 {
      DecimalLength(n / 10, digits - 1);
    }
  }

  function Power10(n: nat): nat {
    if n == 0 then 1 else 10 * Power10(n - 1)
  }

  lemma ParsedIsEndpoint(input: string)
    ensures var r := ParseHostPort(input); r.Ok? ==> IsEndpoint(r.value)
  {
    var trimmed := Trim(input);
    TrimTrims(input);
    if trimmed != "" && trimmed[0] == '[' {
      var m := MatchBracketed(trimmed);
      if m.Some? {
        TrimTrims(m.value.0);
      }
    } else if trimmed != "" {
      var m := MatchPlain(trimmed);
      if m.Some? {
        TrimTrims(m.value.0);
        forall c | c in Trim(m.value.0) ensures !IsLineTerminator(c) {
          var i :| 0 <= i < |m.value.0| && m.value.0[i] == c;
        }
      }
    }
  }

  lemma DigitsAreTrimmed(s: string)
    requires IsPortText(s)
    ensures !IsSpace(s[|s| - 1])
  {
  }

  lemma {:induction false} PrintedShape(p: HostPort)
    requires IsEndpoint(p)
    ensures var s, port := Print(p), Decimal(p.port);
            && s != "" && Trimmed(s) && s[0] == (if p.isIpv6 then '[' else p.host[0])
            && IsPortText(port) && ParsePort(port) == Ok(p.port)
            && (if p.isIpv6 then BracketedText(s, p.host, port) else PlainText(s, p.host, port))
  {
    PortPrints(p.port);
    DigitsAreTrimmed(Decimal(p.port));
    hide Decimal;
  }

  lemma {:induction false} PrintedParses(p: HostPort)
    requires IsEndpoint(p)
    ensures ParseHostPort(Print(p)) == Ok(p)
  {
    var s, port := Print(p), Decimal(p.port);
    PrintedShape(p);
    TrimTrims(s);
    TrimTrims(p.host);
    BracketedIsPattern(s, p.host, port);
    PlainIsPattern(s, p.host, port);
    hide Trim, Decimal, MatchBracketed, MatchPlain, ParsePort, BracketedText, PlainText, Print;
  }

  /** Printing and parsing give back an endpoint exactly if it is one that parsing makes. */
  lemma ParseAfterPrint(p: HostPort)
    requires p.port >= 0
    ensures ParseHostPort(Print(p)) == Ok(p) <==> IsEndpoint(p)
    ensures IsEndpoint(p) <==> exists input :: ParseHostPort(input) == Ok(p)
  {
    if IsEndpoint(p) {
      PrintedParses(p);
    }
    if input :| ParseHostPort(input) == Ok(p) {
      ParsedIsEndpoint(input);
    }
  }

  /** Normalising keeps what is denoted and does nothing the second time. */
  lemma NormalizeIsIdempotent(input: string)
    ensures var r := NormalizeHostPort(input);
            r.Ok? ==> ParseHostPort(r.value) == ParseHostPort(input) && NormalizeHostPort(r.value) == r
  {
    var parsed := ParseHostPort(input);
    if parsed.Ok? {
      ParsedIsEndpoint(input);
      PrintedParses(parsed.value);
    }
  }

  /** The addresses that stand for this machine. */
  predicate IsLoopback(p: HostPort) {
    p.host == "127.0.0.1" || p.host == (if p.isIpv6 then "::1" else "0.0.0.0") || (p.isIpv6 && p.host == "::")
  }

  /** Loopback addresses become `localhost` on the same port, everything else stays, and again changes nothing. */
  lemma LoopbackIsIdempotent(endpoint: string)
    ensures var r, parsed := NormalizeLoopbackToLocalhost(endpoint), ParseHostPort(endpoint);
            parsed.Ok? ==>
              && r.Ok? && NormalizeLoopbackToLocalhost(r.value) == r
              && ParseHostPort(r.value) == Ok(if IsLoopback(parsed.value)
                                              then HostPort("localhost", parsed.value.port, false)
                                              else parsed.value)
  {
    var parsed := ParseHostPort(endpoint);
    if parsed.Ok? {
      ParsedIsEndpoint(endpoint);
      var local := HostPort("localhost", parsed.value.port, false);
      assert IsEndpoint(local);
      PrintedParses(local);
      assert "localhost" + ":" == "localhost:";
      assert Print(local) == "localhost:" + Decimal(local.port);
    }
  }
}
