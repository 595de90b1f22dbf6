/** Plugin references `source:path`: telling the path from the colons a source may contain. */
module PluginSourceReference {
  import opened Options
  import opened Text

  datatype Reference = Reference(source: string, pluginPath: Option<string>)

  // ---------------------------------------------------------------------------------------------
  // Parsing and formatting

  predicate IsLetter(c: char) {
    'a' <= c <= 'z' || 'A' <= c <= 'Z'
  }

  predicate IsPortable(path: string) {
    if path == "." then true
    else if path == "" || path[0] == '/' || path[0] == '\\' then false
    else if (|path| >= 2 && IsLetter(path[0]) && path[1] == ':') || ':' in path then false
    else forall part | part in Split(path, {'/', '\\'}) :: part != "" && part != "." && part != ".."
  }

  /** Where `://` first occurs. */
  function Scheme(s: string): (r: Option<nat>)
    ensures r.Some? <==> exists i: nat :: SchemeAt(s, i)
    ensures r.Some? ==> SchemeAt(s, r.value) && forall i | 0 <= i < r.value :: !SchemeAt(s, i)
  {
    if SchemeAt(s, 0) then Some(0)
    else if s == "" then None
    else
      var r := Scheme(s[1..]);
      assert forall i: nat | SchemeAt(s, i) :: i > 0 && SchemeAt(s[1..], i - 1);
      assert r.Some? ==> SchemeAt(s, r.value + 1);
      if r.Some? then Some(r.value + 1) else None
  }

  predicate SchemeAt(s: string, i: nat) {
    i + 2 < |s| && s[i] == ':' && s[i + 1] == '/' && s[i + 2] == '/'
  }

  predicate IsUserChar(c: char) {
    c != '/' && c != '@' && !IsSpace(c)
  }

  predicate IsHostChar(c: char) {
    c != ':' && !IsSpace(c)
  }

  /** `user@host` at the start of `s`, up to `n`: what the pattern `^[^/@\s]+@[^:\s]+` matches. */
  predicate UserAtHost(s: string, k: nat, n: nat) {
    && 0 < k && k + 1 < n <= |s| && s[k] == '@'
    && (forall i | 0 <= i < k :: IsUserChar(s[i]))
    && (forall i | k < i < n :: IsHostChar(s[i]))
  }

  /** The colon behind `user@host`. */
  function ScpSeparator(s: string): (r: Option<nat>)
    ensures r.Some? ==> r.value < |s| && s[r.value] == ':' && exists k :: UserAtHost(s, k, r.value)
  {
    match IndexOf(s, '@', 0)
    case None => None
    case Some(k) =>
      match IndexOf(s, ':', k)
      case None => None
      case Some(n) => if UserAtHost(s, k, n) then Some(n) else None
  }

  function Parse(reference: string): Reference {
    match LastIndexOf(reference, ':')
    case None => Reference(reference, None)
    case Some(separator) => ParseAt(reference, separator, reference[..separator], reference[separator + 1..])
  }

  /** The colon at `separator` sets a path apart unless it belongs to a scheme, an authority or a host. */
  function ParseAt(reference: string, separator: nat, source: string, pluginPath: string): Reference {
    if !IsPortable(pluginPath) then Reference(reference, None)
    else
      match Scheme(reference)
      case Some(scheme) =>
        (match IndexOf(reference, '/', scheme + 3)
         case None => Reference(reference, None)
         case Some(pathStart) =>
           if separator < pathStart then Reference(reference, None) else Reference(source, Some(pluginPath)))
      case None =>
        if ScpSeparator(reference) == Some(separator) then Reference(reference, None)
        else Reference(source, Some(pluginPath))
  }

  datatype FormatError = NotPortable

  function Format(ref: Reference): Result<string, FormatError> {
    match ref.pluginPath
    case None => Ok(ref.source)
    case Some(path) => if IsPortable(path) then Ok(ref.source + ":" + path) else Err(NotPortable)
  }

  // ---------------------------------------------------------------------------------------------
  // Portable paths

  lemma {:induction false} FirstPartEmpty(s: string, seps: set<char>)
    requires s == "" || s[0] in seps
    ensures "" in Split(s, seps)
  {
    assert Split(s, seps)[0] == "";
  }

  /** The tests on the front of a path are implied by those on its parts. */
  lemma PortableIsParts(path: string)
    ensures IsPortable(path)
            <==> path == "." || (':' !in path && forall part | part in Split(path, {'/', '\\'}) ::
                 part !in {"", ".", ".."})
  {
    if path == "" || path[0] == '/' || path[0] == '\\' {
      FirstPartEmpty(path, {'/', '\\'});
    }
  }

  lemma PortableHasNoColon(path: string)
    requires IsPortable(path)
    ensures path != "" && ':' !in path && path[0] != '/'
  {
  }

  // ---------------------------------------------------------------------------------------------
  // Parsing, then formatting

  /** Every reference comes back unchanged, and what was told apart is never rejected. */
  lemma FormatAfterParse(reference: string)
    ensures Format(Parse(reference)) == Ok(reference)
  {
    var separator := LastIndexOf(reference, ':');
    if separator.Some? {
      var n := separator.value;
      assert reference == reference[..n] + ":" + reference[n + 1..];
    }
  }

  // ---------------------------------------------------------------------------------------------
  // Formatting, then parsing

  /** A `/` behind the authority of the scheme. */
  predicate HasPathAfterAuthority(source: string) {
    Scheme(source).Some? && IndexOf(source, '/', Scheme(source).value + 3).Some?
  }

  /** All of `source` is `user@host` without a colon in the host. */
  ghost predicate IsUserAtHost(source: string) {
    exists k :: UserAtHost(source, k, |source|)
  }

  /** Sources a plugin path can be appended to without being misread. */
  ghost predicate CarriesPath(source: string) {
    if Scheme(source).Some? then HasPathAfterAuthority(source) else !IsUserAtHost(source)
  }

  lemma SchemeStays(source: string, path: string)
    requires IsPortable(path)
    ensures Scheme(source + ":" + path) == Scheme(source)
  {
    PortableHasNoColon(path);
    var s := source + ":" + path;
    assert forall i | 0 <= i < |source| :: s[i] == source[i];
    assert s[|source|] == ':' && s[|source| + 1] == path[0];
    assert forall i | |source| < i < |s| :: s[i] == path[i - |source| - 1] && s[i] in path;
    forall i: nat ensures SchemeAt(s, i) <==> SchemeAt(source, i) {
    }
  }

  lemma SlashBefore(source: string, path: string, start: nat)
    requires start <= |source|
    ensures var r := IndexOf(source + ":" + path, '/', start);
            (r.Some? && r.value <= |source|) <==> IndexOf(source, '/', start).Some?
  {
    var s := source + ":" + path;
    var r, q := IndexOf(s, '/', start), IndexOf(source, '/', start);
    if r.Some? && r.value <= |source| {
      assert s[|source|] == ':';
      assert source[start..][r.value - start] == '/';
    }
    if q.Some? {
      assert forall i | start <= i < q.value :: s[i] == source[start..q.value][i - start];
      FirstIsAt(s, '/', start, q.value);
    }
  }

  lemma ScpIsWholeSource(source: string, path: string)
    requires ':' !in path
    ensures ScpSeparator(source + ":" + path) == Some(|source|) <==> IsUserAtHost(source)
  {
    var s := source + ":" + path;
    assert s[|source|] == ':' && forall i | 0 <= i < |source| :: s[i] == source[i];
    if ScpSeparator(s) == Some(|source|) {
      var k :| UserAtHost(s, k, |source|);
      assert UserAtHost(source, k, |source|);
    }
    if k :| UserAtHost(source, k, |source|) {
      FirstIsAt(s, '@', 0, k);
      FirstIsAt(s, ':', k, |source|);
    }
  }

  lemma {:induction false} FirstIsAt(s: string, c: char, start: nat, n: nat)
    requires start <= n < |s| && s[n] == c && forall i | start <= i < n :: s[i] != c
    ensures IndexOf(s, c, start) == Some(n)
    decreases n - start
  {
    if start < n {
      FirstIsAt(s, c, start + 1, n);
    }
  }

  lemma {:induction false} Pieces(source: string, path: string)
    ensures var s := source + ":" + path; s[..|source|] == source && s[|source| + 1..] == path
  {
  }

  lemma {:induction false} ParseJoined(source: string, path: string)
    requires IsPortable(path)
    ensures Parse(source + ":" + path) == ParseAt(source + ":" + path, |source|, source, path)
  {
    PortableHasNoColon(path);
    hide IsPortable, LastIndexOf, ParseAt;
    LastIndexOfAt(source, ':', path);
    Pieces(source, path);
  }

  /** A source has a scheme iff it contains `://`. */
  lemma {:induction false} SchemeText(s: string)
    ensures Scheme(s).Some? <==> exists a, b :: s == a + "://" + b
    ensures Scheme(s).Some? ==>
              exists a, b :: && s == a + "://" + b && |a| == Scheme(s).value
                             && forall c, d :: s == c + "://" + d ==> |a| <= |c|
  {
    if a, b :| s == a + "://" + b {
      assert SchemeAt(s, |a|);
    }
    if Scheme(s).Some? {
      var i := Scheme(s).value;
      assert s == s[..i] + "://" + s[i + 3..];
      forall c, d | s == c + "://" + d ensures |s[..i]| <= |c| {
        assert SchemeAt(s, |c|);
      }
    }
  }

  predicate IsUser(user: string) {
    user != "" && '/' !in user && '@' !in user && forall c | c in user :: !IsSpace(c)
  }

  predicate IsHost(host: string) {
    host != "" && ':' !in host && forall c | c in host :: !IsSpace(c)
  }

  lemma {:induction false} SplitAtSign(s: string, k: nat)
    requires UserAtHost(s, k, |s|)
    ensures k + 1 < |s| && s == s[..k] + "@" + s[k + 1..] && IsUser(s[..k]) && IsHost(s[k + 1..])
  {
    var user, host := s[..k], s[k + 1..];
    forall c | c in user ensures IsUserChar(c) {
      var i :| 0 <= i < |user| && user[i] == c;
      assert s[i] == c;
    }
    forall c | c in host ensures IsHostChar(c) {
      var i :| 0 <= i < |host| && host[i] == c;
      assert s[k + 1 + i] == c;
    }
  }

  lemma {:induction false} JoinAtSign(user: string, host: string)
    requires IsUser(user) && IsHost(host)
    ensures UserAtHost(user + "@" + host, |user|, |user + "@" + host|)
  {
    var s := user + "@" + host;
    assert forall i | 0 <= i < |user| :: s[i] == user[i] && user[i] in user;
    assert forall i | |user| < i < |s| :: s[i] == host[i - |user| - 1] && host[i - |user| - 1] in host;
  }

  /** `user@host`: neither is empty or has white space, the user has no `/` or `@`, the host no colon. */
  lemma {:induction false} UserAtHostText(s: string)
    ensures IsUserAtHost(s) <==> exists user, host :: s == user + "@" + host && IsUser(user) && IsHost(host)
  {
    hide UserAtHost, IsUser, IsHost;
    if k: nat :| UserAtHost(s, k, |s|) {
      SplitAtSign(s, k);
    }
    if user, host :| s == user + "@" + host && IsUser(user) && IsHost(host) {
      JoinAtSign(user, host);
    }
  }

  /** The slash that ends an authority is the first one behind `://`. */
  lemma {:induction false} AuthorityEnds(a: string, b: string)
    requires Scheme(a + "://" + b) == Some(|a|)
    ensures HasPathAfterAuthority(a + "://" + b) <==> '/' in b
  {
    var s := a + "://" + b;
    assert s[|a| + 3..] == b;
  }

  /** A source and a path come back exactly if the path is portable and the source can carry one. */
  lemma {:induction false} ParseAfterFormat(source: string, path: string)
    ensures var ref := Reference(source, Some(path));
            (Format(ref).Ok? && Parse(Format(ref).value) == ref) <==> IsPortable(path) && CarriesPath(source)
  {
    hide IsPortable, Scheme, ScpSeparator, IndexOf, IsUserAtHost, Parse;
    if IsPortable(path) {
      PortableHasNoColon(path);
      ParseJoined(source, path);
      SchemeStays(source, path);
      ScpIsWholeSource(source, path);
      if Scheme(source).Some? {
        SlashBefore(source, path, Scheme(source).value + 3);
      }
    }
  }

  /** A bare source comes back as one exactly if it does not read as a carrying source with a portable path. */
  lemma ParseBareSource(source: string)
    ensures Parse(source) == Reference(source, None)
            <==> !exists head, path :: source == head + ":" + path && IsPortable(path) && CarriesPath(head)
  {
    if Parse(source) != Reference(source, None) {
      var n := LastIndexOf(source, ':').value;
      var head, path := source[..n], source[n + 1..];
      assert source == head + ":" + path;
      ParseAfterFormat(head, path);
    }
    if head, path :| source == head + ":" + path && IsPortable(path) && CarriesPath(head) {
      ParseAfterFormat(head, path);
    }
  }
}
