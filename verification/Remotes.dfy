/** Origin URLs: taking one apart, and rebuilding the URL that is pushed to. */
module Remotes {
  import opened JsText

  datatype Remote = Remote(host: string, org: string, repo: string)

  predicate IsSchemeChar(c: char) {
    IsLetter(c) || IsDigit(c) || c in "+.-"
  }

  /** Without one trailing slash, and then without one `.git` that leaves something. */
  function RepoOf(rest: string): string {
    var bare := if EndsWith(rest, "/") then rest[..|rest| - 1] else rest;
    if EndsWith(bare, ".git") && |bare| > 4 then bare[..|bare| - 4] else bare
  }

  /** `org/repo` with an optional `.git` and an optional slash after it. */
  function ParsePath(host: string, path: string): Option<Remote> {
    var o := Find(path, '/');
    if o == 0 || o == |path| then None
    else
      var repo := RepoOf(path[o + 1..]);
      if repo == "" || '/' in repo then None else Some(Remote(host, path[..o], repo))
  }

  /** `host[:port]/org/repo`. */
  function ParseAuthority(s: string): Option<Remote> {
    var slash := Find(s, '/');
    if slash == |s| then None
    else
      var authority, path := s[..slash], s[slash + 1..];
      var colon := Find(authority, ':');
      var port := authority[colon..];
      if colon == 0 || (port != "" && (|port| < 2 || !AllDigits(port[1..]))) then None
      else ParsePath(authority[..colon], path)
  }

  /** `host:org/repo`. */
  function ParseScp(s: string): Option<Remote> {
    var colon := Find(s, ':');
    if colon == 0 || colon == |s| || '/' in s[..colon] then None
    else ParsePath(s[..colon], s[colon + 1..])
  }

  /** Try first with everything up to the first `@` taken as user information, then without. */
  function WithOrWithoutUser(s: string, allowEmptyUser: bool, parse: string -> Option<Remote>): Option<Remote> {
    var at := Find(s, '@');
    if at < |s| && '/' !in s[..at] && (at > 0 || allowEmptyUser) && parse(s[at + 1..]).Some?
    then parse(s[at + 1..])
    else parse(s)
  }

  /** The part after `scheme://`, if the string starts that way. */
  function AfterScheme(url: string): Option<string> {
    var colon := Find(url, ':');
    if colon > 0 && IsLetter(url[0]) && (forall c <- url[..colon] :: IsSchemeChar(c)) && StartsWith(url[colon..], "://")
    then Some(url[colon + 3..])
    else None
  }

  function ParseRemote(url: string): Option<Remote> {
    var viaScheme := match AfterScheme(url)
                     case Some(rest) => WithOrWithoutUser(rest, true, ParseAuthority)
                     case None => None;
    if viaScheme.Some? then viaScheme else WithOrWithoutUser(url, false, ParseScp)
  }

  predicate IsHostChar(c: char) {
    IsLetter(c) || IsDigit(c) || c in ".-"
  }

  predicate IsNameChar(c: char) {
    IsHostChar(c) || c == '_'
  }

  predicate HasDotDot(s: string) {
    exists i | 0 <= i < |s| - 1 :: s[i] == '.' && s[i + 1] == '.'
  }

  predicate IsHost(s: string) {
    s != "" && (forall c <- s :: IsHostChar(c)) && !HasDotDot(s)
  }

  predicate IsName(s: string) {
    s != "" && (forall c <- s :: IsNameChar(c)) && s != "." && !HasDotDot(s)
  }

  function CanonicalHttpsUrl(r: Remote): Option<string> {
    if IsHost(r.host) && IsName(r.org) && IsName(r.repo)
    then Some("https://" + r.host + "/" + r.org + "/" + r.repo + ".git")
    else None
  }

  lemma PathRoundTrip(host: string, org: string, repo: string)
    requires IsName(org) && IsName(repo)
    ensures ParsePath(host, org + "/" + repo + ".git") == Some(Remote(host, org, repo))
  {
    var path := org + "/" + repo + ".git";
    assert path[..|org|] == org;
    FindIs(path, '/', |org|);
    assert path[|org| + 1..] == repo + ".git";
    RepoRoundTrip(repo);
  }

  lemma RepoRoundTrip(repo: string)
    requires repo != ""
    ensures RepoOf(repo + ".git") == repo
  {
    var rest := repo + ".git";
    assert rest[|rest| - 1..][0] == 't';
    assert rest[|rest| - 4..] == ".git" && rest[..|rest| - 4] == repo;
  }

  lemma AuthorityRoundTrip(r: Remote)
    requires IsHost(r.host) && IsName(r.org) && IsName(r.repo)
    ensures ParseAuthority(r.host + "/" + r.org + "/" + r.repo + ".git") == Some(r)
  {
    var path := r.org + "/" + r.repo + ".git";
    var s := r.host + "/" + path;
    assert r.host + "/" + r.org + "/" + r.repo + ".git" == s;
    HostAndPath(r.host, path);
    assert r.host[|r.host|..] == "" && r.host[..|r.host|] == r.host;
    FindIs(r.host, ':', |r.host|);
    PathRoundTrip(r.host, r.org, r.repo);
    hide Find;
    hide ParsePath;
  }

  lemma HostAndPath(host: string, path: string)
    requires IsHost(host)
    ensures var s := host + "/" + path;
      Find(s, '/') == |host| && s[..|host|] == host && s[|host| + 1..] == path
  {
    var s := host + "/" + path;
    assert s[..|host|] == host && s[|host| + 1..] == path;
    FindIs(s, '/', |host|);
  }

  /** Parsing undoes the canonical form. */
  lemma ParseUndoesCanonical(r: Remote)
    requires CanonicalHttpsUrl(r).Some?
    ensures ParseRemote(CanonicalHttpsUrl(r).value) == Some(r)
  {
    var rest := r.host + "/" + r.org + "/" + r.repo + ".git";
    var url := "https://" + rest;
    assert CanonicalHttpsUrl(r).value == url;
    assert url[..5] == "https";
    FindIs(url, ':', 5);
    assert url[5..] == "://" + rest;
    assert url[5..][..3] == "://" && url[8..] == rest;
    assert AfterScheme(url) == Some(rest);
    var at := Find(rest, '@');
    NoAtSign(r);
    assert at == |rest|;
    AuthorityRoundTrip(r);
  }

  lemma NoAtSign(r: Remote)
    requires IsHost(r.host) && IsName(r.org) && IsName(r.repo)
    ensures '@' !in r.host + "/" + r.org + "/" + r.repo + ".git"
  {
  }

  /** Two remotes with the same push URL name the same host, organisation and repository. */
  lemma CanonicalIsInjective(a: Remote, b: Remote)
    requires CanonicalHttpsUrl(a).Some? && CanonicalHttpsUrl(a) == CanonicalHttpsUrl(b)
    ensures a == b
  {
    ParseUndoesCanonical(a);
    ParseUndoesCanonical(b);
  }

  // ---------------------------------------------------------------- the forms an origin may have

  /** What may follow the repository: `.git`, a slash, both or neither. A name that ends in `.git`
      itself needs its own. */
  predicate IsTail(repo: string, tail: string) {
    tail in {".git", ".git/"} || (tail in {"", "/"} && (|repo| <= 4 || !EndsWith(repo, ".git")))
  }

  lemma LastFour(s: string, t: string)
    requires |t| == 4
    ensures EndsWith(s + t, t) && (s + t)[..|s|] == s
  {
    assert (s + t)[|s|..] == t;
  }

  lemma LastOne(s: string, c: char)
    ensures EndsWith(s + [c], "/") <==> c == '/'
    ensures (s + [c])[..|s|] == s
  {
    assert (s + [c])[|s|..] == [c];
  }

  lemma SlashIsDropped(bare: string)
    requires !EndsWith(bare, "/")
    ensures RepoOf(bare + "/") == RepoOf(bare)
  {
    assert bare + "/" == bare + ['/'];
    LastOne(bare, '/');
    hide EndsWith;
  }

  lemma GitIsDropped(repo: string)
    requires repo != ""
    ensures RepoOf(repo + ".git") == repo && !EndsWith(repo + ".git", "/")
  {
    RepoRoundTrip(repo);
    assert repo + ".git" == (repo + ".gi") + ['t'];
    LastOne(repo + ".gi", 't');
    hide EndsWith;
    hide RepoOf;
  }

  lemma PlainIsKept(repo: string)
    requires IsName(repo) && (|repo| <= 4 || !EndsWith(repo, ".git"))
    ensures RepoOf(repo) == repo && !EndsWith(repo, "/")
  {
    var n := |repo|;
    assert repo == repo[..n - 1] + [repo[n - 1]];
    LastOne(repo[..n - 1], repo[n - 1]);
    assert repo[n - 1] in repo;
    hide EndsWith;
  }

  lemma TailIsDropped(repo: string, tail: string)
    requires IsName(repo) && IsTail(repo, tail)
    ensures RepoOf(repo + tail) == repo
  {
    if tail == ".git" || tail == ".git/" {
      GitIsDropped(repo);
      SlashIsDropped(repo + ".git");
      assert repo + ".git/" == repo + ".git" + "/";
    } else {
      PlainIsKept(repo);
      SlashIsDropped(repo);
      assert repo + "" == repo;
    }
    hide RepoOf;
    hide EndsWith;
  }

  lemma PathForms(host: string, org: string, repo: string, tail: string)
    requires IsName(org) && IsName(repo) && IsTail(repo, tail)
    ensures ParsePath(host, org + "/" + repo + tail) == Some(Remote(host, org, repo))
  {
    var path := org + "/" + (repo + tail);
    assert org + "/" + repo + tail == path;
    assert path[..|org|] == org && path[|org| + 1..] == repo + tail;
    FindIs(path, '/', |org|);
    TailIsDropped(repo, tail);
    hide RepoOf;
    assert '/' !in repo;
  }

  /** No port, or a colon and digits. */
  predicate IsPort(port: string) {
    port == "" || (|port| >= 2 && port[0] == ':' && AllDigits(port[1..]))
  }

  lemma SplitAt(before: string, c: char, rest: string)
    requires c !in before
    ensures var s := before + [c] + rest;
      Find(s, c) == |before| && s[..|before|] == before && s[|before| + 1..] == rest
  {
    var s := before + [c] + rest;
    assert s[..|before|] == before && s[|before| + 1..] == rest;
    FindIs(s, c, |before|);
  }

  lemma PortSplits(host: string, port: string)
    requires IsPort(port) && ':' !in host
    ensures var s := host + port;
      Find(s, ':') == |host| && s[..|host|] == host && s[|host|..] == port
  {
    var s := host + port;
    assert s[..|host|] == host && s[|host|..] == port;
    FindIs(s, ':', |host|);
  }

  lemma AuthorityForms(r: Remote, port: string, tail: string)
    requires IsHost(r.host) && IsName(r.org) && IsName(r.repo) && IsPort(port) && IsTail(r.repo, tail)
    ensures ParseAuthority(r.host + port + "/" + (r.org + "/" + r.repo + tail)) == Some(r)
  {
    var authority, path := r.host + port, r.org + "/" + r.repo + tail;
    NoSlash(r.host, port);
    SplitAt(authority, '/', path);
    PortSplits(r.host, port);
    PathForms(r.host, r.org, r.repo, tail);
    hide ParsePath;
    hide Find;
    hide IsPort;
    hide IsHost;
  }

  lemma NoSlash(host: string, port: string)
    requires IsHost(host) && IsPort(port)
    ensures '/' !in host + port && ':' !in host && '@' !in host + port
  {
    if port != "" {
      var digits := port[1..];
      assert port == [':'] + digits;
      assert AllDigits(digits) && forall c <- digits :: IsDigit(c);
      assert forall c <- digits :: c != '/' && c != '@';
    }
  }

  predicate IsUserChar(c: char) {
    c != '@' && c != '/' && c != ':'
  }

  /** No user, or one before an `@`. */
  predicate IsUser(user: string) {
    user == "" || (|user| >= 2 && user[|user| - 1] == '@' && forall c <- user[..|user| - 1] :: IsUserChar(c))
  }

  lemma UserIsDropped(user: string, rest: string, allowEmptyUser: bool, parse: string -> Option<Remote>)
    requires IsUser(user) && parse(rest).Some? && '@' !in rest
    ensures WithOrWithoutUser(user + rest, allowEmptyUser, parse) == parse(rest)
  {
    var s := user + rest;
    if user == "" {
      assert s == rest && s[..|s|] == s;
      FindIs(s, '@', |s|);
    } else {
      var n := |user| - 1;
      assert s[..n] == user[..n] && s[n] == '@' && s[n + 1..] == rest;
      assert forall c <- user[..n] :: IsUserChar(c);
      FindIs(s, '@', n);
    }
  }

  /** Schemes with a host: `https://host/org/repo`, `ssh://git@host:22/org/repo.git` and the like. */
  lemma UrlFormsAreParsed(scheme: string, user: string, r: Remote, port: string, tail: string)
    requires scheme != "" && IsLetter(scheme[0]) && forall c <- scheme :: IsSchemeChar(c)
    requires IsUser(user) && IsHost(r.host) && IsPort(port) && IsName(r.org) && IsName(r.repo) && IsTail(r.repo, tail)
    ensures ParseRemote(scheme + "://" + (user + (r.host + port + "/" + (r.org + "/" + r.repo + tail)))) == Some(r)
  {
    var path := r.org + "/" + r.repo + tail;
    var rest := r.host + port + "/" + path;
    AuthorityForms(r, port, tail);
    NoSlash(r.host, port);
    PathHasNoAt(r, tail);
    assert '@' !in rest;
    UserIsDropped(user, rest, true, ParseAuthority);
    SchemeIsDropped(scheme, user + rest);
    hide ParseAuthority;
    hide WithOrWithoutUser;
    hide AfterScheme;
  }

  lemma PathHasNoAt(r: Remote, tail: string)
    requires IsName(r.org) && IsName(r.repo) && IsTail(r.repo, tail)
    ensures '@' !in r.org + "/" + r.repo + tail
  {
  }

  lemma SchemeIsDropped(scheme: string, rest: string)
    requires scheme != "" && IsLetter(scheme[0]) && forall c <- scheme :: IsSchemeChar(c)
    ensures AfterScheme(scheme + "://" + rest) == Some(rest)
  {
    var url := scheme + "://" + rest;
    assert url[..|scheme|] == scheme && url[|scheme|..] == "://" + rest && url[|scheme| + 3..] == rest;
    FindIs(url, ':', |scheme|);
    assert ("://" + rest)[..3] == "://";
  }

  /** The short form `git@host:org/repo.git`. */
  lemma ShortFormsAreParsed(user: string, r: Remote, tail: string)
    requires IsUser(user) && IsHost(r.host) && IsName(r.org) && IsName(r.repo) && IsTail(r.repo, tail)
    ensures ParseRemote(user + (r.host + ":" + (r.org + "/" + r.repo + tail))) == Some(r)
  {
    var path := r.org + "/" + r.repo + tail;
    var rest := r.host + ":" + path;
    assert rest[..|r.host|] == r.host && rest[|r.host| + 1..] == path;
    NoSlash(r.host, "");
    assert r.host + "" == r.host;
    FindIs(rest, ':', |r.host|);
    PathForms(r.host, r.org, r.repo, tail);
    PathHasNoAt(r, tail);
    assert '@' !in rest;
    assert ParseScp(rest) == Some(r);
    UserIsDropped(user, rest, false, ParseScp);
    ShortHasNoScheme(user, r, tail);
    hide ParseScp;
    hide ParsePath;
    hide WithOrWithoutUser;
    hide AfterScheme;
  }

  lemma NoColon(user: string)
    requires IsUser(user)
    ensures ':' !in user
  {
    if user != "" {
      var name := user[..|user| - 1];
      assert user == name + ['@'];
      assert forall c <- name :: IsUserChar(c);
      assert forall c <- name :: c != ':';
    }
  }

  lemma ShortHasNoScheme(user: string, r: Remote, tail: string)
    requires IsUser(user) && IsHost(r.host) && IsName(r.org)
    ensures AfterScheme(user + (r.host + ":" + (r.org + "/" + r.repo + tail))) == None
  {
    var url := user + (r.host + ":" + (r.org + "/" + r.repo + tail));
    var n := |user + r.host|;
    assert url[..n] == user + r.host && url[n] == ':' && url[n + 1] == r.org[0];
    NoSlash(r.host, "");
    NoColon(user);
    assert forall c <- user + r.host :: c in user || c in r.host;
    FindIs(url, ':', n);
    assert url[n..][1] == r.org[0] && r.org[0] in r.org;
  }
}
