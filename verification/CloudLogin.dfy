/** Cloud sign-in: a bounded redirect loop inside a loop over regional fallback domains, against any server. */
module CloudLogin {
  import opened Prelude

  // ---------------------------------------------------------------- domains

  function StripPrefix(domain: string): string {
    if "https://" <= domain then domain[8..]
    else if "http://" <= domain then domain[7..]
    else domain
  }

  function StripSlashes(domain: string): string {
    if domain != [] && domain[|domain| - 1] == '/' then StripSlashes(domain[..|domain| - 1]) else domain
  }

  function StripScheme(domain: string): string { StripSlashes(StripPrefix(domain)) }

  const DEFAULT_DOMAIN := "iotx.meross.com"
  const DEFAULT_FALLBACK_DOMAINS := [DEFAULT_DOMAIN, "iotx-ap.meross.com", "iotx-us.meross.com", "iotx-eu.meross.com"]

  const WRONG_REGION := 1004
  const REDIRECT := 1030

  /** The other domains, in order. */
  function Without(defaults: seq<string>, domain: string): seq<string> {
    if defaults == [] then []
    else if defaults[0] == domain then Without(defaults[1..], domain)
    else [defaults[0]] + Without(defaults[1..], domain)
  }

  /** The domains to try: a configured unknown domain only; a configured known domain first, then the other
      known ones; with nothing configured (an empty text counts as nothing), the known ones. */
  function Candidates(configured: Option<string>): seq<string> {
    if configured.Some? && configured.value != "" then
      var domain := StripScheme(configured.value);
      if domain !in DEFAULT_FALLBACK_DOMAINS then [domain]
      else [domain] + Without(DEFAULT_FALLBACK_DOMAINS, domain)
    else DEFAULT_FALLBACK_DOMAINS
  }

  lemma {:induction false} WithoutKeeps(defaults: seq<string>, domain: string)
    requires NoDup(defaults)
    ensures NoDup(Without(defaults, domain)) && domain !in Without(defaults, domain)
    ensures forall d :: d in Without(defaults, domain) ==> d in defaults
    ensures |Without(defaults, domain)| <= |defaults|
    ensures domain in defaults ==> |Without(defaults, domain)| < |defaults|
  {
    if defaults != [] {
      assert defaults[0] !in defaults[1..];
      WithoutKeeps(defaults[1..], domain);
    }
  }

  lemma DefaultsDiffer()
    ensures NoDup(DEFAULT_FALLBACK_DOMAINS)
  {
    var d := DEFAULT_FALLBACK_DOMAINS;
    assert |d[0]| == 15 && |d[1]| == |d[2]| == |d[3]| == 18;
    assert d[1][5] == 'a' && d[2][5] == 'u' && d[3][5] == 'e';
  }

  /** No domain is listed twice, and there are one to four of them. */
  lemma CandidatesDiffer(configured: Option<string>)
    ensures NoDup(Candidates(configured)) && 1 <= |Candidates(configured)| <= 4
  {
    DefaultsDiffer();
    if configured.Some? {
      WithoutKeeps(DEFAULT_FALLBACK_DOMAINS, StripScheme(configured.value));
    }
  }

  lemma {:induction false} WithoutIs(defaults: seq<string>, domain: string)
    ensures forall d :: d in Without(defaults, domain) <==> d in defaults && d != domain
  {
    if defaults != [] {
      WithoutIs(defaults[1..], domain);
      assert defaults == [defaults[0]] + defaults[1..];
    }
  }

  /** Which domains are tried: a configured one first, alone if it is none of Meross's, and otherwise followed by exactly
      the other ones of Meross; without configuration the four of Meross, in their order. */
  lemma CandidatesAre(configured: Option<string>)
    ensures var r, known := Candidates(configured), ["iotx.meross.com", "iotx-ap.meross.com", "iotx-us.meross.com", "iotx-eu.meross.com"];
      && (configured.None? || configured.value == "" ==> r == known)
      && (configured.Some? && configured.value != "" ==>
            && r != [] && r[0] == StripScheme(configured.value)
            && (r[0] !in known ==> |r| == 1)
            && (r[0] in known ==> |r| == 4 && forall d :: d in r[1..] <==> d in known && d != r[0]))
  {
    hide StripScheme;
    var known := DEFAULT_FALLBACK_DOMAINS;
    if configured.Some? && configured.value != "" {
      var domain := StripScheme(configured.value);
      WithoutIs(known, domain);
      DefaultsDiffer();
      if domain in known {
        WithoutSize(known, domain);
      }
      assert ([domain] + Without(known, domain))[1..] == Without(known, domain);
    }
  }

  lemma {:induction false} WithoutSize(defaults: seq<string>, domain: string)
    requires NoDup(defaults)
    ensures |Without(defaults, domain)| == if domain in defaults then |defaults| - 1 else |defaults|
  {
    if defaults != [] {
      assert defaults[0] !in defaults[1..];
      assert defaults == [defaults[0]] + defaults[1..];
      WithoutSize(defaults[1..], domain);
    }
  }

  lemma {:induction false} SlashesStripped(host: string, slashes: string)
    requires host == "" || host[|host| - 1] != '/'
    requires forall c :: c in slashes ==> c == '/'
    ensures StripSlashes(host + slashes) == host
    decreases |slashes|
  {
    var s := host + slashes;
    if slashes == "" {
      assert s == host;
    } else {
      var n := |slashes| - 1;
      assert slashes[n] in slashes;
      assert forall c :: c in slashes[..n] ==> c in slashes;
      assert s[|s| - 1] == slashes[n] && s[..|s| - 1] == host + slashes[..n];
      SlashesStripped(host, slashes[..n]);
    }
  }

  lemma PrefixStripped(scheme: string, rest: string)
    requires scheme == "https://" || scheme == "http://" || (scheme == "" && !("https://" <= rest) && !("http://" <= rest))
    ensures StripPrefix(scheme + rest) == rest
  {
    var s := scheme + rest;
    if scheme == "http://" {
      assert s[4] == ':' && "https://"[4] == 's';
      assert s[7..] == rest;
    } else if scheme == "https://" {
      assert s[8..] == rest;
    } else {
      assert s == rest;
    }
  }

  /** A host name is found again behind its scheme and without trailing slashes. */
  lemma SchemeStripped(host: string, scheme: string, slashes: string)
    requires scheme == "https://" || scheme == "http://" || (scheme == "" && !("https://" <= host + slashes) && !("http://" <= host + slashes))
    requires host == "" || host[|host| - 1] != '/'
    requires forall c :: c in slashes ==> c == '/'
    ensures StripScheme(scheme + (host + slashes)) == host
  {
    hide StripPrefix;
    hide StripSlashes;
    PrefixStripped(scheme, host + slashes);
    SlashesStripped(host, slashes);
  }

  // ------------------------------------------------------------------ server

  datatype SignInData = SignInData(domain: Option<string>, token: string, key: string, userId: string, email: Option<string>)

  /** What a request yields: an exception (network, timeout, malformed body) or a status and data. */
  datatype Reply = Thrown | Reply(apiStatus: int, data: SignInData)

  /** Any server at all: its answer may depend on every request so far (the last one included). */
  type Server = seq<string> -> Reply

  predicate IsRedirect(r: Reply) {
    r.Reply? && r.apiStatus == REDIRECT && r.data.domain.Some? && r.data.domain.value != ""
  }

  /** Request `j` was answered by a redirect to the domain of request `j + 1`. */
  ghost predicate Redirects(server: Server, log: seq<string>, j: nat)
    requires j + 1 < |log|
  {
    IsRedirect(server(log[..j + 1])) && log[j + 1] == StripScheme(server(log[..j + 1]).data.domain.value)
  }

  /** Requests `first..` of the log serve one candidate: it is asked first, and each further request follows a
      redirect. */
  ghost predicate Chain(server: Server, log: seq<string>, first: nat, candidate: string) {
    && first < |log|
    && log[first] == StripScheme(candidate)
    && forall j :: first <= j < |log| - 1 ==> Redirects(server, log, j)
  }

  /** Such a chain has at most three requests, and stops before the third only on an answer that is no redirect. */
  ghost predicate FollowsRedirects(server: Server, log: seq<string>, first: nat, candidate: string) {
    && Chain(server, log, first, candidate)
    && |log| <= first + 3
    && (IsRedirect(server(log)) ==> |log| == first + 3)
  }

  lemma ChainGrows(server: Server, log: seq<string>, first: nat, candidate: string, domain: string)
    requires log == [] || first >= |log| || Chain(server, log, first, candidate)
    requires first == |log| ==> domain == StripScheme(candidate)
    requires first < |log| ==> IsRedirect(server(log)) && domain == StripScheme(server(log).data.domain.value)
    requires first <= |log|
    ensures Chain(server, log + [domain], first, candidate)
  {
    var longer := log + [domain];
    forall j | first <= j < |longer| - 1
      ensures Redirects(server, longer, j)
    {
      assert longer[..j + 1] == log[..j + 1];
      if j + 1 < |log| {
        assert Redirects(server, log, j);
      } else {
        assert log[..j + 1] == log;
      }
    }
  }

  datatype Answer = Answer(domain: string, resp: Reply)

  /** One candidate costs one to three requests, and the domain returned is the one that answered. */
  method PostWithRedirect(server: Server, sent: seq<string>, candidate: string)
      returns (r: Option<Answer>, log: seq<string>)
    ensures sent <= log && FollowsRedirects(server, log, |sent|, candidate)
    ensures r.None? <==> server(log).Thrown?
    ensures r.Some? ==> r.value == Answer(log[|log| - 1], server(log))
  {
    var domain := StripScheme(candidate);
    log := sent;
    var attempt := 0;
    while attempt < 2
      invariant 0 <= attempt <= 2 && |log| == |sent| + attempt && sent <= log
      invariant attempt == 0 ==> domain == StripScheme(candidate)
      invariant attempt > 0 ==> Chain(server, log, |sent|, candidate) && IsRedirect(server(log))
      invariant attempt > 0 ==> domain == StripScheme(server(log).data.domain.value)
    {
      ChainGrows(server, log, |sent|, candidate, domain);
      log := log + [domain];
      var resp := server(log);
      if resp.Thrown? {
        return None, log;
      }
      if IsRedirect(resp) {
        domain := StripScheme(resp.data.domain.value);
        attempt := attempt + 1;
        continue;
      }
      return Some(Answer(domain, resp)), log;
    }
    ChainGrows(server, log, |sent|, candidate, domain);
    log := log + [domain];
    var resp := server(log);
    if resp.Thrown? {
      return None, log;
    }
    return Some(Answer(domain, resp)), log;
  }

  // ------------------------------------------------------------------- login

  datatype Credentials = Credentials(domain: string, token: string, key: string, userId: string, userEmail: string)

  datatype Login =
    | SignedIn(creds: Credentials)
    | RequestThrew
    | SignInFailed(apiStatus: int)
    | Incomplete

  /** A candidate that was tried, and its requests: `first` up to, not including, `next`. */
  datatype Attempt = Attempt(candidate: string, first: nat, next: nat)

  /** Attempt `i` served candidate `i` with the requests it names. */
  ghost predicate Served(server: Server, candidates: seq<string>, attempts: seq<Attempt>, log: seq<string>, i: nat)
    requires i < |attempts| <= |candidates|
  {
    && attempts[i].candidate == candidates[i]
    && attempts[i].next <= |log|
    && FollowsRedirects(server, log[..attempts[i].next], attempts[i].first, candidates[i])
    && attempts[i].first == if i == 0 then 0 else attempts[i - 1].next
  }

  /** The attempts cover the log one after the other, in candidate order. */
  ghost predicate Covers(server: Server, candidates: seq<string>, attempts: seq<Attempt>, log: seq<string>) {
    && |attempts| <= |candidates|
    && |log| == (if attempts == [] then 0 else attempts[|attempts| - 1].next)
    && (forall i :: 0 <= i < |attempts| ==> Served(server, candidates, attempts, log, i))
  }

  /** Attempt `i` ended in the answer "wrong region". */
  ghost predicate EndedInWrongRegion(server: Server, attempts: seq<Attempt>, log: seq<string>, i: nat)
    requires i < |attempts|
  {
    attempts[i].next <= |log| && var last := server(log[..attempts[i].next]); last.Reply? && last.apiStatus == 1004
  }

  lemma {:induction false} RequestsBound(server: Server, candidates: seq<string>, attempts: seq<Attempt>, log: seq<string>, i: nat)
    requires Covers(server, candidates, attempts, log) && i < |attempts|
    ensures i + 1 <= attempts[i].next <= 3 * (i + 1)
  {
    assert Served(server, candidates, attempts, log, i);
    if i > 0 {
      RequestsBound(server, candidates, attempts, log, i - 1);
    }
  }

  /** Another candidate's requests are appended; what was known about the earlier attempts stays true. */
  lemma CoversGrows(server: Server, candidates: seq<string>, attempts: seq<Attempt>, log: seq<string>, longer: seq<string>)
    requires Covers(server, candidates, attempts, log) && |attempts| < |candidates| && log <= longer
    requires FollowsRedirects(server, longer, |log|, candidates[|attempts|])
    ensures var more := attempts + [Attempt(candidates[|attempts|], |log|, |longer|)];
      && Covers(server, candidates, more, longer)
      && (forall i :: 0 <= i < |attempts| && EndedInWrongRegion(server, attempts, log, i) ==> EndedInWrongRegion(server, more, longer, i))
  {
    hide FollowsRedirects;
    var more := attempts + [Attempt(candidates[|attempts|], |log|, |longer|)];
    assert longer[..|longer|] == longer;
    assert Served(server, candidates, more, longer, |attempts|);
    forall i | 0 <= i < |attempts|
      ensures Served(server, candidates, more, longer, i)
      ensures EndedInWrongRegion(server, attempts, log, i) ==> EndedInWrongRegion(server, more, longer, i)
    {
      assert Served(server, candidates, attempts, log, i);
      PrefixOfPrefix(log, longer, attempts[i].next);
    }
  }

  lemma PrefixOfPrefix(log: seq<string>, longer: seq<string>, n: nat)
    requires log <= longer && n <= |log|
    ensures longer[..n] == log[..n]
  {
  }

  predicate Complete(data: SignInData) { data.token != "" && data.key != "" && data.userId != "" }

  /** A sign-in sends 1 to 12 requests; it moves on to a later candidate only after every earlier one answered
      "wrong region", and stops for another reason unless the candidates ran out; it succeeds exactly when the last
      request was answered 0 with a token, a key and a user id. */
  method MerossCloudLogin(server: Server, configured: Option<string>, email: string)
      returns (r: Login, attempts: seq<Attempt>, log: seq<string>)
    ensures Covers(server, Candidates(configured), attempts, log) && 1 <= |log| <= 12
    ensures forall i :: 0 <= i < |attempts| - 1 ==> EndedInWrongRegion(server, attempts, log, i)
    ensures EndedInWrongRegion(server, attempts, log, |attempts| - 1) ==> |attempts| == |Candidates(configured)|
    ensures r.SignedIn? <==> server(log).Reply? && server(log).apiStatus == 0 && Complete(server(log).data)
    ensures r.RequestThrew? <==> server(log).Thrown?
    ensures r.SignInFailed? <==> server(log).Reply? && server(log).apiStatus != 0
    ensures r.SignInFailed? ==> r.apiStatus == server(log).apiStatus
    ensures r.SignedIn? ==> var data := server(log).data;
      r.creds == Credentials(StripScheme(if data.domain.Some? then data.domain.value else log[|log| - 1]),
                             data.token, data.key, data.userId, if data.email.Some? then data.email.value else email)
  {
    hide Candidates;
    hide FollowsRedirects;
    hide Served;
    hide StripScheme;
    var domainCandidates := Candidates(configured);
    CandidatesDiffer(configured);
    var resolvedDomain := StripScheme(if configured.Some? then configured.value else DEFAULT_DOMAIN);
    var resp := Thrown;
    attempts, log := [], [];
    var i := 0;
    while i < |domainCandidates|
      invariant 0 <= i <= |domainCandidates| && |attempts| == i && (i > 0 ==> log != [])
      invariant Covers(server, domainCandidates, attempts, log)
      invariant forall k :: 0 <= k < i ==> EndedInWrongRegion(server, attempts, log, k)
      invariant i < |domainCandidates|
    {
      ghost var before, tried := log, attempts;
      var first := |log|;
      var result;
      result, log := PostWithRedirect(server, log, domainCandidates[i]);
      attempts := attempts + [Attempt(domainCandidates[i], first, |log|)];
      CoversGrows(server, domainCandidates, tried, before, log);
      RequestsBound(server, domainCandidates, attempts, log, i);
      assert log[..attempts[i].next] == log;
      if result.None? {
        return RequestThrew, attempts, log;
      }
      resolvedDomain := result.value.domain;
      resp := result.value.resp;
      if resp.apiStatus == 0 {
        break;
      }
      var canRetryAlternate := resp.apiStatus == WRONG_REGION && i < |domainCandidates| - 1;
      if !canRetryAlternate {
        break;
      }
      i := i + 1;
    }
    if resp.Thrown? || resp.apiStatus != 0 {
      return SignInFailed(resp.apiStatus), attempts, log;
    }
    var data := resp.data;
    var finalDomain := StripScheme(if data.domain.Some? then data.domain.value else resolvedDomain);
    if !Complete(data) {
      return Incomplete, attempts, log;
    }
    return SignedIn(Credentials(finalDomain, data.token, data.key, data.userId,
                                if data.email.Some? then data.email.value else email)), attempts, log;
  }
}
