/** Which cookies a clearance keeps, and which of them accompany a request
    (internal/cfclearance/clearance.go and the two cookie walks of transport.go). */
module CookieRules {
  import opened Basics

  datatype Cookie = Cookie(name: string, value: string, domain: string, path: string)

  datatype Clearance = Clearance(cookies: seq<Cookie>, userAgent: string)

  datatype Url = Url(host: string, path: string)

  const CLEARANCE_COOKIE := "cf_clearance"
  const CLOUDFLARE_COOKIE_PREFIX := "__cf"

  // ---------------------------------------------------------------- matching

  function LowerChar(c: char): char {
    if 'A' <= c <= 'Z' then c - 'A' + 'a' else c
  }

  function Lower(s: string): string {
    seq(|s|, i requires 0 <= i < |s| => LowerChar(s[i]))
  }

  predicate HasSuffix(s: string, suffix: string) {
    |suffix| <= |s| && s[|s| - |suffix|..] == suffix
  }

  function TrimDot(domain: string): string {
    if "." <= domain then domain[1..] else domain
  }

  function OrRoot(path: string): string {
    if path == "" then "/" else path
  }

  predicate DomainMatches(cookieDomain: string, host: string) {
    var h := Lower(host);
    var d := Lower(TrimDot(cookieDomain));
    h == d || HasSuffix(h, "." + d)
  }

  predicate PathMatches(cookiePath: string, requestPath: string) {
    var c := OrRoot(cookiePath);
    var r := OrRoot(requestPath);
    r == c || (c <= r && (HasSuffix(c, "/") || r[|c|] == '/'))
  }

  predicate CookieMatches(c: Cookie, u: Url) {
    DomainMatches(c.domain, u.host) && PathMatches(c.path, u.path)
  }

  function WithSlash(path: string): string {
    if HasSuffix(path, "/") then path else path + "/"
  }

  /** Section 5.1.4 of RFC 6265 in one line: a cookie path covers itself and the directory below it. */
  lemma PathMatchesIsDirectoryPrefix(cookiePath: string, requestPath: string)
    ensures PathMatches(cookiePath, requestPath) <==>
            OrRoot(requestPath) == OrRoot(cookiePath) || WithSlash(OrRoot(cookiePath)) <= OrRoot(requestPath)
  {
    var c, r := OrRoot(cookiePath), OrRoot(requestPath);
    if c <= r && |c| < |r| {
      assert r[..|c| + 1] == c + [r[|c|]];
    }
  }

  /** Covering nests: what a covered path covers, the covering cookie path covers too. */
  lemma PathMatchesTransitive(a: string, b: string, c: string)
    requires PathMatches(a, b) && PathMatches(b, c)
    ensures PathMatches(a, c)
  {
    PathMatchesIsDirectoryPrefix(a, b);
    PathMatchesIsDirectoryPrefix(b, c);
    PathMatchesIsDirectoryPrefix(a, c);
    var x, y, z := OrRoot(a), OrRoot(b), OrRoot(c);
    if x != y && y != z {
      assert WithSlash(x) <= y <= WithSlash(y) <= z;
    }
  }

  /** The labels of a host name, between its dots. */
  function Labels(s: string): (labels: seq<string>)
    ensures |labels| > 0
  {
    if s == "" then [""]
    else
      var rest := Labels(s[1..]);
      if s[0] == '.' then [""] + rest else [[s[0]] + rest[0]] + rest[1..]
  }

  lemma {:induction false} LabelsOfConcat(a: string, b: string)
    ensures Labels(a + "." + b) == Labels(a) + Labels(b)
  {
    if a == "" {
      assert a + "." + b == ['.'] + b;
      assert (['.'] + b)[1..] == b;
    } else {
      assert (a + "." + b)[1..] == a[1..] + "." + b;
      LabelsOfConcat(a[1..], b);
    }
  }

  function Joined(labels: seq<string>): string
    requires labels != []
  {
    if |labels| == 1 then labels[0] else labels[0] + "." + Joined(labels[1..])
  }

  lemma {:induction false} JoinedLabels(s: string)
    ensures Joined(Labels(s)) == s
  {
    if s != "" {
      JoinedLabels(s[1..]);
      var rest := Labels(s[1..]);
      assert s == [s[0]] + s[1..];
      if s[0] == '.' {
        assert ([""] + rest)[1..] == rest;
        assert "" + "." + Joined(rest) == "." + Joined(rest);
      } else {
        var labels := [[s[0]] + rest[0]] + rest[1..];
        assert labels[1..] == rest[1..];
        if |rest| > 1 {
          assert ([s[0]] + rest[0]) + "." + Joined(rest[1..]) == [s[0]] + (rest[0] + "." + Joined(rest[1..]));
        }
      }
    }
  }

  lemma {:induction false} JoinedConcat(a: seq<string>, b: seq<string>)
    requires a != [] && b != []
    ensures Joined(a + b) == Joined(a) + "." + Joined(b)
  {
    if |a| == 1 {
      assert (a + b)[1..] == b;
    } else {
      assert (a + b)[1..] == a[1..] + b;
      JoinedConcat(a[1..], b);
      assert a[0] + "." + (Joined(a[1..]) + "." + Joined(b)) == (a[0] + "." + Joined(a[1..])) + "." + Joined(b);
    }
  }

  ghost predicate EndsWithLabels(host: string, domain: string) {
    |Labels(domain)| <= |Labels(host)| && Labels(host)[|Labels(host)| - |Labels(domain)|..] == Labels(domain)
  }

  lemma SuffixHasLabels(h: string, d: string)
    requires HasSuffix(h, "." + d)
    ensures EndsWithLabels(h, d)
  {
    var front := h[..|h| - |d| - 1];
    assert h == front + "." + d;
    LabelsOfConcat(front, d);
  }

  lemma LabelsAreSuffix(h: string, d: string)
    requires EndsWithLabels(h, d)
    ensures h == d || HasSuffix(h, "." + d)
  {
    var n := |Labels(h)| - |Labels(d)|;
    JoinedLabels(h);
    JoinedLabels(d);
    if n > 0 {
      var front := Labels(h)[..n];
      assert Labels(h) == front + Labels(d);
      JoinedConcat(front, Labels(d));
      assert h == Joined(front) + "." + d;
      assert h[|Joined(front)|..] == "." + d;
    } else {
      assert Labels(h) == Labels(d);
    }
  }

  /** A cookie's domain covers the hosts whose last labels are the domain's, whatever their case and whether or not
      the domain has a leading dot (section 5.1.3 of RFC 6265). */
  lemma DomainMatchesByLabels(cookieDomain: string, host: string)
    ensures DomainMatches(cookieDomain, host) <==>
            EndsWithLabels(Lower(host), Lower(if cookieDomain != "" && cookieDomain[0] == '.' then cookieDomain[1..] else cookieDomain))
  {
    var h, d := Lower(host), Lower(TrimDot(cookieDomain));
    if HasSuffix(h, "." + d) { SuffixHasLabels(h, d); }
    if EndsWithLabels(h, d) { LabelsAreSuffix(h, d); }
  }

  lemma LowerIgnoresCase(c: char)
    ensures 'A' <= c <= 'Z' ==> 'a' <= LowerChar(c) <= 'z' && LowerChar(c) as int - 'a' as int == c as int - 'A' as int
    ensures !('A' <= c <= 'Z') ==> LowerChar(c) == c
  {
  }

  // ---------------------------------------------------------------- keeping

  predicate IsCloudflareCookie(c: Cookie) {
    c.name == CLEARANCE_COOKIE || CLOUDFLARE_COOKIE_PREFIX <= c.name
  }

  function Scoped(c: Cookie, host: string): Cookie {
    if c.domain == "" then c.(domain := host) else c
  }

  function CloudflareCookies(cookies: seq<Cookie>, host: string): seq<Cookie> {
    if cookies == [] then []
    else
      (if IsCloudflareCookie(cookies[0]) then [Scoped(cookies[0], host)] else [])
      + CloudflareCookies(cookies[1..], host)
  }

  lemma {:induction false} CloudflareCookiesSnoc(cookies: seq<Cookie>, c: Cookie, host: string)
    ensures CloudflareCookies(cookies + [c], host) ==
            CloudflareCookies(cookies, host) + (if IsCloudflareCookie(c) then [Scoped(c, host)] else [])
  {
    if cookies == [] {
      assert cookies + [c] == [c];
    } else {
      assert (cookies + [c])[1..] == cookies[1..] + [c];
      CloudflareCookiesSnoc(cookies[1..], c, host);
      ConcatAssociates(if IsCloudflareCookie(cookies[0]) then [Scoped(cookies[0], host)] else [],
                       CloudflareCookies(cookies[1..], host), if IsCloudflareCookie(c) then [Scoped(c, host)] else []);
    }
  }

  function CloudflareFn(): Cookie -> bool {
    (c: Cookie) => c.name == "cf_clearance" || "__cf" <= c.name
  }

  function ScopedFn(host: string): Cookie -> Cookie {
    (c: Cookie) => Cookie(c.name, c.value, if c.domain == "" then host else c.domain, c.path)
  }

  /** What is kept: the cookies named cf_clearance or with the prefix __cf, each once and in order, the ones without a
      domain given the host's. */
  lemma {:induction false} KeptExactly(cookies: seq<Cookie>, host: string)
    ensures Picks(CloudflareCookies(cookies, host), cookies, CloudflareFn(), ScopedFn(host))
  {
    if cookies == [] {
      PicksNothing(CloudflareFn(), ScopedFn(host));
    } else {
      var init, c := cookies[..|cookies| - 1], cookies[|cookies| - 1];
      assert cookies == init + [c];
      KeptExactly(init, host);
      CloudflareCookiesSnoc(init, c, host);
      PicksSnoc(CloudflareCookies(init, host), init, CloudflareFn(), ScopedFn(host), c);
    }
  }

  method KeepCloudflareCookies(cookies: seq<Cookie>, host: string) returns (kept: seq<Cookie>)
    ensures kept == CloudflareCookies(cookies, host)
  {
    kept := [];
    for i := 0 to |cookies|
      invariant kept == CloudflareCookies(cookies[..i], host)
    {
      assert cookies[..i + 1] == cookies[..i] + [cookies[i]];
      CloudflareCookiesSnoc(cookies[..i], cookies[i], host);
      if !IsCloudflareCookie(cookies[i]) {
        continue;
      }
      kept := kept + [Scoped(cookies[i], host)];
    }
    assert cookies[..|cookies|] == cookies;
  }

  /** A kept cookie the engine reported without a domain or a path accompanies every request to that host. */
  lemma ScopedCookieMatchesItsHost(c: Cookie, u: Url)
    requires c.domain == "" && c.path == ""
    requires "/" <= OrRoot(u.path)
    ensures CookieMatches(Scoped(c, u.host), u)
  {
    var h, d := Lower(u.host), Lower(TrimDot(u.host));
    if "." <= u.host {
      assert h == "." + d;
    }
  }

  predicate IsFresh(c: Cookie, rejected: string) {
    c.name == CLEARANCE_COOKIE && c.value != "" && c.value != rejected
  }

  predicate HasFreshClearance(cookies: seq<Cookie>, rejected: string) {
    exists i :: 0 <= i < |cookies| && IsFresh(cookies[i], rejected)
  }

  /** Dropping the site's own cookies and scoping the rest neither loses nor invents a fresh clearance,
      so what the solver's answer was checked for is what the store then holds. */
  lemma {:induction false} KeepingPreservesFreshness(cookies: seq<Cookie>, host: string, rejected: string)
    ensures HasFreshClearance(CloudflareCookies(cookies, host), rejected) <==> HasFreshClearance(cookies, rejected)
  {
    if cookies != [] {
      var rest, kept := cookies[1..], CloudflareCookies(cookies[1..], host);
      KeepingPreservesFreshness(rest, host, rejected);
      var head := if IsCloudflareCookie(cookies[0]) then [Scoped(cookies[0], host)] else [];
      FreshnessOfConcat(head, kept, rejected);
      FreshnessOfConcat([cookies[0]], rest, rejected);
      assert cookies == [cookies[0]] + rest;
      if IsFresh(cookies[0], rejected) {
        assert IsFresh(head[0], rejected) && IsFresh([cookies[0]][0], rejected);
      }
    }
  }

  lemma FreshnessOfConcat(a: seq<Cookie>, b: seq<Cookie>, rejected: string)
    ensures HasFreshClearance(a + b, rejected) <==> HasFreshClearance(a, rejected) || HasFreshClearance(b, rejected)
  {
    if HasFreshClearance(a, rejected) {
      var i :| 0 <= i < |a| && IsFresh(a[i], rejected);
      assert (a + b)[i] == a[i];
    }
    if HasFreshClearance(b, rejected) {
      var i :| 0 <= i < |b| && IsFresh(b[i], rejected);
      assert (a + b)[|a| + i] == b[i];
    }
  }

  // ---------------------------------------------------------------- the two cookie walks

  /** The values of the stored cf_clearance cookies that apply to `u`, in stored order. */
  function ApplicableValues(cookies: seq<Cookie>, u: Url): seq<string> {
    if cookies == [] then []
    else
      (if cookies[0].name == CLEARANCE_COOKIE && CookieMatches(cookies[0], u) then [cookies[0].value] else [])
      + ApplicableValues(cookies[1..], u)
  }

  lemma {:induction false} ApplicableValuesSnoc(cookies: seq<Cookie>, c: Cookie, u: Url)
    ensures ApplicableValues(cookies + [c], u) ==
            ApplicableValues(cookies, u)
            + (if c.name == CLEARANCE_COOKIE && CookieMatches(c, u) then [c.value] else [])
  {
    if cookies == [] {
      assert cookies + [c] == [c];
    } else {
      assert (cookies + [c])[1..] == cookies[1..] + [c];
      ApplicableValuesSnoc(cookies[1..], c, u);
      ConcatAssociates(if cookies[0].name == CLEARANCE_COOKIE && CookieMatches(cookies[0], u) then [cookies[0].value] else [],
                       ApplicableValues(cookies[1..], u),
                       if c.name == CLEARANCE_COOKIE && CookieMatches(c, u) then [c.value] else []);
    }
  }

  function AppliesFn(u: Url): Cookie -> bool {
    (c: Cookie) => c.name == "cf_clearance" && CookieMatches(c, u)
  }

  function ValueFn(): Cookie -> string {
    (c: Cookie) => c.value
  }

  /** The stored clearances that apply: each once and in order. */
  lemma {:induction false} ApplicableExactly(cookies: seq<Cookie>, u: Url)
    ensures Picks(ApplicableValues(cookies, u), cookies, AppliesFn(u), ValueFn())
  {
    if cookies == [] {
      PicksNothing(AppliesFn(u), ValueFn());
    } else {
      var init, c := cookies[..|cookies| - 1], cookies[|cookies| - 1];
      assert cookies == init + [c];
      ApplicableExactly(init, u);
      ApplicableValuesSnoc(init, c, u);
      PicksSnoc(ApplicableValues(init, u), init, AppliesFn(u), ValueFn(), c);
    }
  }

  function FirstOrEmpty(values: seq<string>): string {
    if values == [] then "" else values[0]
  }

  function LastOrEmpty(values: seq<string>): string {
    if values == [] then "" else values[|values| - 1]
  }

  /** The value ensureFresh judges: the first one that applies. */
  function CurrentClearance(stored: Clearance, u: Url): string {
    FirstOrEmpty(ApplicableValues(stored.cookies, u))
  }

  /** The value a decorated request reports as sent: the last one that applies, unless the caller
      brought a cf_clearance of its own. */
  function SentClearance(stored: Clearance, u: Url, callerHasOwn: bool): string {
    if callerHasOwn then "" else LastOrEmpty(ApplicableValues(stored.cookies, u))
  }

  /** Freshness is judged by the first stored clearance that applies. */
  lemma JudgedIsFirst(stored: Clearance, u: Url, i: nat)
    ensures FirstPick(stored.cookies, AppliesFn(u), i) ==> CurrentClearance(stored, u) == stored.cookies[i].value
    ensures NoPick(stored.cookies, AppliesFn(u)) ==> CurrentClearance(stored, u) == ""
  {
    ApplicableExactly(stored.cookies, u);
    if FirstPick(stored.cookies, AppliesFn(u), i) {
      FirstPicked(ApplicableValues(stored.cookies, u), stored.cookies, AppliesFn(u), ValueFn(), i);
    }
    if NoPick(stored.cookies, AppliesFn(u)) {
      NothingPicked(ApplicableValues(stored.cookies, u), stored.cookies, AppliesFn(u), ValueFn());
    }
  }

  /** The last stored clearance that applies is the one reported as sent, when the caller sends none of its own. */
  lemma SentIsLast(stored: Clearance, u: Url, i: nat)
    ensures LastPick(stored.cookies, AppliesFn(u), i) ==> SentClearance(stored, u, false) == stored.cookies[i].value
    ensures NoPick(stored.cookies, AppliesFn(u)) ==> SentClearance(stored, u, false) == ""
  {
    ApplicableExactly(stored.cookies, u);
    if LastPick(stored.cookies, AppliesFn(u), i) {
      LastPicked(ApplicableValues(stored.cookies, u), stored.cookies, AppliesFn(u), ValueFn(), i);
    }
    if NoPick(stored.cookies, AppliesFn(u)) {
      NothingPicked(ApplicableValues(stored.cookies, u), stored.cookies, AppliesFn(u), ValueFn());
    }
  }

  method FindCurrentClearance(stored: Clearance, u: Url) returns (value: string)
    ensures value == CurrentClearance(stored, u)
  {
    var cookies := stored.cookies;
    for i := 0 to |cookies|
      invariant ApplicableValues(cookies[i..], u) == ApplicableValues(cookies, u)
    {
      assert cookies[i..][1..] == cookies[i + 1..];
      if cookies[i].name == CLEARANCE_COOKIE && CookieMatches(cookies[i], u) {
        return cookies[i].value;
      }
    }
    return "";
  }

  /** The cookies a decorated request gains, in stored order; `taken` are the names the caller already sends. */
  function AddedCookies(cookies: seq<Cookie>, u: Url, taken: set<string>): seq<(string, string)> {
    if cookies == [] then []
    else
      (if CookieMatches(cookies[0], u) && cookies[0].name !in taken then [(cookies[0].name, cookies[0].value)] else [])
      + AddedCookies(cookies[1..], u, taken)
  }

  lemma {:induction false} AddedCookiesSnoc(cookies: seq<Cookie>, c: Cookie, u: Url, taken: set<string>)
    ensures AddedCookies(cookies + [c], u, taken) ==
            AddedCookies(cookies, u, taken)
            + (if CookieMatches(c, u) && c.name !in taken then [(c.name, c.value)] else [])
  {
    if cookies == [] {
      assert cookies + [c] == [c];
    } else {
      assert (cookies + [c])[1..] == cookies[1..] + [c];
      AddedCookiesSnoc(cookies[1..], c, u, taken);
      ConcatAssociates(if CookieMatches(cookies[0], u) && cookies[0].name !in taken then [(cookies[0].name, cookies[0].value)] else [],
                       AddedCookies(cookies[1..], u, taken),
                       if CookieMatches(c, u) && c.name !in taken then [(c.name, c.value)] else []);
    }
  }

  function AddsFn(u: Url, taken: set<string>): Cookie -> bool {
    (c: Cookie) => CookieMatches(c, u) && c.name !in taken
  }

  function PairFn(): Cookie -> (string, string) {
    (c: Cookie) => (c.name, c.value)
  }

  /** What a decorated request gains: every stored cookie that applies and whose name the caller does not send, each
      once and in stored order. */
  lemma {:induction false} AddedExactly(cookies: seq<Cookie>, u: Url, taken: set<string>)
    ensures Picks(AddedCookies(cookies, u, taken), cookies, AddsFn(u, taken), PairFn())
  {
    if cookies == [] {
      PicksNothing(AddsFn(u, taken), PairFn());
    } else {
      var init, c := cookies[..|cookies| - 1], cookies[|cookies| - 1];
      assert cookies == init + [c];
      AddedExactly(init, u, taken);
      AddedCookiesSnoc(init, c, u, taken);
      PicksSnoc(AddedCookies(init, u, taken), init, AddsFn(u, taken), PairFn(), c);
    }
  }

  lemma AddedPairs(cookies: seq<Cookie>, u: Url, taken: set<string>, name: string, value: string)
    ensures (name, value) in AddedCookies(cookies, u, taken) <==>
            exists i :: 0 <= i < |cookies| && cookies[i].name == name && cookies[i].value == value
                        && CookieMatches(cookies[i], u) && name !in taken
  {
    AddedExactly(cookies, u, taken);
    PickedMembers(AddedCookies(cookies, u, taken), cookies, AddsFn(u, taken), PairFn(), (name, value));
    if i :| 0 <= i < |cookies| && cookies[i].name == name && cookies[i].value == value && CookieMatches(cookies[i], u) && name !in taken {
      assert AddsFn(u, taken)(cookies[i]) && PairFn()(cookies[i]) == (name, value);
    }
  }

  /** The cookie walk of decorate. */
  method AddStored(cookies: seq<Cookie>, u: Url, taken: set<string>) returns (added: seq<(string, string)>, sent: string)
    ensures added == AddedCookies(cookies, u, taken)
    ensures sent == if CLEARANCE_COOKIE in taken then "" else LastOrEmpty(ApplicableValues(cookies, u))
  {
    added, sent := [], "";
    for i := 0 to |cookies|
      invariant added == AddedCookies(cookies[..i], u, taken)
      invariant sent == if CLEARANCE_COOKIE in taken then "" else LastOrEmpty(ApplicableValues(cookies[..i], u))
    {
      var c := cookies[i];
      assert cookies[..i + 1] == cookies[..i] + [c];
      AddedCookiesSnoc(cookies[..i], c, u, taken);
      ApplicableValuesSnoc(cookies[..i], c, u);
      ghost var before := ApplicableValues(cookies[..i], u);
      assert LastOrEmpty(before + [c.value]) == c.value;
      if !CookieMatches(c, u) {
        continue;
      }
      if c.name in taken {
        continue;
      }
      added := added + [(c.name, c.value)];
      if c.name == CLEARANCE_COOKIE {
        sent := c.value;
      }
    }
    assert cookies[..|cookies|] == cookies;
  }

  /** decorate: `taken` are the names of the cookies the caller sends, `agent` its User-Agent. Cookies and User-Agent
      come from one stored clearance. */
  method Decorate(stored: Option<Clearance>, u: Url, taken: set<string>, agent: string)
    returns (added: seq<(string, string)>, sent: string, userAgent: string)
    ensures stored.None? ==> added == [] && sent == "" && userAgent == agent
    ensures stored.Some? ==>
              && Picks(added, stored.value.cookies, AddsFn(u, taken), PairFn())
              && added == AddedCookies(stored.value.cookies, u, taken)
              && sent == SentClearance(stored.value, u, "cf_clearance" in taken)
              && userAgent == if stored.value.userAgent != "" then stored.value.userAgent else agent
  {
    if stored.None? {
      return [], "", agent;
    }
    added, sent := AddStored(stored.value.cookies, u, taken);
    userAgent := if stored.value.userAgent != "" then stored.value.userAgent else agent;
    AddedExactly(stored.value.cookies, u, taken);
  }

  /** The clearances a decorated request puts on the wire are exactly the applicable ones, when the caller sends none. */
  lemma {:induction false} SentIsOnTheWire(cookies: seq<Cookie>, u: Url, taken: set<string>)
    requires CLEARANCE_COOKIE !in taken
    ensures forall v :: v in ApplicableValues(cookies, u) <==> (CLEARANCE_COOKIE, v) in AddedCookies(cookies, u, taken)
  {
    if cookies != [] {
      SentIsOnTheWire(cookies[1..], u, taken);
    }
  }

  /** The two walks differ on a value that is not empty: the caller brought its own cookie, or the first and the
      last applicable clearance are not the same. */
  predicate WalksDiffer(values: seq<string>, callerHasOwn: bool) {
    values != [] && values[0] != "" && (callerHasOwn || values[|values| - 1] != values[0])
  }

  /** Such a store exists: two clearances for one host. */
  lemma WalksDifferExample()
    ensures var stored := Clearance([Cookie(CLEARANCE_COOKIE, "a", "x.net", "/"), Cookie(CLEARANCE_COOKIE, "b", "x.net", "/")], "ua");
            var u := Url("x.net", "/");
            && SentClearance(stored, u, false) == "b"
            && CurrentClearance(stored, u) == "a"
            && WalksDiffer(ApplicableValues(stored.cookies, u), false)
  {
    var c0, c1 := Cookie(CLEARANCE_COOKIE, "a", "x.net", "/"), Cookie(CLEARANCE_COOKIE, "b", "x.net", "/");
    var u := Url("x.net", "/");
    assert CookieMatches(c0, u) && CookieMatches(c1, u);
    assert [c0, c1][1..] == [c1] && [c1][1..] == [];
    assert ApplicableValues([c1], u) == ["b"];
    assert ApplicableValues([c0, c1], u) == ["a", "b"];
  }

  /** The first clearance of a solver's answer that will apply to the request once it is scoped and stored. */
  function FirstToApply(cookies: seq<Cookie>, u: Url): Option<Cookie> {
    if cookies == [] then None
    else if cookies[0].name == CLEARANCE_COOKIE && CookieMatches(Scoped(cookies[0], u.host), u) then Some(cookies[0])
    else FirstToApply(cookies[1..], u)
  }

  lemma {:induction false} ServedIsFirst(cookies: seq<Cookie>, u: Url)
    ensures FirstOrEmpty(ApplicableValues(CloudflareCookies(cookies, u.host), u)) ==
            match FirstToApply(cookies, u) case None => "" case Some(c) => c.value
  {
    if cookies != [] {
      var head, kept := cookies[0], CloudflareCookies(cookies[1..], u.host);
      ServedIsFirst(cookies[1..], u);
      if IsCloudflareCookie(head) {
        var k := Scoped(head, u.host);
        assert CloudflareCookies(cookies, u.host) == [k] + kept;
        assert ([k] + kept)[1..] == kept;
      } else {
        assert CloudflareCookies(cookies, u.host) == kept;
      }
    }
  }

  /** The request that triggered a solve is served by it exactly when the first clearance of the answer that will
      apply to the request is fresh: then, and only then, the value judged next is neither empty nor refused. */
  lemma AnswerServesExactly(cookies: seq<Cookie>, userAgent: string, u: Url, rejected: string)
    ensures var served := CurrentClearance(Clearance(CloudflareCookies(cookies, u.host), userAgent), u);
            (served != "" && served != rejected)
            <==> FirstToApply(cookies, u).Some? && IsFresh(FirstToApply(cookies, u).value, rejected)
  {
    ServedIsFirst(cookies, u);
    FirstIsClearance(cookies, u);
  }

  lemma {:induction false} FirstIsClearance(cookies: seq<Cookie>, u: Url)
    ensures FirstToApply(cookies, u).Some? ==> FirstToApply(cookies, u).value.name == CLEARANCE_COOKIE
  {
    if cookies != [] {
      FirstIsClearance(cookies[1..], u);
    }
  }

  /** An answer with a fresh clearance need not do that: the stale value first, the fresh one after it. */
  lemma FreshAnswerMayServeRefused()
    ensures var cookies := [Cookie(CLEARANCE_COOKIE, "old", "", ""), Cookie(CLEARANCE_COOKIE, "new", "", "")];
            && HasFreshClearance(cookies, "old")
            && CurrentClearance(Clearance(CloudflareCookies(cookies, "x.net"), "ua"), Url("x.net", "/")) == "old"
  {
    var c0, c1 := Cookie(CLEARANCE_COOKIE, "old", "", ""), Cookie(CLEARANCE_COOKIE, "new", "", "");
    var u := Url("x.net", "/");
    assert IsFresh([c0, c1][1], "old");
    assert [c0, c1][1..] == [c1] && [c1][1..] == [];
    var k0, k1 := Scoped(c0, "x.net"), Scoped(c1, "x.net");
    assert CloudflareCookies([c1], "x.net") == [k1];
    assert CloudflareCookies([c0, c1], "x.net") == [k0, k1];
    assert CookieMatches(k0, u);
  }
}
