/** The pure core of `AuthProvider::lookup_config`: turning an issuer into
    the URL of its OpenID Connect discovery document, and turning the fetched
    document into a configuration proposal for a new upstream provider. The
    GET itself is the parameter `get`, a function from URL to response. */
module Discovery {
  import opened Common
  import opened Strings
  import opened Scope

  /** The only discovery location supported. */
  const WellKnownPath: string := ".well-known/openid-configuration"

  /** The scopes a proposal may contain, in the order they are written. */
  const ProposalScopes: seq<string> := ["openid", "profile", "email"]

  /** The fields of the discovery document (`WellKnown`) the proposal uses. */
  datatype WellKnown = WellKnown(
    issuer: string,
    authorizationEndpoint: string,
    tokenEndpoint: string,
    userinfoEndpoint: string,
    scopesSupported: seq<string>,
    tokenEndpointAuthMethodsSupported: seq<string>,
    codeChallengeMethodsSupported: seq<string>)

  /** The body of the discovery response, once JSON decoding was attempted. */
  datatype Document = Decoded(wellKnown: WellKnown) | Undecodable(reason: string)

  /** What the GET to the configuration URL returned: the status code, its
      display form (such as "404 Not Found"), the raw body and the decoded body. */
  datatype HttpResponse = HttpResponse(status: nat, statusText: string, body: string, document: Document)

  /** `ProviderLookupResponse`: the proposal handed back to the admin UI. */
  datatype ProviderLookupResponse = ProviderLookupResponse(
    issuer: string,
    authorizationEndpoint: string,
    tokenEndpoint: string,
    userinfoEndpoint: string,
    tokenAuthMethodBasic: bool,
    usePkce: bool,
    dangerAllowInsecure: bool,
    scope: string)

  predicate IsSuccess(status: nat) {
    200 <= status < 300
  }

  predicate HasScheme(url: string) {
    StartsWith(url, "http://") || StartsWith(url, "https://")
  }

  // ---------------------------------------------------------------------
  // Issuer and configuration URL
  // ---------------------------------------------------------------------

  /** The issuer as a URL: https is assumed when no scheme is given. */
  function IssuerUrl(issuer: string): (url: string)
    ensures HasScheme(url)
    ensures HasScheme(issuer) ==> url == issuer
    ensures !HasScheme(issuer) ==> url == "https://" + issuer
  {
    if HasScheme(issuer) then issuer else "https://" + issuer
  }

  /** The discovery URL: the issuer URL, exactly one '/' of its own or added,
      and the well-known path. */
  function ConfigUrl(issuer: string): (url: string)
    ensures EndsWith(url, "/" + WellKnownPath)
    ensures EndsWith(IssuerUrl(issuer), "/") ==>
              url[..|url| - |WellKnownPath| - 1] + "/" == IssuerUrl(issuer)
    ensures !EndsWith(IssuerUrl(issuer), "/") ==>
              url[..|url| - |WellKnownPath| - 1] == IssuerUrl(issuer)
  {
    var issuerUrl := IssuerUrl(issuer);
    if EndsWith(issuerUrl, "/") then
      assert issuerUrl == issuerUrl[..|issuerUrl| - 1] + "/";
      issuerUrl + WellKnownPath
    else
      issuerUrl + "/" + WellKnownPath
  }

  /** Adding the scheme is idempotent. */
  lemma IssuerUrlIdempotent(issuer: string)
    ensures IssuerUrl(IssuerUrl(issuer)) == IssuerUrl(issuer)
  {
  }

  /** Whether or not the issuer ends in '/', the same document is fetched. */
  lemma ConfigUrlIgnoresTrailingSlash(issuer: string)
    requires issuer != [] && issuer[|issuer| - 1] != '/'
    ensures ConfigUrl(issuer + "/") == ConfigUrl(issuer)
  {
    var slashed := issuer + "/";
    PrefixOfSlashed(issuer, "http://");
    PrefixOfSlashed(issuer, "https://");
    assert HasScheme(slashed) == HasScheme(issuer);
    assert EndsWith(IssuerUrl(slashed), "/");
    var u := IssuerUrl(issuer);
    assert u[|u| - 1] == issuer[|issuer| - 1];
    assert !EndsWith(u, "/");
    assert IssuerUrl(slashed) == u + "/";
  }

  /** A scheme prefix ending in "//" cannot begin at the added '/', so adding
      it does not change whether the scheme is present. */
  lemma PrefixOfSlashed(x: string, p: string)
    requires x != [] && x[|x| - 1] != '/'
    requires |p| >= 2 && p[|p| - 1] == '/' && p[|p| - 2] == '/'
    ensures StartsWith(x + "/", p) <==> StartsWith(x, p)
  {
    var xs := x + "/";
    if |x| >= |p| {
      assert xs[..|p|] == x[..|p|];
    } else if |xs| == |p| {
      assert xs[|p| - 2] == x[|x| - 1];
      assert xs[|p| - 2] != p[|p| - 2];
    }
  }

  // ---------------------------------------------------------------------
  // Mapping the document to a proposal
  // ---------------------------------------------------------------------

  /** `list.iter().any(|x| x == value)`. */
  function AnyEquals(list: seq<string>, value: string): (r: bool)
    ensures r <==> value in list
  {
    if list == [] then false else list[0] == value || AnyEquals(list[1..], value)
  }

  /** The names of `order` that `advertised` contains, in the order of `order`. */
  function Supported(order: seq<string>, advertised: seq<string>): (r: seq<string>)
    ensures forall k | 0 <= k < |r| :: r[k] in order && r[k] in advertised
  {
    if order == [] then []
    else (if order[0] in advertised then [order[0]] else []) + Supported(order[1..], advertised)
  }

  /** Each token followed by one space. */
  function SpaceTerminated(ts: seq<string>): string {
    if ts == [] then "" else ts[0] + " " + SpaceTerminated(ts[1..])
  }

  /** The scope of the proposal, built with `push_str` as the source does. It
      names the supported ones of openid, profile and email, in that fixed
      order, each followed by a space. */
  method ProposedScope(scopesSupported: seq<string>) returns (scope: string)
    ensures scope == SpaceTerminated(Supported(ProposalScopes, scopesSupported))
  {
    scope := "";
    ghost var selected: seq<string> := [];
    if AnyEquals(scopesSupported, "openid") {
      SpaceTerminatedAppend(selected, "openid");
      scope, selected := scope + "openid ", selected + ["openid"];
    }
    if AnyEquals(scopesSupported, "profile") {
      SpaceTerminatedAppend(selected, "profile");
      scope, selected := scope + "profile ", selected + ["profile"];
    }
    if AnyEquals(scopesSupported, "email") {
      SpaceTerminatedAppend(selected, "email");
      scope, selected := scope + "email ", selected + ["email"];
    }
    SupportedProposalScopes(scopesSupported);
    assert selected == Supported(ProposalScopes, scopesSupported);
  }

  /** The selection from openid, profile, email, one name at a time. */
  lemma SupportedProposalScopes(advertised: seq<string>)
    ensures Supported(ProposalScopes, advertised)
            == (if "openid" in advertised then ["openid"] else [])
             + (if "profile" in advertised then ["profile"] else [])
             + (if "email" in advertised then ["email"] else [])
  {
    assert ProposalScopes[1..] == ["profile", "email"];
    assert ProposalScopes[2..] == ["email"];
    assert ProposalScopes[3..] == [];
    assert Supported(ProposalScopes[3..], advertised) == [];
    assert Supported(ProposalScopes[2..], advertised)
        == (if "email" in advertised then ["email"] else []);
    assert Supported(ProposalScopes[1..], advertised)
        == (if "profile" in advertised then ["profile"] else []) + Supported(ProposalScopes[2..], advertised);
  }

  lemma {:induction false} SpaceTerminatedAppend(ts: seq<string>, t: string)
    ensures SpaceTerminated(ts + [t]) == SpaceTerminated(ts) + t + " "
  {
    if ts != [] {
      assert (ts + [t])[1..] == ts[1..] + [t];
      SpaceTerminatedAppend(ts[1..], t);
    }
  }

  /** `lookup_config` once the HTTP client exists: computes the discovery URL,
      fetches it with `get` and maps the answer. It returns the URL it fetched
      together with the outcome. */
  method LookupConfig(issuer: string, dangerAllowInsecure: bool, get: string -> HttpResponse)
    returns (configUrl: string, r: Result<ProviderLookupResponse>)
    ensures configUrl == ConfigUrl(issuer)
    ensures !IsSuccess(get(configUrl).status) ==>
              r == Err(ErrorResponse(Connection,
                         LookupFailureMessage(configUrl, get(configUrl).statusText, get(configUrl).body)))
    ensures IsSuccess(get(configUrl).status) && get(configUrl).document.Undecodable? ==>
              r == Err(ErrorResponse(BadRequest,
                         "The provider does not support the mandatory openid-configuration: "
                         + get(configUrl).document.reason))
    ensures IsSuccess(get(configUrl).status) && get(configUrl).document.Decoded? ==>
              var wk := get(configUrl).document.wellKnown;
              && r.Ok?
              && r.value.issuer == wk.issuer
              && r.value.authorizationEndpoint == wk.authorizationEndpoint
              && r.value.tokenEndpoint == wk.tokenEndpoint
              && r.value.userinfoEndpoint == wk.userinfoEndpoint
              && (r.value.tokenAuthMethodBasic <==> "client_secret_post" !in wk.tokenEndpointAuthMethodsSupported)
              && (r.value.usePkce <==> "S256" in wk.codeChallengeMethodsSupported)
              && r.value.dangerAllowInsecure == dangerAllowInsecure
              && r.value.scope == SpaceTerminated(Supported(ProposalScopes, wk.scopesSupported))
  {
    configUrl := ConfigUrl(issuer);
    var res := get(configUrl);
    if !IsSuccess(res.status) {
      return configUrl, Err(ErrorResponse(Connection, LookupFailureMessage(configUrl, res.statusText, res.body)));
    }
    match res.document
    case Undecodable(reason) =>
      r := Err(ErrorResponse(BadRequest,
             "The provider does not support the mandatory openid-configuration: " + reason));
    case Decoded(wellKnown) =>
      var scope := ProposedScope(wellKnown.scopesSupported);
      r := Ok(ProviderLookupResponse(
             wellKnown.issuer,
             wellKnown.authorizationEndpoint,
             wellKnown.tokenEndpoint,
             wellKnown.userinfoEndpoint,
             !AnyEquals(wellKnown.tokenEndpointAuthMethodsSupported, "client_secret_post"),
             AnyEquals(wellKnown.codeChallengeMethodsSupported, "S256"),
             dangerAllowInsecure,
             scope));
  }

  // ---------------------------------------------------------------------
  // Properties of the proposed scope
  // ---------------------------------------------------------------------

  /** A name is proposed exactly when it is one of openid, profile, email and
      the document advertises it. */
  lemma {:induction false} SupportedMembership(order: seq<string>, advertised: seq<string>, name: string)
    ensures name in Supported(order, advertised) <==> name in order && name in advertised
  {
    if order != [] {
      SupportedMembership(order[1..], advertised, name);
      assert order == [order[0]] + order[1..];
    }
  }

  /** The proposal depends only on which names are advertised, not on the
      order or repetition in the document. */
  lemma {:induction false} SupportedIgnoresAdvertisedOrder(order: seq<string>, a: seq<string>, b: seq<string>)
    requires forall x :: x in a <==> x in b
    ensures Supported(order, a) == Supported(order, b)
  {
    if order != [] {
      SupportedIgnoresAdvertisedOrder(order[1..], a, b);
    }
  }

  /** The words of the proposed scope are exactly the selected names, so for
      each of openid, profile and email the proposal contains it iff the
      document advertises it, and in that fixed order. */
  lemma ProposedScopeWords(scopesSupported: seq<string>)
    ensures Words(SpaceTerminated(Supported(ProposalScopes, scopesSupported)))
            == Supported(ProposalScopes, scopesSupported)
  {
    var sel := Supported(ProposalScopes, scopesSupported);
    forall k | 0 <= k < |sel| ensures sel[k] != [] && ' ' !in sel[k] {
      ProposalScopeShape(sel[k]);
    }
    WordsOfSpaceTerminated(sel);
  }

  /** Stored through `cleanup_scope`, the proposal becomes the selected names
      joined with '+' (for a full document: "openid+profile+email"). */
  lemma ProposedScopeCleansUp(scopesSupported: seq<string>)
    ensures CleanupScope(SpaceTerminated(Supported(ProposalScopes, scopesSupported)))
            == JoinWith(Supported(ProposalScopes, scopesSupported), "+")
  {
    var sel := Supported(ProposalScopes, scopesSupported);
    ProposedScopeWords(scopesSupported);
    CleanupScopeIsJoinOfTrimmedWords(SpaceTerminated(sel));
    forall k | 0 <= k < |sel| ensures Trim(sel[k]) == sel[k] {
      ProposalScopeShape(sel[k]);
      TrimOfTrimmed(sel[k]);
    }
    assert TrimAll(sel) == sel;
  }

  /** Each proposal scope name is a non-empty word with no whitespace at its ends. */
  lemma ProposalScopeShape(name: string)
    requires name in ProposalScopes
    ensures name != [] && ' ' !in name && IsTrimmed(name)
  {
    assert name == "openid" || name == "profile" || name == "email";
  }

  lemma {:induction false} WordsOfSpaceTerminated(ts: seq<string>)
    requires forall k | 0 <= k < |ts| :: ts[k] != [] && ' ' !in ts[k]
    ensures Words(SpaceTerminated(ts)) == ts
  {
    if ts != [] {
      WordsOfSpaceTerminated(ts[1..]);
      WordsAfterWord(ts[0], SpaceTerminated(ts[1..]));
    }
  }

  /** A space-free word followed by a space is the first word. */
  lemma WordsAfterWord(w: string, rest: string)
    requires w != [] && ' ' !in w
    ensures Words(w + " " + rest) == [w] + Words(rest)
  {
    var s := w + " " + rest;
    assert s[0] == w[0];
    assert SkipSpaces(s) == s;
    assert s == w + (" " + rest);
    RunOfWord(w, " " + rest);
    assert Run(s) == w;
    assert s[|w|..] == " " + rest;
    assert Words(s) == [w] + Words(" " + rest);
    assert (" " + rest)[1..] == rest;
    assert SkipSpaces(" " + rest) == SkipSpaces(rest);
  }

  lemma {:induction false} RunOfWord(w: string, rest: string)
    requires ' ' !in w
    requires rest == [] || rest[0] == ' '
    ensures Run(w + rest) == w
  {
    if w != [] {
      assert (w + rest)[1..] == w[1..] + rest;
      RunOfWord(w[1..], rest);
    } else {
      assert w + rest == rest;
    }
  }

  // ---------------------------------------------------------------------
  // The connection-error message
  // ---------------------------------------------------------------------

  /** The message as the source writes it: the `format!` arguments are given in
      the order (url, status, body) although the text expects the status
      first and the URL after "to". */
  function LookupFailureMessageAsWritten(configUrl: string, statusText: string, body: string): (m: string)
    ensures StartsWith(m, "HTTP " + configUrl + " ")
    ensures EndsWith(m, " to " + statusText + ": " + body)
  {
    var m := "HTTP " + configUrl + " when trying provider config lookup to " + statusText + ": " + body;
    assert m == ("HTTP " + configUrl + " ") + "when trying provider config lookup" + (" to " + statusText + ": " + body);
    m
  }

  /** The message with its arguments in the intended places. */
  function LookupFailureMessage(configUrl: string, statusText: string, body: string): (m: string)
    ensures StartsWith(m, "HTTP " + statusText + " ")
    ensures EndsWith(m, " to " + configUrl + ": " + body)
  {
    var m := "HTTP " + statusText + " when trying provider config lookup to " + configUrl + ": " + body;
    assert m == ("HTTP " + statusText + " ") + "when trying provider config lookup" + (" to " + configUrl + ": " + body);
    m
  }

  /** For a 404 answer, the message as written does not start with the
      status: it says "HTTP https://idp.example/.well-known/..." instead. */
  lemma LookupFailureMessageAsWrittenMisplacesStatus()
    ensures var url := ConfigUrl("idp.example");
            !StartsWith(LookupFailureMessageAsWritten(url, "404 Not Found", ""), "HTTP 404 Not Found ")
  {
    var url := ConfigUrl("idp.example");
    var m := LookupFailureMessageAsWritten(url, "404 Not Found", "");
    assert url[0] == 'h';
    assert m[5] == url[0];
  }
}
