/** The decision the home screen gives the embedded browser before every
    load (`handleShouldStartLoadWithRequest`): non-network URLs and network
    URLs that mention the own domain anywhere load in-app; every other
    network URL is refused and the user is asked whether to open it in the
    system browser. The test is a prefix test and a substring test on the
    lowercased URL; no host is extracted. */
module NavigationPolicy {
  import opened Strings

  /** The literal the decision searches for (not the configured start URL). */
  const OwnDomain: string := "tu-pagina-web.com"
  const HttpPrefix: string := "http://"
  const HttpsPrefix: string := "https://"

  /** `Deny` carries the URL the confirmation prompt would open: the one
      requested, as written, not its lowercased form. */
  datatype Decision = Permit | Deny(confirmUrl: string)

  /** The lowercased URL uses one of the two network schemes. */
  predicate IsNetworkUrl(lower: string) {
    StartsWith(lower, HttpPrefix) || StartsWith(lower, HttpsPrefix)
  }

  function Decide(url: string, domain: string): (d: Decision)
    ensures d.Deny? ==> d.confirmUrl == url
  {
    var lower := ToLower(url);
    if IsNetworkUrl(lower) && !Contains(lower, domain) then Deny(url) else Permit
  }

  /** The network-scheme test, stated on slices. */
  ghost predicate HasNetworkScheme(lower: string) {
    (|lower| >= |HttpPrefix| && lower[..|HttpPrefix|] == HttpPrefix) ||
    (|lower| >= |HttpsPrefix| && lower[..|HttpsPrefix|] == HttpsPrefix)
  }

  /** `domain` occurs somewhere in `lower`: host, path, query or fragment alike. */
  ghost predicate Mentions(lower: string, domain: string) {
    exists i: nat :: OccursAt(lower, domain, i)
  }

  /** The whole decision: permitted exactly when the lowercased URL is not a
      network URL or mentions the domain; a refusal always prompts for the
      URL as requested. */
  lemma DecideIff(url: string, domain: string)
    ensures Decide(url, domain).Permit? <==>
              !HasNetworkScheme(ToLower(url)) || Mentions(ToLower(url), domain)
    ensures Decide(url, domain).Deny? <==>
              HasNetworkScheme(ToLower(url)) && !Mentions(ToLower(url), domain)
    ensures Decide(url, domain).Deny? ==> Decide(url, domain) == Deny(url)
  {
    var lower := ToLower(url);
    StartsWithIff(lower, HttpPrefix);
    StartsWithIff(lower, HttpsPrefix);
    ContainsIff(lower, domain);
  }

  lemma NonNetworkUrlPermitted(url: string, domain: string)
    requires !HasNetworkScheme(ToLower(url))
    ensures Decide(url, domain) == Permit
  {
    DecideIff(url, domain);
  }

  lemma UrlMentioningDomainPermitted(url: string, domain: string, at: nat)
    requires OccursAt(ToLower(url), domain, at)
    ensures Decide(url, domain) == Permit
  {
    DecideIff(url, domain);
  }

  lemma ForeignNetworkUrlDenied(url: string, domain: string)
    requires HasNetworkScheme(ToLower(url))
    requires forall i: nat :: !OccursAt(ToLower(url), domain, i)
    ensures Decide(url, domain) == Deny(url)
  {
    DecideIff(url, domain);
  }

  /** Changing the case of ASCII letters never changes the verdict. */
  lemma DecisionIgnoresCase(a: string, b: string, domain: string)
    requires SameIgnoringAsciiCase(a, b)
    ensures Decide(a, domain).Permit? == Decide(b, domain).Permit?
  {
    ToLowerOfSameIgnoringCase(a, b);
  }

  /** Lowercasing a URL beforehand does not change the verdict. */
  lemma DecisionOfLowercased(url: string, domain: string)
    ensures Decide(ToLower(url), domain).Permit? == Decide(url, domain).Permit?
  {
    ToLowerIdempotent(url);
  }

  // Consequences of the substring test: the domain may sit anywhere, and
  // only the two network schemes are ever refused.

  /** A host that merely begins with the domain ("tu-pagina-web.com.evil.org")
      loads in-app, whatever follows it. */
  lemma {:induction false} LookalikeHostPermitted(rest: string)
    ensures Decide("https://" + OwnDomain + rest, OwnDomain) == Permit
  {
    var url := "https://" + OwnDomain + rest;
    assert forall i :: 0 <= i < 8 + |OwnDomain| ==> LowerChar(url[i]) == url[i];
    assert ToLower(url)[8..8 + |OwnDomain|] == OwnDomain;
    UrlMentioningDomainPermitted(url, OwnDomain, 8);
  }

  /** Any host loads in-app when the domain appears in its query string. */
  lemma {:induction false} DomainInQueryPermitted(host: string)
    ensures Decide("https://" + host + "/?next=" + OwnDomain, OwnDomain) == Permit
  {
    var url := "https://" + host + "/?next=" + OwnDomain;
    var at := |url| - |OwnDomain|;
    assert forall i :: at <= i < |url| ==> LowerChar(url[i]) == url[i];
    assert ToLower(url)[at..at + |OwnDomain|] == OwnDomain;
    UrlMentioningDomainPermitted(url, OwnDomain, at);
  }

  /** A scheme other than http and https is never intercepted, whatever the
      rest of the URL names. */
  lemma {:induction false} OtherSchemesPermitted(rest: string, domain: string)
    ensures Decide("mailto:" + rest, domain) == Permit
    ensures Decide("FTP://" + rest, domain) == Permit
    ensures Decide("about:" + rest, domain) == Permit
  {
    var mail, ftp, about := "mailto:" + rest, "FTP://" + rest, "about:" + rest;
    assert ToLower(mail)[0] == 'm';
    NonNetworkUrlPermitted(mail, domain);
    assert ToLower(ftp)[0] == 'f';
    NonNetworkUrlPermitted(ftp, domain);
    assert ToLower(about)[0] == 'a';
    NonNetworkUrlPermitted(about, domain);
  }

  /** The scheme test sees through capitals: "HTTPS://" is a network
      scheme exactly as "https://" is. */
  lemma UppercaseSchemeDecidedAsLowercase(rest: string, domain: string)
    ensures Decide("HTTPS://" + rest, domain).Permit? == Decide("https://" + rest, domain).Permit?
  {
    var upper, lower := "HTTPS://" + rest, "https://" + rest;
    assert forall i :: 0 <= i < 8 ==> LowerChar(upper[i]) == lower[i];
    assert forall i :: 8 <= i < |upper| ==> upper[i] == lower[i];
    DecisionIgnoresCase(upper, lower, domain);
  }

  // The two pages of a scenario with "example.com" as the domain. Each URL is
  // a parameter pinned by the precondition, which keeps the verifier from
  // evaluating the decision on the literal character by character.

  lemma ExampleOwnPagePermitted(url: string)
    requires url == "https://example.com/page"
    ensures Decide(url, "example.com") == Permit
  {
    ToLowerOfLowercase(url);
    assert url[8..19] == "example.com";
    UrlMentioningDomainPermitted(url, "example.com", 8);
  }

  lemma ExampleForeignPageDenied(url: string)
    requires url == "https://evil.com/phish"
    ensures Decide(url, "example.com") == Deny("https://evil.com/phish")
  {
    ToLowerOfLowercase(url);
    assert url[..8] == HttpsPrefix;
    assert HasNetworkScheme(ToLower(url));
    MissingCharNotContained(url, "example.com", 1);
    assert forall i: nat :: !OccursAt(ToLower(url), "example.com", i);
    ForeignNetworkUrlDenied(url, "example.com");
  }
}
