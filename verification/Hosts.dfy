/** From a host name to a tunnel: subdomains of the server's own domains first, then the cache of
    custom domains (internal/server/http_router.go, internal/server/server.go,
    internal/tls/verify.go). */
module Hosts {
  import opened Text
  import opened Wrappers

  datatype CustomDomain = CustomDomain(domain: string, target: string, verified: bool)

  // --------------------------------------------------------------------- subdomains

  function CutPort(host: string): string {
    var i := LastIndex(host, ':');
    if i != -1 then host[..i] else host
  }

  /** The name part of extractSubdomain: no port and no leading "www.". */
  function Bare(host: string): string {
    TrimPrefix(CutPort(host), "www.")
  }

  predicate Claims(domain: string, bare: string) {
    && HasSuffix(bare, "." + domain)
    && TrimSuffix(bare, "." + domain) != "" && TrimSuffix(bare, "." + domain) != "www"
  }

  /** The subdomain under the first domain that claims the name; empty when none does. */
  function FirstClaim(bare: string, domains: seq<string>): string {
    if domains == [] then ""
    else if Claims(domains[0], bare) then ToLower(TrimSuffix(bare, "." + domains[0]))
    else FirstClaim(bare, domains[1..])
  }

  function Subdomain(host: string, domains: seq<string>): string {
    FirstClaim(Bare(host), domains)
  }

  method ExtractSubdomain(host: string, base: string, aliases: seq<string>) returns (sub: string)
    ensures sub == Subdomain(host, [base] + aliases)
  {
    var bare := host;
    var idx := LastIndex(host, ':');
    if idx != -1 {
      bare := host[..idx];
    }
    bare := TrimPrefix(bare, "www.");
    var domains := [base] + aliases;
    for i := 0 to |domains|
      invariant FirstClaim(bare, domains) == FirstClaim(bare, domains[i..])
    {
      assert domains[i..][1..] == domains[i + 1..];
      if HasSuffix(bare, "." + domains[i]) {
        var name := TrimSuffix(bare, "." + domains[i]);
        if name != "" && name != "www" {
          return ToLower(name);
        }
      }
    }
    return "";
  }

  /** No subdomain comes out exactly when no domain claims the name. */
  lemma {:induction false} EmptyIffUnclaimed(bare: string, domains: seq<string>)
    ensures FirstClaim(bare, domains) == "" <==> forall d :: d in domains ==> !Claims(d, bare)
  {
    if domains != [] {
      assert domains == [domains[0]] + domains[1..];
      EmptyIffUnclaimed(bare, domains[1..]);
    }
  }

  /** A domain claims what stands under it, except an empty name and "www". */
  lemma ClaimsExactly(name: string, domain: string, bare: string)
    ensures Claims(domain, name + "." + domain) <==> name != "" && name != "www"
    ensures Claims(domain, bare) ==> exists x :: x != "" && x != "www" && bare == x + "." + domain
  {
    SuffixOfJoin(name, domain);
    if Claims(domain, bare) {
      var x := TrimSuffix(bare, "." + domain);
      assert bare == x + "." + domain;
    }
  }

  /** The first domain to claim a name decides: what comes out is what stands before it. */
  lemma {:induction false} FirstClaimDecides(name: string, domains: seq<string>, i: nat)
    requires i < |domains| && name != "" && name != "www"
    requires forall j :: 0 <= j < i ==> !Claims(domains[j], name + "." + domains[i])
    ensures FirstClaim(name + "." + domains[i], domains) == ToLower(name)
  {
    if i == 0 {
      SuffixOfJoin(name, domains[0]);
    } else {
      FirstClaimDecides(name, domains[1..], i - 1);
    }
  }

  // ---------------------------------------------------------- the advertised host

  /** The subdomain a request gets: lower case, and random when none is asked for. */
  function Granted(requested: string, random: string): string {
    if ToLower(requested) == "" then random else ToLower(requested)
  }

  function Advertised(sub: string, base: string): string {
    sub + "." + base
  }

  lemma CutOfPort(name: string, port: string)
    requires ':' !in port
    ensures CutPort(name + ":" + port) == name
  {
    var host := name + ":" + port;
    assert host[|name|] == ':';
    assert LastIndex(host, ':') == |name|;
  }

  lemma CutOfPlain(name: string)
    requires ':' !in name
    ensures CutPort(name) == name
  {
  }

  lemma SuffixOfJoin(x: string, base: string)
    ensures HasSuffix(x + "." + base, "." + base) && TrimSuffix(x + "." + base, "." + base) == x
  {
    var s := x + "." + base;
    assert s == x + ("." + base);
    assert s[|s| - |"." + base|..] == "." + base;
  }

  lemma BaseHasNoClaimOnItself(base: string)
    ensures FirstClaim(base, [base]) == ""
  {
    EmptyIffUnclaimed(base, [base]);
  }

  /** The name "www" and names under "www." lose their first label. */
  lemma BareOfAdvertised(sub: string, base: string)
    ensures TrimPrefix(Advertised(sub, base), "www.") ==
              if sub == "www" then base
              else if HasPrefix(sub, "www.") then Advertised(sub[4..], base)
              else Advertised(sub, base)
  {
    var host := Advertised(sub, base);
    assert host[|sub|] == '.' && host[..|sub|] == sub;
    assert |sub| == 3 ==> host[..4] == sub + ".";
    assert |sub| > 3 ==> host[..4] == sub[..4];
    assert |sub| < 3 && |host| >= 4 ==> host[..4][|sub|] == '.' && "www."[|sub|] == 'w';
    assert |sub| > 3 ==> host[4..] == sub[4..] + "." + base;
    assert |sub| == 3 ==> host[4..] == base;
    assert sub + "." == "www." ==> sub == "www" by {
      assert (sub + ".")[..|sub|] == sub;
    }
  }

  lemma FirstClaimOfJoin(x: string, base: string, aliases: seq<string>)
    requires x != "" && x != "www"
    ensures FirstClaim(x + "." + base, [base] + aliases) == ToLower(x)
  {
    SuffixOfJoin(x, base);
  }

  /** A bare advertised name leads back to its subdomain unless that is "www" or under it. */
  lemma BareRoundTrip(sub: string, base: string)
    requires sub != "" && ToLower(sub) == sub
    ensures FirstClaim(TrimPrefix(Advertised(sub, base), "www."), [base]) == sub <==>
        sub != "www" && !HasPrefix(sub, "www.")
  {
    BareOfAdvertised(sub, base);
    if sub == "www" {
      BaseHasNoClaimOnItself(base);
    } else if HasPrefix(sub, "www.") {
      var rest := sub[4..];
      SuffixOfJoin(rest, base);
      assert |FirstClaim(Advertised(rest, base), [base])| <= |rest|;
    } else {
      FirstClaimOfJoin(sub, base, []);
    }
  }

  /** The host of a new tunnel, without and with a port, is routed back to the tunnel's subdomain
      exactly when that is not "www", not under "www." and, without a port, has no colon. */
  lemma AdvertisedHostRoundTrip(sub: string, base: string, port: string)
    requires sub != "" && ToLower(sub) == sub && ':' !in base && ':' !in port
    ensures Subdomain(Advertised(sub, base) + ":" + port, [base]) == sub <==> sub != "www" && !HasPrefix(sub, "www.")
    ensures Subdomain(Advertised(sub, base), [base]) == sub <==> ':' !in sub && sub != "www" && !HasPrefix(sub, "www.")
  {
    CutOfPort(Advertised(sub, base), port);
    BareRoundTrip(sub, base);
    if ':' !in sub {
      CutOfPlain(Advertised(sub, base));
    } else {
      ColonLosesBase(sub, base);
    }
  }

  /** A colon in the name is taken for a port: less than the subdomain is left. */
  lemma ColonLosesBase(sub: string, base: string)
    requires ':' in sub && ':' !in base
    ensures |CutPort(Advertised(sub, base))| < |sub|
    ensures Subdomain(Advertised(sub, base), [base]) != sub
  {
    var host := Advertised(sub, base);
    var k :| 0 <= k < |sub| && sub[k] == ':';
    assert host[k] == ':';
    assert forall j :: |sub| <= j < |host| ==> host[j] != ':';
    assert LastIndex(host, ':') < |sub|;
    assert |FirstClaim(Bare(host), [base])| <= |Bare(host)|;
  }

  /** Aliases never take such a host away from its tunnel. */
  lemma AliasesDoNotInterfere(sub: string, base: string, aliases: seq<string>, port: string)
    requires sub != "" && ToLower(sub) == sub && ':' !in base && ':' !in port && ':' !in sub
    requires sub != "www" && !HasPrefix(sub, "www.")
    ensures Subdomain(Advertised(sub, base), [base] + aliases) == sub
    ensures Subdomain(Advertised(sub, base) + ":" + port, [base] + aliases) == sub
  {
    CutOfPort(Advertised(sub, base), port);
    CutOfPlain(Advertised(sub, base));
    BareOfAdvertised(sub, base);
    FirstClaimOfJoin(sub, base, aliases);
  }

  // ----------------------------------------------------------------- custom domains

  class DomainCache {
    var customDomains: map<string, CustomDomain>

    method AddCustomDomain(d: CustomDomain)
      modifies this
      ensures customDomains == old(customDomains)[ToLower(d.domain) := d]
    {
      customDomains := customDomains[ToLower(d.domain) := d];
    }

    method RemoveCustomDomain(domain: string)
      modifies this
      ensures customDomains == old(customDomains) - {ToLower(domain)}
    {
      customDomains := customDomains - {ToLower(domain)};
    }

    method LookupCustomDomain(host: string) returns (d: Option<CustomDomain>)
      ensures d == Cached(customDomains, host)
    {
      var name := ToLower(host);
      var idx := LastIndex(name, ':');
      if idx != -1 {
        name := name[..idx];
      }
      return if name in customDomains then Some(customDomains[name]) else None;
    }

    /** The routing part of ServeHTTP; `tunnels` is the router's table. */
    method Route(host: string, base: string, aliases: seq<string>, tunnels: map<string, nat>)
        returns (tunnel: Option<nat>)
      ensures tunnel == Routed(host, [base] + aliases, customDomains, tunnels)
    {
      var sub := ExtractSubdomain(host, base, aliases);
      if sub == "" {
        var d := LookupCustomDomain(host);
        if d.Some? && d.value.verified {
          sub := d.value.target;
        }
      }
      if sub == "" {
        return None;
      }
      sub := ToLower(sub);
      return if sub in tunnels then Some(tunnels[sub]) else None;
    }
  }

  function Cached(cache: map<string, CustomDomain>, host: string): Option<CustomDomain> {
    var name := CutPort(ToLower(host));
    if name in cache then Some(cache[name]) else None
  }

  function Routed(host: string, domains: seq<string>, cache: map<string, CustomDomain>,
                  tunnels: map<string, nat>): Option<nat> {
    var sub := Subdomain(host, domains);
    var d := Cached(cache, host);
    var name := if sub == "" && d.Some? && d.value.verified then d.value.target else sub;
    if name != "" && ToLower(name) in tunnels then Some(tunnels[ToLower(name)]) else None
  }

  datatype Verdict = Accepted | Missing | Malformed | IPAddress | OwnDomain | Localhost

  /** ValidateCustomDomain; `isIP` is what net.ParseIP finds. */
  function Validate(domain: string, base: string, isIP: bool): Verdict {
    if domain == "" then Missing
    else if '.' !in domain then Malformed
    else if isIP then IPAddress
    else if SameFolded(domain, base) || HasSuffix(ToLower(domain), "." + ToLower(base)) then OwnDomain
    else if SameFolded(domain, "localhost") || HasSuffix(ToLower(domain), ".localhost") then Localhost
    else Accepted
  }

  /** Accepted is a name with a dot that is no IP address and neither the base domain nor localhost nor
      under one of them, in any letter case. */
  lemma ValidateExactly(domain: string, base: string, isIP: bool)
    ensures Validate(domain, base, isIP).Accepted? <==>
              && '.' in domain && !isIP
              && ToLower(domain) != ToLower(base) && !HasSuffix(ToLower(domain), "." + ToLower(base))
              && ToLower(domain) != "localhost" && !HasSuffix(ToLower(domain), ".localhost")
    ensures Validate(domain, base, isIP).OwnDomain? <==>
              && '.' in domain && !isIP
              && (ToLower(domain) == ToLower(base) || HasSuffix(ToLower(domain), "." + ToLower(base)))
  {
    assert ToLower("localhost") == "localhost";
  }

  lemma CutOfFolded(host: string)
    ensures CutPort(ToLower(host)) == ToLower(CutPort(host))
  {
    var low := ToLower(host);
    assert forall i :: 0 <= i < |host| ==> (low[i] == ':' <==> host[i] == ':');
    assert LastIndex(low, ':') == LastIndex(host, ':');
  }

  lemma SuffixOfTrimmed(s: string, prefix: string, suffix: string)
    requires HasSuffix(TrimPrefix(s, prefix), suffix)
    ensures HasSuffix(s, suffix)
  {
    if HasPrefix(s, prefix) {
      var t := s[|prefix|..];
      assert s[|s| - |suffix|..] == t[|t| - |suffix|..];
    }
  }

  lemma LowerOfDot()
    ensures ToLower(".") == "."
  {
  }

  /** The base domain claims no host that spells an accepted domain, in any letter case. */
  lemma BaseDoesNotClaim(domain: string, base: string, isIP: bool, name: string)
    requires Validate(domain, base, isIP).Accepted? && SameFolded(name, domain)
    ensures !Claims(base, TrimPrefix(name, "www."))
  {
    if Claims(base, TrimPrefix(name, "www.")) {
      SuffixOfTrimmed(name, "www.", "." + base);
      LowerKeepsSuffix(name, "." + base);
      LowerOfConcat(".", base);
      LowerOfDot();
    }
  }

  /** How a client spells a domain in a request: any letter case, with or without a port. */
  predicate Spells(host: string, domain: string) {
    SameFolded(CutPort(host), domain)
  }

  /** Every accepted domain without a colon reaches its cached entry from every spelling exactly
      when no alias claims that spelling; so always when there are no aliases. */
  lemma CustomDomainIsReached(domain: string, base: string, isIP: bool, aliases: seq<string>, host: string,
                              cache: map<string, CustomDomain>, d: CustomDomain)
    requires Validate(domain, base, isIP).Accepted? && ':' !in domain && d.domain == domain
    requires Spells(host, domain)
    ensures Cached(cache[ToLower(domain) := d], host) == Some(d)
    ensures Subdomain(host, [base] + aliases) == "" <==> forall a :: a in aliases ==> !Claims(a, Bare(host))
    ensures Subdomain(host, [base]) == ""
  {
    CutOfFolded(host);
    BaseDoesNotClaim(domain, base, isIP, CutPort(host));
    EmptyIffUnclaimed(Bare(host), [base] + aliases);
    EmptyIffUnclaimed(Bare(host), [base]);
  }

  lemma FirstOfTwo(bare: string, base: string, alias: string)
    requires !Claims(base, bare) && Claims(alias, bare)
    ensures FirstClaim(bare, [base, alias]) == ToLower(TrimSuffix(bare, "." + alias))
  {
    assert [base, alias][1..] == [alias];
  }

  /** An accepted domain directly under an alias never reaches its entry. */
  lemma AliasShadowsCustomDomain(name: string, alias: string, base: string, isIP: bool)
    requires Validate(name + "." + alias, base, isIP).Accepted? && ':' !in name + "." + alias
    requires name != "" && name != "www" && !HasPrefix(name, "www.")
    ensures Subdomain(name + "." + alias, [base, alias]) == ToLower(name) != ""
  {
    var host := Advertised(name, alias);
    CutOfPlain(host);
    BareOfAdvertised(name, alias);
    BaseDoesNotClaim(host, base, isIP, host);
    SuffixOfJoin(name, alias);
    assert Bare(host) == host && !Claims(base, host) && Claims(alias, host);
    FirstOfTwo(host, base, alias);
  }

  /** Requests for a verified custom domain go to its target's tunnel and requests for an
      advertised host to the tunnel registered under its name, whatever the cache holds. */
  lemma RequestsReachTheirTunnel(sub: string, base: string, aliases: seq<string>,
                                 cache: map<string, CustomDomain>, tunnels: map<string, nat>)
    requires sub != "" && ToLower(sub) == sub && ':' !in base && ':' !in sub && sub != "www" && !HasPrefix(sub, "www.")
    ensures Routed(Advertised(sub, base), [base] + aliases, cache, tunnels) ==
        if sub in tunnels then Some(tunnels[sub]) else None
  {
    AliasesDoNotInterfere(sub, base, aliases, "");
  }

  lemma CustomRequestsReachTheirTarget(domain: string, base: string, isIP: bool, host: string,
                                       cache: map<string, CustomDomain>, d: CustomDomain, tunnels: map<string, nat>)
    requires Validate(domain, base, isIP).Accepted? && ':' !in domain
    requires d.domain == domain && d.verified && d.target != ""
    requires Spells(host, domain)
    ensures Routed(host, [base], cache[ToLower(domain) := d], tunnels)
            == if ToLower(d.target) in tunnels then Some(tunnels[ToLower(d.target)]) else None
  {
    CustomDomainIsReached(domain, base, isIP, [], host, cache, d);
  }

  /** An unverified domain, or one that was removed, leads nowhere. */
  lemma UnverifiedIsNotRouted(domain: string, base: string, isIP: bool, host: string,
                              cache: map<string, CustomDomain>, d: CustomDomain, tunnels: map<string, nat>)
    requires Validate(domain, base, isIP).Accepted? && ':' !in domain && d.domain == domain && Spells(host, domain)
    ensures !d.verified || d.target == "" ==> Routed(host, [base], cache[ToLower(domain) := d], tunnels) == None
    ensures Routed(host, [base], cache - {ToLower(domain)}, tunnels) == None
  {
    CustomDomainIsReached(domain, base, isIP, [], host, cache, d);
    CutOfFolded(host);
  }
}
