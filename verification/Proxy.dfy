/** The header part of the upstream round trip, and what it guarantees under a validated configuration. */
module Proxy {
  import opened Text
  import opened Headers

  datatype ProxyConfig = ProxyConfig(
    bearer: string,
    upstreamExtra: map<string, string>,
    requestAllow: seq<string>,
    publicExtra: map<string, string>,
    publicAuthName: string,
    publicAuth: string,
    responseAllow: seq<string>)

  // ------------------------------------------------------ what Validate admits

  predicate ValidName(name: string) {
    Canonical(name) != "" && forall c | c in name :: c !in {' ', '\t', '\r', '\n', ':'}
  }

  function ProtectedNames(): seq<string> {
    ["authorization", "cookie", "set-cookie", "host", "forwarded", "x-real-ip", "connection", "keep-alive", "te", "trailer",
     "transfer-encoding", "upgrade", "content-length", "accept-encoding", "content-encoding"]
  }

  /** protectedOutboundHeader. */
  predicate ProtectedOutbound(name: string) {
    !ValidName(name) || HasPrefix(Lower(name), "x-forwarded-") || HasPrefix(Lower(name), "proxy-") || Lower(name) in ProtectedNames()
  }

  /** The header checks of Validate. */
  predicate Accepted(cfg: ProxyConfig) {
    && (forall name | name in cfg.upstreamExtra :: !ProtectedOutbound(name))
    && (forall name | name in cfg.publicExtra :: !ProtectedOutbound(name))
    && (forall i | 0 <= i < |cfg.requestAllow| :: !ProtectedOutbound(cfg.requestAllow[i]))
    && (cfg.publicAuthName != "" ==> !ProtectedOutbound(cfg.publicAuthName))
  }

  method AnyProtected(names: set<string>) returns (found: bool)
    ensures found <==> exists name :: name in names && ProtectedOutbound(name)
  {
    hide ProtectedOutbound;
    var toCome := names;
    while toCome != {}
      invariant toCome <= names
      invariant forall name | name in names - toCome :: !ProtectedOutbound(name)
      decreases |toCome|
    {
      var name :| name in toCome;
      if ProtectedOutbound(name) {
        return true;
      }
      toCome := toCome - {name};
    }
    return false;
  }

  /** Validate's loops over the configured header names. */
  method CheckHeaders(cfg: ProxyConfig) returns (ok: bool)
    ensures ok <==> Accepted(cfg)
  {
    hide ProtectedOutbound;
    if cfg.publicAuthName != "" && ProtectedOutbound(cfg.publicAuthName) {
      return false;
    }
    for i := 0 to |cfg.requestAllow|
      invariant forall k | 0 <= k < i :: !ProtectedOutbound(cfg.requestAllow[k])
    {
      if ProtectedOutbound(cfg.requestAllow[i]) {
        return false;
      }
    }
    var public := AnyProtected(cfg.publicExtra.Keys);
    if public {
      return false;
    }
    var upstream := AnyProtected(cfg.upstreamExtra.Keys);
    return !upstream;
  }

  // ------------------------------------------------------------ the rewriting

  predicate Comes(extra: map<string, string>, k: string) {
    exists name :: name in extra && Canonical(name) == k
  }

  /** One configured value per configured name, everything else as before. When names differ in case
      only, any one of their values is set. */
  ghost predicate Overlaid(before: map<string, Values>, extra: map<string, string>, after: map<string, Values>) {
    forall k: string ::
      if Comes(extra, k) then k in after && exists name :: name in extra && Canonical(name) == k && after[k] == [extra[name]]
      else (k in after <==> k in before) && (k in after ==> after[k] == before[k])
  }

  /** The loops that set configured headers, ranging over the map in any order. */
  method SetAll(h: Header, extra: map<string, string>)
    modifies h
    ensures Overlaid(old(h.m), extra, h.m)
  {
    hide Canonical;
    var toCome := extra.Keys;
    ghost var done: map<string, string> := map[];
    while toCome != {}
      invariant toCome <= extra.Keys
      invariant forall name :: name in done <==> name in extra && name !in toCome
      invariant forall name | name in done :: done[name] == extra[name]
      invariant Overlaid(old(h.m), done, h.m)
      decreases |toCome|
    {
      var name :| name in toCome;
      OverlayOne(old(h.m), done, h.m, name, extra[name]);
      h.Set(name, extra[name]);
      done := done[name := extra[name]];
      toCome := toCome - {name};
    }
    assert done == extra;
  }

  lemma OverlayOne(before: map<string, Values>, done: map<string, string>, after: map<string, Values>, name: string, value: string)
    requires Overlaid(before, done, after) && name !in done
    ensures Overlaid(before, done[name := value], after[Canonical(name) := [value]])
  {
    hide Canonical;
    var done', after' := done[name := value], after[Canonical(name) := [value]];
    forall k: string
      ensures if Comes(done', k) then k in after' && exists other :: other in done' && Canonical(other) == k && after'[k] == [done'[other]]
              else (k in after' <==> k in before) && (k in after' ==> after'[k] == before[k])
    {
      if k == Canonical(name) {
        assert name in done' && after'[k] == [done'[name]];
      } else if Comes(done', k) {
        var other :| other in done' && Canonical(other) == k;
        assert Comes(done, k);
        var chosen :| chosen in done && Canonical(chosen) == k && after[k] == [done[chosen]];
        assert chosen in done' && done'[chosen] == done[chosen];
      } else {
        forall other | other in done
          ensures Canonical(other) != k
        {
          assert other in done';
        }
      }
    }
  }

  predicate AllowedName(allowed: seq<string>, name: string) {
    exists i | 0 <= i < |allowed| :: Lower(allowed[i]) == Lower(name)
  }

  method LowerSet(xs: seq<string>) returns (out: set<string>)
    ensures forall s :: s in out <==> exists i | 0 <= i < |xs| :: Lower(xs[i]) == s
  {
    hide Lower;
    out := {};
    for i := 0 to |xs|
      invariant forall s :: s in out <==> exists k | 0 <= k < i :: Lower(xs[k]) == s
    {
      out := out + {Lower(xs[i])};
    }
  }

  lemma AllowedByLower(allowed: seq<string>, lowered: set<string>, name: string)
    requires forall s :: s in lowered <==> exists i | 0 <= i < |allowed| :: Lower(allowed[i]) == s
    ensures AllowedName(allowed, name) <==> Lower(name) in lowered
  {
    hide Lower;
  }

  /** filterHeaders, deleting in place. */
  method FilterHeaders(h: Header, allowed: seq<string>)
    requires CanonicalKeys(h.m)
    modifies h
    ensures h.m == map k | k in old(h.m) && AllowedName(allowed, k) :: old(h.m)[k]
  {
    hide Canonical, Lower, AllowedName;
    var allowedSet := LowerSet(allowed);

    var toCome := h.m.Keys;
    while toCome != {}
      invariant toCome <= h.m.Keys <= old(h.m).Keys
      invariant forall k | k in old(h.m) :: k in h.m <==> k in toCome || AllowedName(allowed, k)
      invariant forall k | k in h.m :: h.m[k] == old(h.m)[k]
      decreases |toCome|
    {
      var name :| name in toCome;
      AllowedByLower(allowed, allowedSet, name);
      if Lower(name) !in allowedSet {
        h.Del(name);
      }
      toCome := toCome - {name};
    }
  }

  /** Behind hop-by-hop stripping, without the client's credentials, and with a fixed encoding. */
  function Cleaned(client: map<string, Values>): map<string, Values> {
    (Stripped(client) - {"Authorization"})["Accept-Encoding" := ["identity"]]
  }

  function Authorized(client: map<string, Values>, bearer: string): map<string, Values> {
    Cleaned(client)["Authorization" := ["Bearer " + bearer]]
  }

  function PublicPart(client: map<string, Values>, allowed: seq<string>): map<string, Values> {
    map k | k in Cleaned(client) && AllowedName(allowed, k) :: Cleaned(client)[k]
  }

  function PublicAuth(cfg: ProxyConfig, before: map<string, Values>): map<string, Values> {
    if cfg.publicAuthName == "" then before else before[Canonical(cfg.publicAuthName) := [cfg.publicAuth]]
  }

  /** The headers of the upstream request, as the source builds them. */
  ghost predicate Sends(client: map<string, Values>, cfg: ProxyConfig, public: bool, sent: map<string, Values>) {
    if !public then Overlaid(Authorized(client, cfg.bearer), cfg.upstreamExtra, sent)
    else exists before ::
           Overlaid(PublicPart(client, cfg.requestAllow), cfg.publicExtra, before) && sent == PublicAuth(cfg, before)
  }

  /** The header part of RoundTrip, on a clone of the client's headers. */
  method RequestHeaders(client: map<string, Values>, cfg: ProxyConfig, public: bool) returns (sent: map<string, Values>)
    requires CanonicalKeys(client)
    ensures Sends(client, cfg, public, sent)
  {
    hide Canonical, Stripped, Overlaid, AllowedName;
    FixedNames();
    var h := new Header(client);
    StripHopByHop(h);
    h.Del("Authorization");
    h.Set("Accept-Encoding", "identity");
    assert h.m == Cleaned(client);
    if !public {
      h.Set("Authorization", "Bearer " + cfg.bearer);
      SetAll(h, cfg.upstreamExtra);
    } else {
      FilterHeaders(h, cfg.requestAllow);
      assert h.m == PublicPart(client, cfg.requestAllow);
      SetAll(h, cfg.publicExtra);
      ghost var before := h.m;
      if cfg.publicAuthName != "" {
        h.Set(cfg.publicAuthName, cfg.publicAuth);
      }
      assert h.m == PublicAuth(cfg, before);
    }
    sent := h.m;
  }

  lemma FixedNames()
    ensures Canonical("Authorization") == "Authorization" && Canonical("Accept-Encoding") == "Accept-Encoding"
  {
    hide Canonical;
    AuthorizationName();
    EncodingName();
  }

  lemma AuthorizationName()
    ensures Canonical("Authorization") == "Authorization"
  {
    AuthorizationToken();
    hide TokenChar, Token;
    var name := "Authorization";
    forall i | 0 <= i < |name|
      ensures Cased(name, true)[i] == name[i]
    {
      CasedAt(name, true, i);
    }
  }

  lemma AuthorizationToken()
    ensures Token("Authorization")
  {
  }

  lemma EncodingName()
    ensures Canonical("Accept-Encoding") == "Accept-Encoding"
  {
    hide TokenChar, Cased;
    AcceptPart();
    EncodingPart();
    CasedConcat("Accept-", "Encoding", true);
    assert "Accept-" + "Encoding" == "Accept-Encoding";
  }

  lemma AcceptPart()
    ensures Cased("Accept-", true) == "Accept-" && Token("Accept-")
  {
    AcceptToken();
    hide TokenChar, Token;
    forall i | 0 <= i < |"Accept-"|
      ensures Cased("Accept-", true)[i] == "Accept-"[i]
    {
      CasedAt("Accept-", true, i);
    }
  }

  lemma AcceptToken()
    ensures Token("Accept-")
  {
  }

  lemma EncodingPart()
    ensures Cased("Encoding", true) == "Encoding" && Token("Encoding")
  {
    EncodingToken();
    hide TokenChar, Token;
    forall i | 0 <= i < |"Encoding"|
      ensures Cased("Encoding", true)[i] == "Encoding"[i]
    {
      CasedAt("Encoding", true, i);
    }
  }

  lemma EncodingToken()
    ensures Token("Encoding")
  {
  }

  lemma {:induction false} CasedConcat(a: string, b: string, upper: bool)
    requires a != ""
    ensures Cased(a + b, upper) == Cased(a, upper) + Cased(b, a[|a| - 1] == '-')
  {
    assert (a + b)[1..] == a[1..] + b;
    if |a| > 1 {
      CasedConcat(a[1..], b, a[0] == '-');
    } else {
      assert a[1..] + b == b;
    }
  }

  // ---------------------------------------------------------- the guarantees

  lemma LowerFixed()
    ensures Lower("Authorization") == "authorization" && Lower("Accept-Encoding") == "accept-encoding"
  {
    assert Lower("Authorization") == "authorization";
    assert Lower("Accept-Encoding") == "accept-encoding";
  }

  /** A configured name cannot stand for one of the gateway's own or for a hop-by-hop name. */
  lemma UnprotectedName(name: string)
    requires !ProtectedOutbound(name)
    ensures Canonical(name) != "Authorization" && Canonical(name) != "Accept-Encoding" && !HopByHop(Canonical(name))
  {
    hide Canonical, Lower, ValidName;
    CanonicalLower(name);
    LowerFixed();
    if HopByHop(Canonical(name)) {
      HopIsProtected(name);
    }
  }

  lemma HopIsProtected(name: string)
    requires HopByHop(name)
    ensures HasPrefix(Lower(name), "x-forwarded-") || HasPrefix(Lower(name), "proxy-") || Lower(name) in ProtectedNames()
  {
    hide Lower;
    if i :| 0 <= i < |HopNames()| && Lower(name) == Lower(HopNames()[i]) {
      HopLower(i);
    }
  }

  lemma HopLower(i: nat)
    requires i < |HopNames()|
    ensures var lower := Lower(HopNames()[i]);
      HasPrefix(lower, "x-forwarded-") || HasPrefix(lower, "proxy-") || lower in ProtectedNames()
  {
    hide Lower;
    LowerProxy();
    LowerForwarded();
    LowerOthers();
  }

  lemma LowerProxy()
    ensures HasPrefix(Lower("Proxy-Connection"), "proxy-") && HasPrefix(Lower("Proxy-Authenticate"), "proxy-")
    ensures HasPrefix(Lower("Proxy-Authorization"), "proxy-")
  {
  }

  lemma LowerForwarded()
    ensures HasPrefix(Lower("X-Forwarded-For"), "x-forwarded-") && HasPrefix(Lower("X-Forwarded-Host"), "x-forwarded-")
    ensures HasPrefix(Lower("X-Forwarded-Proto"), "x-forwarded-")
  {
  }

  lemma LowerOthers()
    ensures Lower("Connection") == "connection" && Lower("Keep-Alive") == "keep-alive" && Lower("TE") == "te"
    ensures Lower("Trailer") == "trailer" && Lower("Transfer-Encoding") == "transfer-encoding" && Lower("Upgrade") == "upgrade"
    ensures Lower("Forwarded") == "forwarded" && Lower("X-Real-IP") == "x-real-ip"
  {
    assert Lower("Connection") == "connection";
    assert Lower("Keep-Alive") == "keep-alive";
    assert Lower("TE") == "te";
    assert Lower("Trailer") == "trailer";
    assert Lower("Transfer-Encoding") == "transfer-encoding";
    assert Lower("Upgrade") == "upgrade";
    assert Lower("Forwarded") == "forwarded";
    assert Lower("X-Real-IP") == "x-real-ip";
  }

  /** The gateway's own names are not hop-by-hop. */
  lemma OwnNamesStay()
    ensures !HopByHop("Authorization") && !HopByHop("Accept-Encoding")
  {
    hide Lower, HopNames;
    LowerFixed();
    HopLowers();
    assert "authorization"[0] == "accept-encoding"[0] == 'a' && "x-forwarded-"[0] == 'x';
  }

  lemma HopLowers()
    ensures forall i | 0 <= i < |HopNames()| :: Lower(HopNames()[i]) != "authorization" && Lower(HopNames()[i]) != "accept-encoding"
  {
    hide Lower;
    LowerProxy();
    LowerForwarded();
    LowerOthers();
    assert "authorization"[0] == "accept-encoding"[0] == 'a' && "x-forwarded-"[0] == 'x' && "proxy-"[0] == 'p';
    forall i | 0 <= i < |HopNames()|
      ensures Lower(HopNames()[i]) != "authorization" && Lower(HopNames()[i]) != "accept-encoding"
    {
      var lower := Lower(HopNames()[i]);
      assert HasPrefix(lower, "proxy-") ==> lower[0] == 'p';
      assert HasPrefix(lower, "x-forwarded-") ==> lower[0] == 'x';
      assert lower[0] != 'a';
    }
  }

  /** Authenticated mode: exactly the gateway's credential, nothing hop-by-hop, nothing of the client's
      that Connection nominates, and everything else of the client's as it came. */
  lemma AuthenticatedHeaders(client: map<string, Values>, cfg: ProxyConfig, sent: map<string, Values>)
    requires CanonicalKeys(client) && Accepted(cfg) && Sends(client, cfg, false, sent)
    ensures "Authorization" in sent && sent["Authorization"] == ["Bearer " + cfg.bearer]
    ensures "Accept-Encoding" in sent && sent["Accept-Encoding"] == ["identity"]
    ensures forall k | k in sent :: !HopByHop(k)
    ensures forall k | k in sent && k in Nominated(client) ::
              k == "Authorization" || k == "Accept-Encoding" || Comes(cfg.upstreamExtra, k)
    ensures forall k | k != "Authorization" && k != "Accept-Encoding" && !Comes(cfg.upstreamExtra, k) ::
              (k in sent <==> k in client && !HopByHop(k) && k !in Nominated(client)) && (k in sent ==> sent[k] == client[k])
  {
    hide Canonical, Lower, HopByHop, ProtectedOutbound, Nominated;
    OwnNamesStay();
    assert forall k: string :: Comes(cfg.upstreamExtra, k) ==> k != "Authorization" && k != "Accept-Encoding" && !HopByHop(k) by {
      forall k: string | Comes(cfg.upstreamExtra, k)
        ensures k != "Authorization" && k != "Accept-Encoding" && !HopByHop(k)
      {
        var name :| name in cfg.upstreamExtra && Canonical(name) == k;
        UnprotectedName(name);
      }
    }
    assert !Comes(cfg.upstreamExtra, "Authorization") && !Comes(cfg.upstreamExtra, "Accept-Encoding");
  }

  /** Public mode: no credential of any kind but the configured one, and only configured or allowlisted names. */
  lemma PublicHeaders(client: map<string, Values>, cfg: ProxyConfig, sent: map<string, Values>)
    requires CanonicalKeys(client) && Accepted(cfg) && Sends(client, cfg, true, sent)
    ensures "Authorization" !in sent
    ensures forall k | k in sent :: !HopByHop(k)
    ensures forall k | k in sent :: AllowedName(cfg.requestAllow, k) || Configured(cfg, k)
    ensures forall k | k in sent && k in Nominated(client) :: Configured(cfg, k)
    ensures forall k | !Configured(cfg, k) ::
              (k in sent <==> k in client && !HopByHop(k) && k !in Nominated(client) && AllowedName(cfg.requestAllow, k)) &&
              (k in sent ==> sent[k] == client[k])
    ensures cfg.publicAuthName != "" ==>
              Canonical(cfg.publicAuthName) in sent && sent[Canonical(cfg.publicAuthName)] == [cfg.publicAuth]
  {
    hide Canonical, Lower, HopByHop, ProtectedOutbound, Nominated, AllowedName;
    OwnNamesStay();
    var before :| Overlaid(PublicPart(client, cfg.requestAllow), cfg.publicExtra, before) && sent == PublicAuth(cfg, before);
    OwnNamesNotAllowed(cfg);
    forall k: string | Configured(cfg, k)
      ensures k != "Authorization" && k != "Accept-Encoding" && !HopByHop(k)
    {
      if cfg.publicAuthName != "" && Canonical(cfg.publicAuthName) == k {
        UnprotectedName(cfg.publicAuthName);
      } else {
        var name :| name in cfg.publicExtra && Canonical(name) == k;
        UnprotectedName(name);
      }
    }
    assert !Configured(cfg, "Authorization") && !Configured(cfg, "Accept-Encoding");
  }

  predicate Configured(cfg: ProxyConfig, k: string) {
    Comes(cfg.publicExtra, k) || (cfg.publicAuthName != "" && Canonical(cfg.publicAuthName) == k)
  }

  lemma OwnNamesNotAllowed(cfg: ProxyConfig)
    requires Accepted(cfg)
    ensures !AllowedName(cfg.requestAllow, "Authorization") && !AllowedName(cfg.requestAllow, "Accept-Encoding")
  {
    hide Canonical, Lower, ValidName;
    LowerFixed();
    forall i | 0 <= i < |cfg.requestAllow|
      ensures Lower(cfg.requestAllow[i]) != "authorization" && Lower(cfg.requestAllow[i]) != "accept-encoding"
    {
      assert !ProtectedOutbound(cfg.requestAllow[i]);
    }
  }

  // ---------------------------------------------------------------- responses

  predicate ProtectedResponse(name: string) {
    Lower(name) in ["set-cookie", "authorization", "proxy-authenticate", "location", "connection", "proxy-connection", "keep-alive",
                    "te", "trailer", "transfer-encoding", "upgrade"] ||
    HasPrefix(Lower(name), "x-debug")
  }

  predicate Copied(public: bool, allowed: seq<string>, k: string) {
    !ProtectedResponse(k) && (public ==> AllowedName(allowed, k))
  }

  /** What reaches the client of the headers of an answer. */
  function Copies(source: map<string, Values>, public: bool, allowed: seq<string>): map<string, Values> {
    map k | k in source && source[k] != [] && Copied(public, allowed, k) && !HopByHop(k) :: source[k]
  }

  lemma CopiedByLower(public: bool, allowed: seq<string>, lowered: set<string>, name: string)
    requires forall s :: s in lowered <==> exists i | 0 <= i < |allowed| :: Lower(allowed[i]) == s
    ensures Copied(public, allowed, name) <==> !ProtectedResponse(name) && (!public || Lower(name) in lowered)
  {
    hide Lower, ProtectedResponse;
    AllowedByLower(allowed, lowered, name);
  }

  method AddAll(h: Header, name: string, values: Values)
    requires Canonical(name) == name
    modifies h
    ensures h.m == if values == [] then old(h.m) else old(h.m)[name := Get(old(h.m), name) + values]
  {
    hide Canonical;
    for i := 0 to |values|
      invariant h.m == if i == 0 then old(h.m) else old(h.m)[name := Get(old(h.m), name) + values[..i]]
    {
      assert Get(h.m, name) == Get(old(h.m), name) + values[..i];
      h.Add(name, values[i]);
      assert Get(old(h.m), name) + values[..i + 1] == (Get(old(h.m), name) + values[..i]) + [values[i]];
    }
    assert values[..|values|] == values;
  }

  /** copyHeader into an empty header map, ranging over the upstream's headers in any order. */
  method CopyHeader(source: map<string, Values>, public: bool, allowed: seq<string>) returns (sent: map<string, Values>)
    requires CanonicalKeys(source)
    ensures sent == Copies(source, public, allowed)
  {
    hide Canonical, Lower, ProtectedResponse, HopByHop, AllowedName, Copied, NominatedIn;
    var allowedSet := LowerSet(allowed);
    var h := new Header(map[]);
    var toCome := source.Keys;
    while toCome != {}
      invariant toCome <= source.Keys
      invariant forall k :: k in h.m <==> k in source && k !in toCome && source[k] != [] && Copied(public, allowed, k)
      invariant forall k | k in h.m :: h.m[k] == source[k]
      decreases |toCome|
    {
      var name :| name in toCome;
      CopiedByLower(public, allowed, allowedSet, name);
      if !ProtectedResponse(name) && (!public || Lower(name) in allowedSet) {
        AddAll(h, name, source[name]);
      }
      toCome := toCome - {name};
    }
    NothingNominated(h.m, source, public, allowed);
    StripHopByHop(h);
    sent := h.m;
  }

  /** Connection itself was skipped, so the copy nominates nothing. */
  lemma NothingNominated(m: map<string, Values>, source: map<string, Values>, public: bool, allowed: seq<string>)
    requires m.Keys <= (map k | k in source && Copied(public, allowed, k) :: source[k]).Keys
    ensures Nominated(m) == {}
  {
    hide Lower;
    LowerOthers();
    assert ProtectedResponse("Connection");
  }

  /** Copying what would be left if the upstream's headers were stripped before they are copied. */
  function StripsFirst(source: map<string, Values>, public: bool, allowed: seq<string>): (r: map<string, Values>)
    ensures r.Keys !! Nominated(source)
  {
    Copies(Stripped(source), public, allowed)
  }

  /** A name that the upstream's Connection nominates and that it sends values for. */
  predicate NominatedHere(source: map<string, Values>, k: string) {
    Nominates(Get(source, "Connection"), k) && k in source && source[k] != []
  }

  /** Stripping reads the copy's Connection, which was never copied. So a client is spared every
      header that the upstream nominates, and gets what stripping first would leave, exactly when
      each one sent is protected, hop by hop, or outside the allowlist of public subscriptions. */
  lemma NominatedStayBehind(source: map<string, Values>, public: bool, allowed: seq<string>)
    ensures Copies(source, public, allowed) == StripsFirst(source, public, allowed) <==>
      forall k :: NominatedHere(source, k) ==>
        ProtectedResponse(k) || HopByHop(k) || (public && !AllowedName(allowed, k))
    ensures Copies(source, public, allowed) == StripsFirst(source, public, allowed) <==>
      Copies(source, public, allowed).Keys !! Nominated(source)
  {
    hide Lower, ProtectedResponse, HopByHop, AllowedName, NominatedIn, Nominates;
    var copies, stripped := Copies(source, public, allowed), StripsFirst(source, public, allowed);
    forall k
      ensures k in Nominated(source) <==> Nominates(Get(source, "Connection"), k)
    {
      NominatedExact(Get(source, "Connection"), k);
    }
    if copies == stripped {
      forall k | NominatedHere(source, k)
        ensures ProtectedResponse(k) || HopByHop(k) || (public && !AllowedName(allowed, k))
      {
        assert k !in copies.Keys;
      }
    }
    if k :| k in copies.Keys && k in Nominated(source) {
      assert NominatedHere(source, k);
    }
    assert forall k :: k in stripped <==> k in copies && k !in Nominated(source);
  }

  const NOMINATING: map<string, Values> := map["Connection" := ["X-Foo"], "X-Foo" := ["1"]]

  lemma FooName()
    ensures Canonical("X-Foo") == "X-Foo"
  {
    FooToken();
    hide TokenChar, Token;
    forall i | 0 <= i < |"X-Foo"|
      ensures Cased("X-Foo", true)[i] == "X-Foo"[i]
    {
      CasedAt("X-Foo", true, i);
    }
  }

  lemma FooToken()
    ensures Token("X-Foo")
  {
  }

  lemma ConnectionName()
    ensures Canonical("Connection") == "Connection"
  {
    ConnectionToken();
    hide TokenChar, Token;
    forall i | 0 <= i < |"Connection"|
      ensures Cased("Connection", true)[i] == "Connection"[i]
    {
      CasedAt("Connection", true, i);
    }
  }

  lemma ConnectionToken()
    ensures Token("Connection")
  {
  }

  lemma FooNominated()
    ensures NominatedIn(["X-Foo"]) == {"X-Foo"}
  {
    hide Canonical, TrimSpace, Split;
    FooName();
    TrimNothing("X-Foo");
    SplitNothing("X-Foo", ',');
    assert ["X-Foo"][..0] == [];
    assert NamesIn(["X-Foo"]) == {} + {"X-Foo"};
    assert NominatedIn(["X-Foo"]) == {} + {"X-Foo"};
  }

  lemma FooPasses()
    ensures Copied(false, [], "X-Foo") && !HopByHop("X-Foo") && !Copied(false, [], "Connection")
  {
    assert Lower("X-Foo") == "x-foo";
    LowerOthers();
    hide Lower, HopByHop;
    if HopByHop("X-Foo") {
      HopIsProtected("X-Foo");
    }
  }

  /** An answer for which that fails: X-Foo is nominated and reaches the client. */
  lemma NominatedPasses()
    ensures CanonicalKeys(NOMINATING)
    ensures Nominated(NOMINATING) == {"X-Foo"}
    ensures Copies(NOMINATING, false, []) == map["X-Foo" := ["1"]]
    ensures StripsFirst(NOMINATING, false, []) == map[]
  {
    hide Canonical, NominatedIn, Copied, HopByHop;
    FooName();
    ConnectionName();
    FooNominated();
    FooPasses();
  }
}
