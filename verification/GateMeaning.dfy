/** When the two gates are open, in terms of the Secret's bytes, the Service's ports and the fields of
    the EndpointSlices. */
module GateMeaning {
  import opened Prelude
  import opened Decimal
  import opened TunnelApi
  import opened ClusterState
  import opened PassSpec

  // ---- white space ----

  /** The white space characters of Unicode in UTF-8: the ASCII ones, U+0085, U+00A0, U+1680,
      U+2000 to U+200A, U+2028, U+2029, U+202F, U+205F and U+3000. */
  const WHITE_SPACE: set<seq<byte>> := {
    [0x09], [0x0A], [0x0B], [0x0C], [0x0D], [0x20],
    [0xC2, 0x85], [0xC2, 0xA0], [0xE1, 0x9A, 0x80],
    [0xE2, 0x80, 0x80], [0xE2, 0x80, 0x81], [0xE2, 0x80, 0x82], [0xE2, 0x80, 0x83], [0xE2, 0x80, 0x84],
    [0xE2, 0x80, 0x85], [0xE2, 0x80, 0x86], [0xE2, 0x80, 0x87], [0xE2, 0x80, 0x88], [0xE2, 0x80, 0x89],
    [0xE2, 0x80, 0x8A], [0xE2, 0x80, 0xA8], [0xE2, 0x80, 0xA9], [0xE2, 0x80, 0xAF],
    [0xE2, 0x81, 0x9F], [0xE3, 0x80, 0x80]}

  /** A concatenation of white space characters. */
  ghost predicate OnlySpaces(s: seq<byte>) {
    exists parts: seq<seq<byte>> :: Concat(parts) == s && forall p :: p in parts ==> p in WHITE_SPACE
  }

  /** The first character is white space exactly when the width is not 0. */
  lemma WidthMeaning(s: seq<byte>)
    ensures SpaceWidth(s) > 0 ==> s[..SpaceWidth(s)] in WHITE_SPACE
    ensures forall k :: 0 <= k <= |s| && s[..k] in WHITE_SPACE ==> k == SpaceWidth(s)
  {
    forall k | 0 <= k <= |s| && s[..k] in WHITE_SPACE ensures k == SpaceWidth(s) {
      var p := s[..k];
      assert 1 <= |p| <= 3 && p[0] == s[0];
      assert |p| >= 2 ==> p[1] == s[1];
      assert |p| >= 3 ==> p[2] == s[2];
    }
    var w := SpaceWidth(s);
    if w == 1 { assert s[..1] == [s[0]]; }
    else if w == 2 { assert s[..2] == [s[0], s[1]]; }
    else if w == 3 { assert s[..3] == [s[0], s[1], s[2]]; }
  }

  /** Trimming leaves nothing exactly of a concatenation of white space characters. */
  lemma {:induction false} BlankMeaning(s: seq<byte>)
    ensures Blank(s) <==> OnlySpaces(s)
  {
    hide SpaceWidth;
    if Blank(s) { SpacesOf(s); }
    if OnlySpaces(s) {
      var parts: seq<seq<byte>> :| Concat(parts) == s && forall p :: p in parts ==> p in WHITE_SPACE;
      SpacesAreBlank(parts);
    }
  }

  lemma {:induction false} SpacesOf(s: seq<byte>)
    requires Blank(s)
    ensures OnlySpaces(s)
  {
    hide SpaceWidth;
    if s == [] {
      assert Concat<byte>([]) == s;
    } else {
      var w := SpaceWidth(s);
      WidthMeaning(s);
      SpacesOf(s[w..]);
      var parts: seq<seq<byte>> :| Concat(parts) == s[w..] && forall p :: p in parts ==> p in WHITE_SPACE;
      var all := [s[..w]] + parts;
      assert all[1..] == parts && s == s[..w] + s[w..];
      assert Concat(all) == s;
    }
  }

  lemma {:induction false} SpacesAreBlank(parts: seq<seq<byte>>)
    requires forall p :: p in parts ==> p in WHITE_SPACE
    ensures Blank(Concat(parts))
  {
    hide SpaceWidth;
    hide WHITE_SPACE;
    if parts != [] {
      var s, k := Concat(parts), |parts[0]|;
      SpacesAreBlank(parts[1..]);
      assert parts[0] in parts;
      assert s[..k] == parts[0] && s[k..] == Concat(parts[1..]);
      WidthMeaning(s);
      NoEmptySpace(parts[0]);
    }
  }

  lemma NoEmptySpace(p: seq<byte>)
    requires p in WHITE_SPACE
    ensures p != []
    ensures forall b :: b in p ==> !(0x21 <= b <= 0x7E)
  {
  }

  lemma {:induction false} PartsHoldBytes(parts: seq<seq<byte>>, b: byte)
    requires b in Concat(parts)
    ensures exists p :: p in parts && b in p
  {
    if b !in parts[0] {
      PartsHoldBytes(parts[1..], b);
    }
  }

  // ---- the token ----

  /** The Secret is there and holds these bytes under the key referred to, and they are more than
      white space. */
  ghost predicate GivesToken(namespace: string, secrets: map<Key, SecretData>, ref: SecretRef, token: seq<byte>) {
    var secret, dataKey := Key(namespace, ref.name), if ref.key == "" then "authToken" else ref.key;
    && secret in secrets && dataKey in secrets[secret]
    && token == secrets[secret][dataKey]
    && !OnlySpaces(token)
  }

  /** The token gate is open with a token exactly when the cluster gives it; otherwise the reason says
      what is missing. */
  lemma TokenGateMeaning(op: Operator, secrets: map<Key, SecretData>, ref: SecretRef)
    ensures var check := CheckToken(op, secrets, ref);
      var secret, dataKey := Key(op.namespace, ref.name), if ref.key == "" then "authToken" else ref.key;
      && (forall t :: check == TokenOk(t) <==> GivesToken(op.namespace, secrets, ref, t))
      && (check.TokenOk? ==> GivesToken(op.namespace, secrets, ref, check.token))
      && (check.TokenBad? ==>
            && (check.reason == SecretNotFound <==> secret !in secrets)
            && (check.reason == SecretKeyNotFound <==> secret in secrets && dataKey !in secrets[secret])
            && (check.reason == EmptyToken <==>
                  secret in secrets && dataKey in secrets[secret] && OnlySpaces(secrets[secret][dataKey]))
            && check.message == (
                 if secret !in secrets then TokenSecretMissing(ref.name, op.namespace)
                 else if dataKey !in secrets[secret] then TokenKeyMissing(ref.name, dataKey)
                 else TokenBlank(ref.name, dataKey)))
  {
    hide Blank;
    hide OnlySpaces;
    var secret, dataKey := Key(op.namespace, ref.name), if ref.key == "" then "authToken" else ref.key;
    if secret in secrets && dataKey in secrets[secret] {
      BlankMeaning(secrets[secret][dataKey]);
    }
  }

  /** One printable ASCII character opens the gate; no bytes at all shut it. */
  lemma TokenExamples(op: Operator, secrets: map<Key, SecretData>, ref: SecretRef)
    requires Key(op.namespace, ref.name) in secrets
    requires (if ref.key == "" then "authToken" else ref.key) in secrets[Key(op.namespace, ref.name)]
    ensures var token := secrets[Key(op.namespace, ref.name)][if ref.key == "" then "authToken" else ref.key];
      var check := CheckToken(op, secrets, ref);
      && ((exists b :: b in token && 0x21 <= b <= 0x7E) ==> check == TokenOk(token))
      && (token == [] ==> check.TokenBad? && check.reason == EmptyToken)
  {
    hide CheckToken;
    var token := secrets[Key(op.namespace, ref.name)][if ref.key == "" then "authToken" else ref.key];
    TokenGateMeaning(op, secrets, ref);
    if b :| b in token && 0x21 <= b <= 0x7E {
      PrintableIsNoSpace(token, b);
    }
    if token == [] {
      assert Concat<byte>([]) == token;
      assert OnlySpaces(token);
    }
  }

  lemma PrintableIsNoSpace(token: seq<byte>, b: byte)
    requires b in token && 0x21 <= b <= 0x7E
    ensures !OnlySpaces(token)
  {
    hide WHITE_SPACE;
    if OnlySpaces(token) {
      var parts: seq<seq<byte>> :| Concat(parts) == token && forall p :: p in parts ==> p in WHITE_SPACE;
      PartsHoldBytes(parts, b);
      var p :| p in parts && b in p;
      NoEmptySpace(p);
      assert false;
    }
  }

  // ---- the backend ----

  predicate Matches(p: ServicePort, want: PortRef) {
    (want.ByNumber? && p.port == want.number) || (want.ByName? && p.name == want.name)
  }

  /** The port is that of the first declaration with the wanted number or name. */
  predicate IsFirstPort(ports: seq<ServicePort>, want: PortRef, port: int) {
    exists i :: 0 <= i < |ports| && Matches(ports[i], want) && ports[i].port == port
                && forall j :: 0 <= j < i ==> !Matches(ports[j], want)
  }

  /** Some slice in the namespace of the Service carries its label and has an endpoint that is marked
      ready or not marked at all. */
  predicate HasServingEndpoint(slices: map<Key, EndpointSlice>, ref: BackendRef) {
    exists k :: k in slices && k.namespace == ref.namespace
                && "kubernetes.io/service-name" in slices[k].labels
                && slices[k].labels["kubernetes.io/service-name"] == ref.serviceName
                && exists e :: e in slices[k].endpoints && (e.ready == None || e.ready == Some(true))
  }

  lemma EndpointMeaning(slices: map<Key, EndpointSlice>, ref: BackendRef)
    ensures HasReadyEndpoint(slices, ServiceKey(ref)) <==> HasServingEndpoint(slices, ref)
  {
    if HasReadyEndpoint(slices, ServiceKey(ref)) {
      var k :| k in slices && k.namespace == ref.namespace && SliceServes(slices[k], ref.serviceName)
               && exists e :: e in slices[k].endpoints && EndpointReady(e);
      var e :| e in slices[k].endpoints && EndpointReady(e);
      ReadyValues(e.ready);
    }
    if HasServingEndpoint(slices, ref) {
      var k :| k in slices && k.namespace == ref.namespace
               && "kubernetes.io/service-name" in slices[k].labels
               && slices[k].labels["kubernetes.io/service-name"] == ref.serviceName
               && exists e :: e in slices[k].endpoints && (e.ready == None || e.ready == Some(true));
      var e :| e in slices[k].endpoints && (e.ready == None || e.ready == Some(true));
      assert EndpointReady(e) && SliceServes(slices[k], ref.serviceName);
    }
  }

  lemma ReadyValues(ready: Option<bool>)
    ensures ready == None || ready == Some(true) || ready == Some(false)
  {
    if ready.Some? { assert ready == Some(if ready.value then true else false); }
  }

  lemma PortMeaning(ports: seq<ServicePort>, want: PortRef)
    ensures forall n :: ResolvePort(ports, want) == Some(n) <==> IsFirstPort(ports, want, n)
    ensures ResolvePort(ports, want).None? <==> forall p :: p in ports ==> !Matches(p, want)
  {
    forall p ensures Declares(p, want) <==> Matches(p, want) {}
    var r := ResolvePort(ports, want);
    forall n ensures r == Some(n) <==> IsFirstPort(ports, want, n) {
      if IsFirstPort(ports, want, n) {
        var i :| 0 <= i < |ports| && Matches(ports[i], want) && ports[i].port == n
                 && forall j :: 0 <= j < i ==> !Matches(ports[j], want);
        assert ports[i] in ports;
        assert Declares(ports[i], want);
        var h :| 0 <= h < |ports| && Declares(ports[h], want) && ports[h].port == r.value
                 && forall j :: 0 <= j < h ==> !Declares(ports[j], want);
        assert h == i;
      }
    }
  }

  /** The Service is there, declares the port, and has a serving endpoint. */
  predicate GivesBackend(services: map<Key, seq<ServicePort>>, slices: map<Key, EndpointSlice>, ref: BackendRef,
                         port: int)
  {
    var service := Key(ref.namespace, ref.serviceName);
    service in services && IsFirstPort(services[service], ref.port, port) && HasServingEndpoint(slices, ref)
  }

  /** The backend gate is open with a host and a port exactly when the cluster gives them; otherwise
      the reason says what is missing. */
  lemma BackendGateMeaning(services: map<Key, seq<ServicePort>>, slices: map<Key, EndpointSlice>, ref: BackendRef)
    ensures var check := CheckBackend(services, slices, ref);
      var service := Key(ref.namespace, ref.serviceName);
      && (forall h, p :: check == BackendOk(h, p) <==>
            h == ref.serviceName + "." + ref.namespace + ".svc" && GivesBackend(services, slices, ref, p))
      && (check.BackendBad? ==>
            && (check.reason == ServiceNotFound <==> service !in services)
            && (check.reason == PortNotResolvable <==>
                  service in services && forall p :: p in services[service] ==> !Matches(p, ref.port))
            && (check.reason == NoReadyEndpoints <==>
                  && service in services && (exists p :: p in services[service] && Matches(p, ref.port))
                  && !HasServingEndpoint(slices, ref))
            && check.message == (
                 if service !in services then ServiceMissing(ref.namespace, ref.serviceName)
                 else if exists p :: p in services[service] && Matches(p, ref.port)
                 then EndpointsMissing(ref.namespace, ref.serviceName)
                 else if ref.port.ByNumber? then PortNumberUndeclared(ref.port.number, ref.namespace, ref.serviceName)
                 else PortNameUndeclared(ref.port.name, ref.namespace, ref.serviceName)))
  {
    hide HasReadyEndpoint;
    hide HasServingEndpoint;
    hide ResolvePort;
    hide IsFirstPort;
    hide Matches;
    EndpointMeaning(slices, ref);
    var service := Key(ref.namespace, ref.serviceName);
    if service in services { PortMeaning(services[service], ref.port); }
  }

  /** The address the agent is given and the status shows. */
  lemma AddressText(host: string, port: int)
    ensures Address(host, port) == host + ":" + (if port < 0 then "-" + Digits(-port) else Digits(port))
  {
  }

  /** Which failing calls the backend check notices: the slices are listed only for a Service that is
      there and declares the port. */
  lemma BackendReadMeaning(services: map<Key, seq<ServicePort>>, ref: BackendRef, o: Oracle)
    ensures BackendReadFails(services, ref, o) <==>
      || o.getService
      || (&& o.listSlices && Key(ref.namespace, ref.serviceName) in services
          && exists p :: p in services[Key(ref.namespace, ref.serviceName)] && Matches(p, ref.port))
  {
    hide ResolvePort;
    hide Matches;
    var service := Key(ref.namespace, ref.serviceName);
    if service in services { PortMeaning(services[service], ref.port); }
  }
}
