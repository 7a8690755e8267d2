/** The agent pod: its resolved configuration, its spec hash, and the pod built from it. */
module AgentPod {
  import opened Prelude
  import opened Decimal
  import opened Json

  const SPEC_HASH_ANNOTATION := "jprq.io/spec-hash"
  const TUNNEL_LABEL := "jprq.io/tunnel"
  const AGENT_CONTAINER := "agent"
  const AGENT_APP := "jprq-agent"
  const TOKEN_MOUNT := "/etc/jprq"
  const HEALTH_ADDR := ":9000"
  const PROTOCOL_HTTP := "http"

  /** SHA-256, uninterpreted. `spec` stands for the first sixteen hexadecimal digits of the
      digest of a payload, `token` for the full hexadecimal digest of the token bytes. */
  datatype Hashes = Hashes(spec: string -> string, token: seq<byte> -> string)

  datatype AgentConfig = AgentConfig(
    image: string,
    operatorNamespace: string,
    backendHost: string,
    backendPort: int,
    subdomain: string,
    secretName: string,
    secretKey: string,
    tokenDigest: string)

  datatype KeyToPath = KeyToPath(key: string, path: string)

  /** The part of a pod that its creator decides. Constants shared by all agent pods
      (security contexts, probes, resources) are not fields. */
  datatype Template = Template(
    name: string,
    namespace: string,
    labels: map<string, string>,
    annotations: map<string, string>,
    owner: string,
    image: string,
    env: map<string, string>,
    volumeSecret: string,
    volumeItems: seq<KeyToPath>)

  function PodName(tunnel: string): string {
    "jprq-" + tunnel
  }

  lemma PodNameInjective(a: string, b: string)
    requires PodName(a) == PodName(b)
    ensures a == b
  {
    assert PodName(a)[5..] == a && PodName(b)[5..] == b;
  }

  function PayloadFields(c: AgentConfig): seq<Field> {
    [Field("image", Text(c.image)),
     Field("protocol", Text(PROTOCOL_HTTP)),
     Field("subdomain", Text(c.subdomain)),
     Field("backendHost", Text(c.backendHost)),
     Field("backendPort", Number(c.backendPort)),
     Field("secretName", Text(c.secretName)),
     Field("secretKey", Text(c.secretKey)),
     Field("tokenDigest", Text(c.tokenDigest)),
     Field("healthAddr", Text(HEALTH_ADDR))]
  }

  function Payload(c: AgentConfig): string {
    EncodeStruct(PayloadFields(c))
  }

  function SpecHash(h: Hashes, c: AgentConfig): string {
    h.spec(Payload(c))
  }

  function DesiredPod(h: Hashes, tunnel: string, c: AgentConfig): Template {
    Template(
      PodName(tunnel),
      c.operatorNamespace,
      map["app.kubernetes.io/name" := AGENT_APP, TUNNEL_LABEL := tunnel],
      map[SPEC_HASH_ANNOTATION := SpecHash(h, c)],
      tunnel,
      c.image,
      map["JPRQ_PROTOCOL" := PROTOCOL_HTTP,
          "JPRQ_BACKEND_HOST" := c.backendHost,
          "JPRQ_BACKEND_PORT" := Itoa(c.backendPort),
          "JPRQ_SUBDOMAIN" := c.subdomain,
          "JPRQ_TOKEN_FILE" := TOKEN_MOUNT + "/" + c.secretKey,
          "JPRQ_HEALTH_ADDR" := HEALTH_ADDR],
      c.secretName,
      [KeyToPath(c.secretKey, c.secretKey)])
  }

  lemma AnnotationOf(h: Hashes, name: string, c: AgentConfig)
    ensures Lookup(DesiredPod(h, name, c).annotations, SPEC_HASH_ANNOTATION) == SpecHash(h, c)
  {
    hide SpecHash;
  }

  /** The hashed text: one JSON object, the fields in this order. */
  lemma PayloadText(c: AgentConfig)
    ensures Payload(c) == "{" + Commas(PayloadParts(c)) + "}"
  {
    var fs, parts := PayloadFields(c), PayloadParts(c);
    forall i | 0 <= i < |fs| ensures EncodeField(fs[i]) == parts[i] {
      ImageParts(c);
      BackendParts(c);
      SecretParts(c);
      LastParts(c);
    }
    FieldsAreCommas(fs, parts);
  }

  function PayloadParts(c: AgentConfig): (parts: seq<string>)
    ensures |parts| == 9
  {
    ["\"image\":" + Quoted(c.image),
     "\"protocol\":" + "\"http\"",
     "\"subdomain\":" + Quoted(c.subdomain),
     "\"backendHost\":" + Quoted(c.backendHost),
     "\"backendPort\":" + Itoa(c.backendPort),
     "\"secretName\":" + Quoted(c.secretName),
     "\"secretKey\":" + Quoted(c.secretKey),
     "\"tokenDigest\":" + Quoted(c.tokenDigest),
     "\"healthAddr\":" + "\":9000\""]
  }

  lemma ImageParts(c: AgentConfig)
    ensures var fs, parts := PayloadFields(c), PayloadParts(c);
      forall i :: 0 <= i < 3 ==> EncodeField(fs[i]) == parts[i]
  {
    hide EncodeField;
    hide EscapeText;
    PlainField("image", "\"image\":", Text(c.image));
    QuotedPlain("http", "\"http\"");
    PlainField("protocol", "\"protocol\":", Text("http"));
    PlainField("subdomain", "\"subdomain\":", Text(c.subdomain));
  }

  lemma BackendParts(c: AgentConfig)
    ensures var fs, parts := PayloadFields(c), PayloadParts(c);
      forall i :: 3 <= i < 5 ==> EncodeField(fs[i]) == parts[i]
  {
    hide EncodeField;
    hide EscapeText;
    PlainField("backendHost", "\"backendHost\":", Text(c.backendHost));
    PlainField("backendPort", "\"backendPort\":", Number(c.backendPort));
  }

  lemma SecretParts(c: AgentConfig)
    ensures var fs, parts := PayloadFields(c), PayloadParts(c);
      forall i :: 5 <= i < 7 ==> EncodeField(fs[i]) == parts[i]
  {
    hide EncodeField;
    hide EscapeText;
    PlainField("secretName", "\"secretName\":", Text(c.secretName));
    PlainField("secretKey", "\"secretKey\":", Text(c.secretKey));
  }

  lemma LastParts(c: AgentConfig)
    ensures var fs, parts := PayloadFields(c), PayloadParts(c);
      forall i :: 7 <= i < 9 ==> EncodeField(fs[i]) == parts[i]
  {
    hide EncodeField;
    hide EscapeText;
    PlainField("tokenDigest", "\"tokenDigest\":", Text(c.tokenDigest));
    QuotedPlain(":9000", "\":9000\"");
    PlainField("healthAddr", "\"healthAddr\":", Text(":9000"));
  }

  lemma QuotedPlain(s: string, quoted: string)
    requires forall c :: c in s ==> !Special(c)
    requires quoted == [QUOTE] + s + [QUOTE]
    ensures EncodeScalar(Text(s)) == quoted
  {
    PlainText(s);
  }

  /** The payload is an injective record of every field but the namespace. */
  lemma PayloadInjective(c: AgentConfig, d: AgentConfig)
    requires Payload(c) == Payload(d)
    ensures c == d.(operatorNamespace := c.operatorNamespace)
  {
    var fs, gs := PayloadFields(c), PayloadFields(d);
    StructInjective(fs, gs);
    assert forall i :: 0 <= i < |fs| ==> fs[i] == gs[i];
    assert fs[0].value.text == gs[0].value.text;
    assert fs[2].value.text == gs[2].value.text;
    assert fs[3].value.text == gs[3].value.text;
    assert fs[4].value.number == gs[4].value.number;
    assert fs[5].value.text == gs[5].value.text;
    assert fs[6].value.text == gs[6].value.text;
    assert fs[7].value.text == gs[7].value.text;
  }

  /** The spec hash covers the pod: a pod that differs in anything the controller decides
      has a different payload, and the other way round up to the token digest, which the
      pod shows only through its annotation. */
  lemma SpecHashCoversPod(h: Hashes, tunnel: string, c: AgentConfig, d: AgentConfig)
    requires c.operatorNamespace == d.operatorNamespace
    ensures Payload(c) == Payload(d) ==> DesiredPod(h, tunnel, c) == DesiredPod(h, tunnel, d)
    ensures (DesiredPod(h, tunnel, c) == DesiredPod(h, tunnel, d) && c.tokenDigest == d.tokenDigest)
            ==> Payload(c) == Payload(d)
  {
    if Payload(c) == Payload(d) {
      PayloadInjective(c, d);
    }
    var p, q := DesiredPod(h, tunnel, c), DesiredPod(h, tunnel, d);
    if p == q && c.tokenDigest == d.tokenDigest {
      assert p.env["JPRQ_BACKEND_HOST"] == q.env["JPRQ_BACKEND_HOST"];
      assert p.env["JPRQ_BACKEND_PORT"] == q.env["JPRQ_BACKEND_PORT"];
      assert p.env["JPRQ_SUBDOMAIN"] == q.env["JPRQ_SUBDOMAIN"];
      ItoaInjective(c.backendPort, d.backendPort);
      assert p.volumeItems[0].key == q.volumeItems[0].key;
      assert c == d;
    }
  }

  lemma ItoaInjective(a: int, b: int)
    requires Itoa(a) == Itoa(b)
    ensures a == b
  {
    ReadScalarRoundTrip(Number(a), "");
    ReadScalarRoundTrip(Number(b), "");
    assert EncodeScalar(Number(a)) + "" == EncodeScalar(Number(b)) + "";
  }
}
