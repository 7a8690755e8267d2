/** The cluster objects the controller reads and writes, as values. */
module ClusterState {
  import opened Prelude
  import opened TunnelApi
  import opened AgentPod
  import opened Classify

  const SERVICE_NAME_LABEL := "kubernetes.io/service-name"

  datatype Key = Key(namespace: string, name: string)

  datatype ServicePort = ServicePort(name: string, port: int)

  datatype Endpoint = Endpoint(ready: Option<bool>)

  datatype EndpointSlice = EndpointSlice(labels: map<string, string>, endpoints: seq<Endpoint>)

  /** `terminating` is a set deletion timestamp; `scheduled` says whether a node has taken the
      pod, in which case deleting it waits for kubelet. */
  datatype Pod = Pod(uid: nat, template: Template, statuses: seq<ContainerStatus>, scheduled: bool, terminating: bool)

  type SecretData = map<string, seq<byte>>

  datatype World = World(
    tunnels: map<string, Tunnel>,
    pods: map<Key, Pod>,
    secrets: map<Key, SecretData>,
    services: map<Key, seq<ServicePort>>,
    slices: map<Key, EndpointSlice>)

  function NewPod(uid: nat, template: Template): Pod {
    Pod(uid, template, [], false, false)
  }

  /** What a delete request leaves: nothing for a pod no node has taken, otherwise the pod
      with its deletion timestamp set. */
  function AfterDelete(pod: Pod): Option<Pod> {
    if pod.scheduled then Some(pod.(terminating := true)) else None
  }

  function SetKey<K, V>(m: map<K, V>, k: K, v: Option<V>): map<K, V> {
    match v
    case None => m - {k}
    case Some(x) => m[k := x]
  }

  function GetKey<K, V>(m: map<K, V>, k: K): Option<V> {
    if k in m then Some(m[k]) else None
  }

  lemma SetGetKey<K, V>(m: map<K, V>, k: K, v: Option<V>, other: K)
    ensures GetKey(SetKey(m, k, v), other) == if other == k then v else GetKey(m, other)
    ensures SetKey(m, k, GetKey(m, k)) == m
  {
    if k in m {
      assert m[k := m[k]] == m;
    } else {
      assert m - {k} == m;
    }
  }

  lemma SetKeyCommutes<K, V>(m: map<K, V>, k: K, v: Option<V>, l: K, w: Option<V>)
    requires k != l
    ensures SetKey(SetKey(m, k, v), l, w) == SetKey(SetKey(m, l, w), k, v)
  {
    var a, b := SetKey(SetKey(m, k, v), l, w), SetKey(SetKey(m, l, w), k, v);
    assert a.Keys == b.Keys;
    assert forall x :: x in a ==> a[x] == b[x];
  }
}
