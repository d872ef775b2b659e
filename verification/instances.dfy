/** Instance resolution (instances.go): from a node to its instance ID, from the
    API's answer to an InstanceInfo, and the three InstancesV2 queries that go
    through the cache. */
module Instances {
  import opened Common
  import opened Text
  import opened Api
  import opened VCloud
  import opened Cache

  const SchemeSeparator := "://"
  const InstanceTypeLabel := "k8s.io.infra.vnetwork.dev/instance-type"
  const ClusterIDLabel := "k8s.io.infra.vnetwork.dev/cluster-id"

  // ---------------------------------------------------------------------------
  // getProviderID
  // ---------------------------------------------------------------------------

  /** The instance ID of a node: the part after `://` when spec.providerID has
      exactly one such separator, spec.providerID itself otherwise, and the node
      name when spec.providerID is empty. */
  function GetProviderID(node: Node): (id: string)
    ensures node.providerID == "" ==> id == node.name
    ensures node.providerID != "" ==> HasSuffix(node.providerID, id)
  {
    if node.providerID != "" then
      var parts := Split(node.providerID, SchemeSeparator);
      if |parts| == 2 then
        assert parts[1..] == [parts[1]];
        assert node.providerID == parts[0] + SchemeSeparator + parts[1];
        parts[1]
      else node.providerID
    else node.name
  }

  lemma SeparatorHeadUnique()
    ensures HeadUnique(SchemeSeparator)
  {
  }

  /** `scheme://id` resolves to `id`. */
  lemma ProviderIDStripsScheme(name: string, scheme: string, id: string, addrs: seq<NodeAddress>)
    requires !Contains(scheme, SchemeSeparator) && !Contains(id, SchemeSeparator)
    ensures GetProviderID(Node(name, scheme + SchemeSeparator + id, addrs)) == id
  {
    SeparatorHeadUnique();
    SplitOnce(scheme, SchemeSeparator, id);
  }

  /** A provider ID with no scheme is used as it is. */
  lemma ProviderIDWithoutScheme(name: string, pid: string, addrs: seq<NodeAddress>)
    requires pid != "" && !Contains(pid, SchemeSeparator)
    ensures GetProviderID(Node(name, pid, addrs)) == pid
  {
  }

  /** A provider ID with two or more separators is used whole, separators included. */
  lemma ProviderIDNestedSchemesKept(name: string, a: string, b: string, c: string, addrs: seq<NodeAddress>)
    ensures var pid := a + SchemeSeparator + b + SchemeSeparator + c;
      GetProviderID(Node(name, pid, addrs)) == pid
  {
    SplitTwice(a, SchemeSeparator, b, c);
  }

  /** A provider ID that is only a scheme, such as `vcloud://`, resolves to the
      empty ID, which the queries below reject although spec.providerID is set. */
  lemma SchemeOnlyProviderIDIsEmpty(name: string, scheme: string, addrs: seq<NodeAddress>)
    requires !Contains(scheme, SchemeSeparator)
    ensures GetProviderID(Node(name, scheme + SchemeSeparator, addrs)) == ""
  {
    assert !Contains("", SchemeSeparator);
    ProviderIDStripsScheme(name, scheme, "", addrs);
    assert scheme + SchemeSeparator + "" == scheme + SchemeSeparator;
  }

  /** The three cases of the provider's tests. */
  lemma ProviderIDExamples(addrs: seq<NodeAddress>)
    ensures GetProviderID(Node("", "vcloud://instance-123", addrs)) == "instance-123"
    ensures GetProviderID(Node("", "instance-456", addrs)) == "instance-456"
    ensures GetProviderID(Node("node-789", "", addrs)) == "node-789"
  {
    AbsentHead("vcloud", SchemeSeparator);
    AbsentHead("instance-123", SchemeSeparator);
    AbsentHead("instance-456", SchemeSeparator);
    ProviderIDStripsScheme("", "vcloud", "instance-123", addrs);
    ExampleProviderID();
  }

  lemma ExampleProviderID()
    ensures "vcloud" + SchemeSeparator + "instance-123" == "vcloud://instance-123"
  {
  }

  // ---------------------------------------------------------------------------
  // isInstanceShutdown
  // ---------------------------------------------------------------------------

  const ShutdownStates: map<string, bool> := map[
    "POWERED_OFF" := true,
    "SUSPENDED" := true,
    "TERMINATED" := true,
    "BACKUP" := true,
    "BACKUP_POWEROFF" := true]

  /** A lookup in the state table, absent states reading as false. The match is
      exact: case matters. */
  function IsInstanceShutdown(state: string): (r: bool)
    ensures r <==> state in {"POWERED_OFF", "SUSPENDED", "TERMINATED", "BACKUP", "BACKUP_POWEROFF"}
  {
    state in ShutdownStates && ShutdownStates[state]
  }

  // ---------------------------------------------------------------------------
  // GetInstanceInfo
  // ---------------------------------------------------------------------------

  function InstancePath(id: string): string {
    "/instances/" + id
  }

  /** The metadata built for an instance that exists. */
  function MetadataOf(id: string, inst: Instance): (md: Api.InstanceMetadata)
    // the instance type and its label come from the flavour, not the `type` field
    ensures md.providerID == id
    ensures md.instanceType == inst.metadata.flavor
    ensures md.zone == inst.zone && md.region == inst.metadata.cluster.tenant
    ensures md.nodeAddresses == [NodeAddress(InternalIP, inst.metadata.ip)]
    ensures md.additionalLabels.Keys == {InstanceTypeLabel, ClusterIDLabel}
    ensures md.additionalLabels[InstanceTypeLabel] == md.instanceType
    ensures md.additionalLabels[ClusterIDLabel] == inst.metadata.cluster.id
  {
    Api.InstanceMetadata(
      id,
      inst.metadata.flavor,
      inst.zone,
      inst.metadata.cluster.tenant,
      [NodeAddress(InternalIP, inst.metadata.ip)],
      map[InstanceTypeLabel := inst.metadata.flavor, ClusterIDLabel := inst.metadata.cluster.id])
  }

  /** An answer as GetInstanceInfo builds it: an instance that exists carries
      its metadata and raw record, one that does not is all zero. */
  predicate Consistent(id: string, info: InstanceInfo) {
    if info.present then
      info.metadata.Some? && info.raw.Some? && info.metadata.value.providerID == id
    else
      info == Absent
  }

  /** GetInstanceInfo, given what Request returned for GET /instances/<id>; the
      body is the decoded JSON, None when decoding fails. */
  function GetInstanceInfo(id: string, res: Result<Response<Option<Instance>>>): (r: Result<InstanceInfo>)
    ensures res.Err? ==> r == Err(InstanceRequestFailed(id, res.error))
    // not found: a 404, or a 200 whose instance is terminated
    ensures r == Ok(Absent) <==>
      res.Ok? && (res.value.status == 404 ||
        (res.value.status == 200 && res.value.body.Some? && res.value.body.value.status == "terminated"))
    // found: a 200 with a decodable, non-terminated instance
    ensures r.Ok? && r.value.present <==>
      res.Ok? && res.value.status == 200 && res.value.body.Some? && res.value.body.value.status != "terminated"
    ensures r.Ok? && r.value.present ==>
      && r.value.raw == res.value.body
      && r.value.shutdown == IsInstanceShutdown(res.value.body.value.state)
      && r.value.metadata == Some(MetadataOf(id, res.value.body.value))
    // any other status is an error naming it
    ensures res.Ok? && res.value.status != 200 && res.value.status != 404 ==>
      r == Err(UnexpectedStatus(res.value.status))
    ensures r.Ok? ==> Consistent(id, r.value)
    ensures r.Err? ==> r.error != InstanceNotFound
  {
    match res
    case Err(e) => Err(InstanceRequestFailed(id, e))
    case Ok(resp) =>
      if resp.status == 404 then Ok(Absent)
      else if resp.status != 200 then Err(UnexpectedStatus(resp.status))
      else match resp.body
        case None => Err(DecodeFailed)
        case Some(inst) =>
          if inst.status == "terminated" then Ok(Absent)
          else Ok(InstanceInfo(true, IsInstanceShutdown(inst.state), Some(MetadataOf(id, inst)), Some(inst)))
  }

  /** The far side of a fetch: the decoded body of each response is an instance. */
  type InstanceBackend = Backend<Option<Instance>>

  /** The request GetInstanceInfo makes. */
  function FetchExchange(b: InstanceBackend, id: string): Exchange<Option<Instance>>
    requires Ready(b)
  {
    Send(b, "GET", InstancePath(id))
  }

  function FetchInstanceInfo(b: InstanceBackend, id: string): (r: Result<InstanceInfo>)
    requires Ready(b)
    ensures r.Ok? ==> Consistent(id, r.value)
  {
    GetInstanceInfo(id, FetchExchange(b, id).result)
  }

  /** Every request sent for instance `id` is a GET of `<base>/instances/<id>`. */
  lemma FetchTargetsInstance(b: InstanceBackend, id: string, k: int)
    requires Ready(b) && 0 <= k < |FetchExchange(b, id).sent|
    ensures var req := FetchExchange(b, id).sent[k];
      && req.verb == "GET"
      && req.url == RequestURL(b.p, "/instances/" + id)
      && HasSuffix(req.url, "/instances/" + id)
  {
    RequestURLShape(b.p, InstancePath(id));
  }

  /** A 404 reached after a transport error still reads as "does not exist". */
  lemma RetriedNotFoundIsAbsent(p: Provider, id: string, notFound: Response<Option<Instance>>,
                                 third: Attempt<Option<Instance>>)
    requires notFound.status == 404
    ensures FetchInstanceInfo(Backend(p, true, [TransportError, Responded(notFound), third]), id) == Ok(Absent)
  {
    var attempts := [TransportError, Responded(notFound), third];
    RequestStopsAtFirstFinal(p, "GET", InstancePath(id), attempts, 1);
  }

  /** Three server errors in a row surface as an unexpected status, not a
      transport error. */
  lemma PersistentServerErrorIsUnexpectedStatus(b: InstanceBackend, id: string)
    requires Ready(b) && b.buildOk
    requires forall j :: 0 <= j < MaxRetries ==>
      b.attempts[j].Responded? && b.attempts[j].resp.status >= 500
    ensures FetchInstanceInfo(b, id) == Err(UnexpectedStatus(b.attempts[MaxRetries - 1].resp.status))
  {
    ServerErrorsExhaustRetries(b.p, "GET", InstancePath(id), b.attempts);
  }

  // ---------------------------------------------------------------------------
  // InstanceExists, InstanceShutdown, InstanceMetadata
  // ---------------------------------------------------------------------------

  /** A query's outcome: the cache afterwards, the answer, and whether the API
      was asked. */
  datatype Answer<T> = Answer(store: Store, result: Result<T>, fetched: bool)

  /** The part the three queries share: resolve the node's ID, reject an empty
      one, and look it up through the cache. */
  function Resolve(store: Store, node: Node, b: InstanceBackend, now: int, after: int): (a: Answer<InstanceInfo>)
    requires Ready(b)
    ensures GetProviderID(node) == "" ==> a == Answer(store, Err(EmptyProviderID(node.name)), false)
    ensures GetProviderID(node) != "" ==> (a.fetched <==> !Hit(store, GetProviderID(node), now))
    ensures !a.fetched && GetProviderID(node) != "" ==>
      a.store == store && a.result == Ok(store[GetProviderID(node)].info)
    ensures a.fetched ==> a.result == FetchInstanceInfo(b, GetProviderID(node))
  {
    var id := GetProviderID(node);
    if id == "" then Answer(store, Err(EmptyProviderID(node.name)), false)
    else
      var l := Get(store, id, now, FetchInstanceInfo(b, id), after);
      Answer(l.store, l.result, l.fetched)
  }

  /** Every cached answer is consistent with the ID it is stored under. */
  predicate StoreConsistent(store: Store) {
    forall k :: k in store ==> Consistent(k, store[k].info)
  }

  /** A cache lookup whose fetch gives consistent answers keeps the cache consistent. */
  lemma GetKeepsConsistent(store: Store, id: string, now: int, fetch: Result<InstanceInfo>, after: int)
    requires StoreConsistent(store)
    requires fetch.Ok? ==> Consistent(id, fetch.value)
    ensures var l := Get(store, id, now, fetch, after);
      && StoreConsistent(l.store)
      && (l.result.Ok? ==> Consistent(id, l.result.value))
      && (l.result.Err? ==> l.result == fetch)
  {
    var l := Get(store, id, now, fetch, after);
    forall k | k in l.store
      ensures Consistent(k, l.store[k].info)
    {
      if k != id {
        assert k in store && l.store[k] == store[k];
      } else if !l.fetched {
        assert l.store[k] == store[k];
      }
    }
  }

  /** Resolving keeps the cache consistent, and its answers are consistent and
      never "not found" as an error. */
  lemma ResolveConsistent(store: Store, node: Node, b: InstanceBackend, now: int, after: int)
    requires Ready(b) && StoreConsistent(store)
    ensures var a := Resolve(store, node, b, now, after);
      && StoreConsistent(a.store)
      && (a.result.Ok? ==> Consistent(GetProviderID(node), a.result.value))
      && (a.result.Err? ==> a.result.error != InstanceNotFound)
  {
    var id := GetProviderID(node);
    if id != "" {
      var fetch := FetchInstanceInfo(b, id);
      assert fetch.Err? ==> fetch.error != InstanceNotFound;
      GetKeepsConsistent(store, id, now, fetch, after);
    }
  }

  function InstanceExists(store: Store, node: Node, b: InstanceBackend, now: int, after: int): (a: Answer<bool>)
    requires Ready(b)
    ensures var r := Resolve(store, node, b, now, after);
      && a.store == r.store && a.fetched == r.fetched
      && (a.result.Err? <==> r.result.Err?)
      && (a.result.Err? ==> a.result.error == r.result.error)
      && (a.result == Ok(true) <==> r.result.Ok? && r.result.value.present)
  {
    var r := Resolve(store, node, b, now, after);
    match r.result
    case Err(e) => Answer(r.store, Err(e), r.fetched)
    case Ok(info) => Answer(r.store, Ok(info.present), r.fetched)
  }

  function InstanceShutdown(store: Store, node: Node, b: InstanceBackend, now: int, after: int): (a: Answer<bool>)
    requires Ready(b)
    ensures var r := Resolve(store, node, b, now, after);
      && a.store == r.store && a.fetched == r.fetched
      && (r.result.Err? ==> a.result == Err(r.result.error))
      && (r.result.Ok? && !r.result.value.present ==> a.result == Err(InstanceNotFound))
      && (r.result.Ok? && r.result.value.present ==> a.result == Ok(r.result.value.shutdown))
      && (a.result == Ok(true) <==> r.result.Ok? && r.result.value.present && r.result.value.shutdown)
  {
    var r := Resolve(store, node, b, now, after);
    match r.result
    case Err(e) => Answer(r.store, Err(e), r.fetched)
    case Ok(info) =>
      if !info.present then Answer(r.store, Err(InstanceNotFound), r.fetched)
      else Answer(r.store, Ok(info.shutdown), r.fetched)
  }

  function InstanceMetadata(store: Store, node: Node, b: InstanceBackend, now: int, after: int)
    : (a: Answer<Option<Api.InstanceMetadata>>)
    requires Ready(b)
    ensures var r := Resolve(store, node, b, now, after);
      && a.store == r.store && a.fetched == r.fetched
      && (r.result.Err? ==> a.result == Err(r.result.error))
      && (r.result.Ok? && !r.result.value.present ==> a.result == Err(InstanceNotFound))
      && (r.result.Ok? && r.result.value.present ==> a.result == Ok(r.result.value.metadata))
  {
    var r := Resolve(store, node, b, now, after);
    match r.result
    case Err(e) => Answer(r.store, Err(e), r.fetched)
    case Ok(info) =>
      if !info.present then Answer(r.store, Err(InstanceNotFound), r.fetched)
      else Answer(r.store, Ok(info.metadata), r.fetched)
  }

  /** The three queries agree. Asked in the same state, they leave the same
      cache; the instance is reported missing by InstanceExists exactly when
      the other two answer "not found"; and when it exists, InstanceMetadata
      returns metadata naming the node's instance ID, never a nil one. */
  lemma QueriesAgree(store: Store, node: Node, b: InstanceBackend, now: int, after: int)
    requires Ready(b) && StoreConsistent(store)
    ensures var e := InstanceExists(store, node, b, now, after);
      var s := InstanceShutdown(store, node, b, now, after);
      var m := InstanceMetadata(store, node, b, now, after);
      && e.store == s.store == m.store
      && e.fetched == s.fetched == m.fetched
      && (e.result == Ok(false) <==> s.result == Err(InstanceNotFound))
      && (e.result == Ok(false) <==> m.result == Err(InstanceNotFound))
      && (e.result == Ok(true) <==> m.result.Ok?)
      && (m.result.Ok? ==> m.result.value.Some? && m.result.value.value.providerID == GetProviderID(node))
      && (e.result.Err? ==> s.result == e.result && m.result.Err? && m.result.error == e.result.error)
  {
    ResolveConsistent(store, node, b, now, after);
  }

  /** A node with no usable ID is rejected by every query without touching the
      cache or the API. */
  lemma EmptyIDRejected(store: Store, node: Node, b: InstanceBackend, now: int, after: int)
    requires Ready(b) && GetProviderID(node) == ""
    ensures InstanceExists(store, node, b, now, after) == Answer(store, Err(EmptyProviderID(node.name)), false)
    ensures InstanceShutdown(store, node, b, now, after) == Answer(store, Err(EmptyProviderID(node.name)), false)
    ensures InstanceMetadata(store, node, b, now, after) == Answer(store, Err(EmptyProviderID(node.name)), false)
  {
  }

  /** Once InstanceExists has fetched an instance that exists, InstanceMetadata
      for the same node within 30 seconds is answered from the cache, whatever
      the API would now say. */
  lemma MetadataServedFromCacheAfterExists(store: Store, node: Node, b: InstanceBackend, now: int, after: int,
                                           b2: InstanceBackend, later: int, after2: int)
    requires Ready(b) && Ready(b2)
    ensures var e := InstanceExists(store, node, b, now, after);
      e.fetched && e.result == Ok(true) && later - after <= InstanceCacheTTL ==>
        !InstanceMetadata(e.store, node, b2, later, after2).fetched
  {
    var id := GetProviderID(node);
    if id != "" && !Hit(store, id, now) && FetchInstanceInfo(b, id).Ok? {
      CachedAnswerServedWithinTTL(store, id, now, FetchInstanceInfo(b, id), after, later,
                                  FetchInstanceInfo(b2, id), after2);
    }
  }

}
