/** The load balancer (loadbalancer.go): the name a service's load balancer
    gets, the request body built from a service and its nodes, and how each
    of the four operations reads the API's answer. */
module LoadBalancer {
  import opened Common
  import opened Text
  import opened Api
  import opened VCloud

  // ---------------------------------------------------------------------------
  // GetLoadBalancerName
  // ---------------------------------------------------------------------------

  /** The first `-`-separated field of a service UID (for a UUID, its first
      eight hex digits). */
  function UIDPrefix(uid: string): (prefix: string)
    ensures HasPrefix(uid, prefix) && !Contains(prefix, "-")
    ensures prefix == uid || HasPrefix(uid, prefix + "-")
  {
    var parts := Split(uid, "-");
    if |parts| == 1 then parts[0]
    else
      assert uid == parts[0] + "-" + Join(parts[1..], "-");
      assert uid[..|parts[0]| + 1] == parts[0] + "-";
      parts[0]
  }

  /** `a-rest` with no `-` inside `a` has prefix `a`. */
  lemma UIDPrefixOf(a: string, rest: string)
    requires !Contains(a, "-")
    ensures UIDPrefix(a + "-" + rest) == a
  {
    var uid := a + "-" + rest;
    IndexAfterFreePrefix(a, "-", rest);
    assert uid[..|a|] == a;
  }

  /** `<provider cluster name>-ingress-<uid prefix>-<service name>`. The
      clusterName argument of the interface is not used: the name always
      carries the cluster name from the provider's configuration. */
  function GetLoadBalancerName(p: Provider, clusterName: string, svc: Service): (name: string)
  {
    p.clusterName + "-ingress-" + UIDPrefix(svc.uid) + "-" + svc.name
  }

  /** The name is the four parts joined, whatever cluster name is passed in. */
  lemma LoadBalancerNameShape(p: Provider, clusterName: string, svc: Service)
    ensures var name := GetLoadBalancerName(p, clusterName, svc);
      && HasPrefix(name, p.clusterName + "-ingress-")
      && HasSuffix(name, "-" + svc.name)
      && name == GetLoadBalancerName(p, "", svc)
  {
    var name := GetLoadBalancerName(p, clusterName, svc);
    var head := p.clusterName + "-ingress-";
    assert name == head + (UIDPrefix(svc.uid) + "-" + svc.name);
    assert name == (head + UIDPrefix(svc.uid)) + ("-" + svc.name);
  }

  /** `a-x` with no `-` in `a` is cut back into `a` and `x` in only one way. */
  lemma CutAtFirstDash(a: string, x: string, c: string, y: string)
    requires !Contains(a, "-") && !Contains(c, "-")
    requires a + "-" + x == c + "-" + y
    ensures a == c && x == y
  {
    IndexAfterFreePrefix(a, "-", x);
    IndexAfterFreePrefix(c, "-", y);
    var t := a + "-" + x;
    assert a == t[..|a|] && x == t[|a| + 1..];
    assert c == t[..|c|] && y == t[|c| + 1..];
  }

  /** Within one provider the name determines the service's UID prefix and its
      name: services that differ in either get different load balancers. */
  lemma LoadBalancerNameInjective(p: Provider, c1: string, c2: string, s1: Service, s2: Service)
    requires GetLoadBalancerName(p, c1, s1) == GetLoadBalancerName(p, c2, s2)
    ensures UIDPrefix(s1.uid) == UIDPrefix(s2.uid) && s1.name == s2.name
  {
    var head := p.clusterName + "-ingress-";
    var a1, a2 := UIDPrefix(s1.uid), UIDPrefix(s2.uid);
    var t1, t2 := a1 + "-" + s1.name, a2 + "-" + s2.name;
    var n1, n2 := GetLoadBalancerName(p, c1, s1), GetLoadBalancerName(p, c2, s2);
    assert n1 == head + t1;
    assert n2 == head + t2;
    assert t1 == n1[|head|..];
    assert t2 == n2[|head|..];
    CutAtFirstDash(a1, s1.name, a2, s2.name);
  }

  lemma ExampleStrings()
    ensures "abc123" + "-" + "def456-ghi789" == "abc123-def456-ghi789"
    ensures "test-cluster" + "-ingress-" + "abc123" + "-" + "test-service" == "test-cluster-ingress-abc123-test-service"
  {
  }

  /** The example of the provider's tests: the provider's cluster name wins over
      the argument, and the UID is cut at its first `-`. */
  lemma LoadBalancerNameExample(p: Provider, svc: Service)
    requires p.clusterName == "test-cluster"
    requires svc.uid == "abc123-def456-ghi789" && svc.name == "test-service"
    ensures GetLoadBalancerName(p, "cluster", svc) == "test-cluster-ingress-abc123-test-service"
  {
    AbsentHead("abc123", "-");
    UIDPrefixOf("abc123", "def456-ghi789");
    ExampleStrings();
  }

  /** Two services whose UIDs share the first field and which have the same
      name, in different namespaces say, share a load balancer. */
  lemma SharedUIDPrefixSharesName(p: Provider, a: string, r1: string, r2: string, s1: Service, s2: Service)
    requires !Contains(a, "-") && s1.uid == a + "-" + r1 && s2.uid == a + "-" + r2 && s1.name == s2.name
    ensures GetLoadBalancerName(p, "", s1) == GetLoadBalancerName(p, "", s2)
  {
    UIDPrefixOf(a, r1);
    UIDPrefixOf(a, r2);
  }

  // ---------------------------------------------------------------------------
  // buildLoadBalancerRequest
  // ---------------------------------------------------------------------------

  /** LoadBalancerPort; a NodePort of 0 and an empty AppProtocol are the values
      the JSON encoding leaves out. */
  datatype Port = Port(
    name: string,
    port: Int32,
    targetPort: string,
    protocol: string,
    nodePort: Int32,
    appProtocol: string)

  datatype LoadBalancerRequest = LoadBalancerRequest(
    name: string,
    ports: seq<Port>,
    nodes: seq<string>,
    namespace: string,
    lbType: string)

  /** The address of a node's first InternalIP entry, if it has one. */
  function FirstInternalIP(addrs: seq<NodeAddress>): (ip: Option<string>)
    ensures ip.None? <==> forall i :: 0 <= i < |addrs| ==> addrs[i].kind != InternalIP
    ensures ip.Some? ==> exists i :: 0 <= i < |addrs| && addrs[i] == NodeAddress(InternalIP, ip.value)
  {
    if |addrs| == 0 then None
    else if addrs[0].kind == InternalIP then Some(addrs[0].address)
    else FirstInternalIP(addrs[1..])
  }

  /** Entries before the first InternalIP are skipped and later ones ignored. */
  lemma {:induction false} FirstInternalIPIsFirst(addrs: seq<NodeAddress>, i: nat)
    requires i < |addrs| && addrs[i].kind == InternalIP
    requires forall j :: 0 <= j < i ==> addrs[j].kind != InternalIP
    ensures FirstInternalIP(addrs) == Some(addrs[i].address)
  {
    if i > 0 {
      FirstInternalIPIsFirst(addrs[1..], i - 1);
    }
  }

  /** One address per node that has an InternalIP, in node order; nodes without
      one contribute nothing. */
  function NodeIPs(nodes: seq<Node>): (ips: seq<string>)
    ensures |ips| <= |nodes|
    ensures (forall i :: 0 <= i < |nodes| ==> FirstInternalIP(nodes[i].addresses).Some?) ==> |ips| == |nodes|
  {
    if |nodes| == 0 then []
    else
      match FirstInternalIP(nodes[0].addresses)
      case Some(ip) => [ip] + NodeIPs(nodes[1..])
      case None => NodeIPs(nodes[1..])
  }

  /** Collecting over a concatenation collects over each part. */
  lemma {:induction false} NodeIPsAppend(a: seq<Node>, b: seq<Node>)
    ensures NodeIPs(a + b) == NodeIPs(a) + NodeIPs(b)
  {
    if |a| == 0 {
      assert a + b == b;
    } else {
      assert (a + b)[0] == a[0];
      assert (a + b)[1..] == a[1..] + b;
      NodeIPsAppend(a[1..], b);
    }
  }

  /** Every node that has an InternalIP contributes its first one, at its place. */
  lemma {:induction false} NodeIPsAllInternal(nodes: seq<Node>)
    requires forall i :: 0 <= i < |nodes| ==> FirstInternalIP(nodes[i].addresses).Some?
    ensures forall i :: 0 <= i < |nodes| ==> NodeIPs(nodes)[i] == FirstInternalIP(nodes[i].addresses).value
  {
    if |nodes| > 0 {
      NodeIPsAllInternal(nodes[1..]);
      forall i | 0 < i < |nodes|
        ensures NodeIPs(nodes)[i] == FirstInternalIP(nodes[i].addresses).value
      {
        assert nodes[1..][i - 1] == nodes[i];
      }
    }
  }

  /** The Go loops: for each node, scan its addresses and stop at the first
      InternalIP. */
  method CollectNodeIPs(nodes: seq<Node>) returns (ips: seq<string>)
    ensures ips == NodeIPs(nodes)
  {
    ips := [];
    var i := 0;
    while i < |nodes|
      invariant 0 <= i <= |nodes|
      invariant ips == NodeIPs(nodes[..i])
    {
      var addrs := nodes[i].addresses;
      var k := 0;
      var found: Option<string> := None;
      while k < |addrs| && found.None?
        invariant 0 <= k <= |addrs|
        invariant found.None? ==> FirstInternalIP(addrs) == FirstInternalIP(addrs[k..])
        invariant found.Some? ==> FirstInternalIP(addrs) == found
      {
        assert addrs[k..][1..] == addrs[k + 1..];
        if addrs[k].kind == InternalIP {
          found := Some(addrs[k].address);
        }
        k := k + 1;
      }
      assert nodes[..i + 1] == nodes[..i] + [nodes[i]];
      NodeIPsAppend(nodes[..i], [nodes[i]]);
      if found.Some? {
        ips := ips + [found.value];
      }
      i := i + 1;
    }
    assert nodes[..i] == nodes;
  }

  /** The port entry for one service port: its name, or `port-<number>` when it
      has none; the target port as text; the application protocol or empty. */
  function PortOf(sp: ServicePort): (r: Port)
    ensures r.name != ""
    ensures sp.name != "" ==> r.name == sp.name
    ensures r.port == sp.port && r.nodePort == sp.nodePort
    ensures r.targetPort == sp.targetPort && r.protocol == sp.protocol
    ensures sp.appProtocol.Some? ==> r.appProtocol == sp.appProtocol.value
    ensures sp.appProtocol.None? ==> r.appProtocol == ""
  {
    var name := if sp.name == "" then "port-" + FormatInt(sp.port) else sp.name;
    var app := match sp.appProtocol case Some(a) => a case None => "";
    Port(name, sp.port, sp.targetPort, sp.protocol, sp.nodePort, app)
  }

  /** Unnamed ports get the same generated name exactly when their numbers are equal. */
  lemma GeneratedNamesDistinct(a: ServicePort, b: ServicePort)
    requires a.name == "" && b.name == ""
    ensures PortOf(a).name == PortOf(b).name <==> a.port == b.port
  {
    FormatIntInjective(a.port, b.port);
    if PortOf(a).name == PortOf(b).name {
      var pre := "port-";
      assert FormatInt(a.port) == PortOf(a).name[|pre|..];
      assert FormatInt(b.port) == PortOf(b).name[|pre|..];
    }
  }

  /** An unnamed port 443 is called `port-443`. */
  lemma GeneratedNameExample(sp: ServicePort)
    requires sp.name == "" && sp.port == 443
    ensures PortOf(sp).name == "port-443"
  {
    assert NatToDecimal(443) == "443";
  }

  /** buildLoadBalancerRequest */
  method BuildLoadBalancerRequest(name: string, svc: Service, nodes: seq<Node>) returns (req: LoadBalancerRequest)
    ensures req.name == name && req.namespace == svc.namespace && req.lbType == svc.serviceType
    ensures |req.ports| == |svc.ports|
    ensures forall i :: 0 <= i < |svc.ports| ==> req.ports[i] == PortOf(svc.ports[i])
    ensures req.nodes == NodeIPs(nodes)
  {
    var ips := CollectNodeIPs(nodes);
    var ports: seq<Port> := [];
    var i := 0;
    while i < |svc.ports|
      invariant 0 <= i <= |svc.ports|
      invariant |ports| == i
      invariant forall j :: 0 <= j < i ==> ports[j] == PortOf(svc.ports[j])
    {
      ports := ports + [PortOf(svc.ports[i])];
      i := i + 1;
    }
    req := LoadBalancerRequest(name, ports, ips, svc.namespace, svc.serviceType);
  }

  // ---------------------------------------------------------------------------
  // Reading the API's answers
  // ---------------------------------------------------------------------------

  datatype LoadBalancerStatus = LoadBalancerStatus(ingress: seq<LoadBalancerIngress>)

  /** A response body decodes to the list of ingress IPs; None when decoding fails. */
  type IngressBody = Option<seq<string>>

  type IngressBackend = Backend<IngressBody>

  /** One ingress entry per IP, in the order the API lists them. */
  function StatusOf(ips: seq<string>): (st: LoadBalancerStatus)
    ensures |st.ingress| == |ips|
    ensures forall i :: 0 <= i < |ips| ==> st.ingress[i] == LoadBalancerIngress(ips[i])
  {
    LoadBalancerStatus(seq(|ips|, i requires 0 <= i < |ips| => LoadBalancerIngress(ips[i])))
  }

  function IngressIPs(st: LoadBalancerStatus): seq<string> {
    seq(|st.ingress|, i requires 0 <= i < |st.ingress| => st.ingress[i].ip)
  }

  /** The status carries the API's addresses unchanged and in order. */
  lemma StatusRoundTrip(ips: seq<string>)
    ensures IngressIPs(StatusOf(ips)) == ips
  {
  }

  /** GetLoadBalancer's reading: Ok(None) is "does not exist" (exists = false,
      status nil), Ok(Some(status)) is "exists". */
  function ReadGet(name: string, res: Result<Response<IngressBody>>): (r: Result<Option<LoadBalancerStatus>>)
    ensures res.Err? ==> r == Err(GetLoadBalancerFailed(name, res.error))
    ensures r == Ok(None) <==> res.Ok? && res.value.status == 404
    ensures r.Ok? && r.value.Some? <==> res.Ok? && res.value.status == 200 && res.value.body.Some?
    ensures r.Ok? && r.value.Some? ==> IngressIPs(r.value.value) == res.value.body.value
    ensures res.Ok? && res.value.status != 200 && res.value.status != 404 ==> r == Err(UnexpectedStatus(res.value.status))
  {
    match res
    case Err(e) => Err(GetLoadBalancerFailed(name, e))
    case Ok(resp) =>
      if resp.status == 404 then Ok(None)
      else if resp.status != 200 then Err(UnexpectedStatus(resp.status))
      else match resp.body
        case None => Err(DecodeFailed)
        case Some(ips) => StatusRoundTrip(ips); Ok(Some(StatusOf(ips)))
  }

  /** EnsureLoadBalancer's reading: 200 and 201 are accepted. */
  function ReadEnsure(res: Result<Response<IngressBody>>): (r: Result<LoadBalancerStatus>)
    ensures res.Err? ==> r == Err(EnsureLoadBalancerFailed(res.error))
    ensures r.Ok? <==> res.Ok? && (res.value.status == 200 || res.value.status == 201) && res.value.body.Some?
    ensures r.Ok? ==> IngressIPs(r.value) == res.value.body.value
    ensures res.Ok? && res.value.status != 200 && res.value.status != 201 ==> r == Err(UnexpectedStatus(res.value.status))
  {
    match res
    case Err(e) => Err(EnsureLoadBalancerFailed(e))
    case Ok(resp) =>
      if resp.status != 200 && resp.status != 201 then Err(UnexpectedStatus(resp.status))
      else match resp.body
        case None => Err(DecodeFailed)
        case Some(ips) => StatusRoundTrip(ips); Ok(StatusOf(ips))
  }

  /** UpdateLoadBalancer's reading: only 200 is success; the body is not read. */
  function ReadUpdate<B>(res: Result<Response<B>>): (err: Option<Error>)
    ensures err.None? <==> res.Ok? && res.value.status == 200
    ensures res.Err? ==> err == Some(UpdateLoadBalancerFailed(res.error))
    ensures res.Ok? && res.value.status != 200 ==> err == Some(UnexpectedStatus(res.value.status))
  {
    match res
    case Err(e) => Some(UpdateLoadBalancerFailed(e))
    case Ok(resp) => if resp.status != 200 then Some(UnexpectedStatus(resp.status)) else None
  }

  /** EnsureLoadBalancerDeleted's reading: 200 and 404 (already gone) are success. */
  function ReadDelete<B>(res: Result<Response<B>>): (err: Option<Error>)
    ensures err.None? <==> res.Ok? && (res.value.status == 200 || res.value.status == 404)
    ensures res.Err? ==> err == Some(DeleteLoadBalancerFailed(res.error))
    ensures res.Ok? && res.value.status != 200 && res.value.status != 404 ==>
      err == Some(UnexpectedStatus(res.value.status))
  {
    match res
    case Err(e) => Some(DeleteLoadBalancerFailed(e))
    case Ok(resp) =>
      if resp.status == 404 then None
      else if resp.status != 200 then Some(UnexpectedStatus(resp.status))
      else None
  }

  /** A 404 means "not there" to every reader that looks at it: Get reports the
      load balancer missing, Delete counts it as done, and Update and Ensure
      fail on it. */
  lemma NotFoundReadings(name: string, res: Result<Response<IngressBody>>)
    requires res.Ok? && res.value.status == 404
    ensures ReadGet(name, res) == Ok(None)
    ensures ReadDelete(res) == None
    ensures ReadUpdate(res) == Some(UnexpectedStatus(404))
    ensures ReadEnsure(res) == Err(UnexpectedStatus(404))
  {
  }

  /** Ensure accepts every decodable answer Update accepts, and also 201. */
  lemma EnsureMoreLenientThanUpdate(res: Result<Response<IngressBody>>)
    requires res.Ok? && res.value.body.Some?
    ensures ReadUpdate(res).None? ==> ReadEnsure(res).Ok?
    ensures res.value.status == 201 ==> ReadEnsure(res).Ok? && ReadUpdate(res).Some?
  {
  }

  // ---------------------------------------------------------------------------
  // The four operations
  // ---------------------------------------------------------------------------

  function IngressPath(name: string): string {
    "/ingresses/" + name
  }

  /** GetLoadBalancer: GET /ingresses/<name>. */
  function GetLoadBalancer(b: IngressBackend, clusterName: string, svc: Service): (r: Result<Option<LoadBalancerStatus>>)
    requires Ready(b)
    ensures !b.buildOk ==> r == Err(GetLoadBalancerFailed(GetLoadBalancerName(b.p, clusterName, svc), RequestBuildFailed))
  {
    var name := GetLoadBalancerName(b.p, clusterName, svc);
    ReadGet(name, Send(b, "GET", IngressPath(name)).result)
  }

  /** The outcome of an operation that sends a body: the body, the exchange,
      and the answer. */
  datatype Posted<T> = Posted(payload: LoadBalancerRequest, exchange: Exchange<IngressBody>, result: T)

  /** EnsureLoadBalancer: POST /ingresses with the built request. */
  method EnsureLoadBalancer(b: IngressBackend, clusterName: string, svc: Service, nodes: seq<Node>)
    returns (out: Posted<Result<LoadBalancerStatus>>)
    requires Ready(b)
    ensures out.payload.name == GetLoadBalancerName(b.p, clusterName, svc)
    ensures out.payload.namespace == svc.namespace && out.payload.lbType == svc.serviceType
    ensures out.payload.nodes == NodeIPs(nodes) && |out.payload.ports| == |svc.ports|
    ensures forall i :: 0 <= i < |svc.ports| ==> out.payload.ports[i] == PortOf(svc.ports[i])
    // the exchange is the retried POST the backend answers, read as Ensure reads it
    ensures out.exchange == Send(b, "POST", "/ingresses") && out.result == ReadEnsure(out.exchange.result)
    ensures forall k :: 0 <= k < |out.exchange.sent| ==>
      out.exchange.sent[k].verb == "POST" && out.exchange.sent[k].url == RequestURL(b.p, "/ingresses")
    ensures out.result.Ok? <==>
      out.exchange.result.Ok? && out.exchange.result.value.status in {200, 201} && out.exchange.result.value.body.Some?
  {
    var name := GetLoadBalancerName(b.p, clusterName, svc);
    var payload := BuildLoadBalancerRequest(name, svc, nodes);
    var x := Send(b, "POST", "/ingresses");
    out := Posted(payload, x, ReadEnsure(x.result));
  }

  /** UpdateLoadBalancer: PUT /ingresses/<name> with the built request. */
  method UpdateLoadBalancer(b: IngressBackend, clusterName: string, svc: Service, nodes: seq<Node>)
    returns (out: Posted<Option<Error>>)
    requires Ready(b)
    ensures out.payload.name == GetLoadBalancerName(b.p, clusterName, svc)
    ensures out.payload.namespace == svc.namespace && out.payload.lbType == svc.serviceType
    ensures out.payload.nodes == NodeIPs(nodes) && |out.payload.ports| == |svc.ports|
    ensures forall i :: 0 <= i < |svc.ports| ==> out.payload.ports[i] == PortOf(svc.ports[i])
    // the exchange is the retried PUT the backend answers, read as Update reads it
    ensures out.exchange == Send(b, "PUT", IngressPath(GetLoadBalancerName(b.p, clusterName, svc)))
    ensures out.result == ReadUpdate(out.exchange.result)
    ensures forall k :: 0 <= k < |out.exchange.sent| ==>
      && out.exchange.sent[k].verb == "PUT"
      && out.exchange.sent[k].url == RequestURL(b.p, IngressPath(GetLoadBalancerName(b.p, clusterName, svc)))
    ensures out.result.None? <==> out.exchange.result.Ok? && out.exchange.result.value.status == 200
  {
    var name := GetLoadBalancerName(b.p, clusterName, svc);
    var payload := BuildLoadBalancerRequest(name, svc, nodes);
    var x := Send(b, "PUT", IngressPath(name));
    out := Posted(payload, x, ReadUpdate(x.result));
  }

  /** EnsureLoadBalancerDeleted: DELETE /ingresses/<name>. */
  function EnsureLoadBalancerDeleted(b: IngressBackend, clusterName: string, svc: Service): (err: Option<Error>)
    requires Ready(b)
    ensures !b.buildOk ==> err == Some(DeleteLoadBalancerFailed(RequestBuildFailed))
  {
    var name := GetLoadBalancerName(b.p, clusterName, svc);
    ReadDelete(Send(b, "DELETE", IngressPath(name)).result)
  }

  /** Get, Update and Delete address the same resource: every request they
      send goes to `<base>/ingresses/<name>`. */
  lemma SameResourceAddressed(b: IngressBackend, clusterName: string, svc: Service, verb: string, k: int)
    requires Ready(b) && verb in {"GET", "PUT", "DELETE"}
    requires 0 <= k < |Send(b, verb, IngressPath(GetLoadBalancerName(b.p, clusterName, svc))).sent|
    ensures var url := Send(b, verb, IngressPath(GetLoadBalancerName(b.p, clusterName, svc))).sent[k].url;
      && url == RequestURL(b.p, "/ingresses/" + GetLoadBalancerName(b.p, clusterName, svc))
      && HasSuffix(url, "/ingresses/" + GetLoadBalancerName(b.p, clusterName, svc))
  {
    RequestURLShape(b.p, IngressPath(GetLoadBalancerName(b.p, clusterName, svc)));
  }

  /** Deleting a load balancer the API no longer has succeeds, even after a
      transport error on the first attempt. */
  lemma DeleteOfMissingSucceeds(p: Provider, clusterName: string, svc: Service,
                                gone: Response<IngressBody>, third: Attempt<IngressBody>)
    requires gone.status == 404
    ensures EnsureLoadBalancerDeleted(Backend(p, true, [TransportError, Responded(gone), third]), clusterName, svc) == None
  {
    var name := GetLoadBalancerName(p, clusterName, svc);
    RequestStopsAtFirstFinal(p, "DELETE", IngressPath(name), [TransportError, Responded(gone), third], 1);
  }
}
