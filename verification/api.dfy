/** The data the provider exchanges: the Kubernetes objects it reads (nodes,
    services), the cloud-provider records it returns, and the vCloud API's
    instance record. Only the fields the provider touches are kept. */
module Api {
  import opened Common

  /** Go's int32, used for port numbers. */
  type Int32 = x: int | -0x8000_0000 <= x < 0x8000_0000

  // ---------------------------------------------------------------------------
  // Kubernetes core/v1
  // ---------------------------------------------------------------------------

  datatype NodeAddressType = InternalIP | ExternalIP | Hostname | InternalDNS | ExternalDNS

  datatype NodeAddress = NodeAddress(kind: NodeAddressType, address: string)

  /** A node: its name, its declared spec.providerID, and status.addresses. */
  datatype Node = Node(name: string, providerID: string, addresses: seq<NodeAddress>)

  /** A service port; `targetPort` is the text `intstr.IntOrString.String()` gives,
      `appProtocol` is the optional, nil-able field. */
  datatype ServicePort = ServicePort(
    name: string,
    protocol: string,
    port: Int32,
    targetPort: string,
    nodePort: Int32,
    appProtocol: Option<string>)

  datatype Service = Service(
    name: string,
    namespace: string,
    uid: string,
    serviceType: string,
    ports: seq<ServicePort>)

  datatype LoadBalancerIngress = LoadBalancerIngress(ip: string)

  // ---------------------------------------------------------------------------
  // cloudprovider.InstanceMetadata
  // ---------------------------------------------------------------------------

  datatype InstanceMetadata = InstanceMetadata(
    providerID: string,
    instanceType: string,
    zone: string,
    region: string,
    nodeAddresses: seq<NodeAddress>,
    additionalLabels: map<string, string>)

  // ---------------------------------------------------------------------------
  // vCloud API records (instances.go)
  // ---------------------------------------------------------------------------

  datatype ClusterRef = ClusterRef(id: string, zone: string, tenant: string)

  datatype Resources = Resources(cores: int, memory: int, volumes: int)

  datatype InstanceDetails = InstanceDetails(
    ip: string,
    flavor: string,
    cluster: ClusterRef,
    resources: Resources)

  /** An instance as the API's JSON describes it. */
  datatype Instance = Instance(
    name: string,
    id: string,
    uid: string,
    instanceType: string,
    zone: string,
    status: string,
    state: string,
    owned: bool,
    metadata: InstanceDetails)

  /** What the provider learns about one instance (Go's InstanceInfo; `present`
      is its `Exists` field); `metadata` and `raw` are the nil-able references. */
  datatype InstanceInfo = InstanceInfo(
    present: bool,
    shutdown: bool,
    metadata: Option<InstanceMetadata>,
    raw: Option<Instance>)

  /** The record for an instance that does not exist: every other field is zero. */
  const Absent := InstanceInfo(false, false, None, None)
}
