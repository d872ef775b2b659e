# vCloud cloud provider — a Dafny model

This project models the core of the Kubernetes cloud provider for vCloud. It
covers five pieces:

- the provider object and its HTTP request policy: URL building, headers, and
  the three-attempt retry loop with linear back-off;
- the INI-style configuration reader and validator;
- the instance cache, with a time-to-live per entry, invalidation and a sweep
  of expired entries;
- instance resolution: from a node to its instance ID, from the API's answer to
  an `InstanceInfo`, and the `InstanceExists`, `InstanceShutdown` and
  `InstanceMetadata` queries served through the cache;
- the load balancer: its name, the request body built from a service and its
  nodes, and how each operation reads the API's status codes.

Everything is a pure function or a method over immutable values, with two
exceptions that become parameters. The clock is an integer count of
nanoseconds, like Go's `time.Duration`. The HTTP client is a sequence of
per-attempt outcomes, each a transport error or a response whose body is
already decoded (`None` when decoding fails). Sleeps are recorded in the result
instead of performed.

Modules, one per source file, plus shared helpers:

| file | module | models |
|---|---|---|
| common.dfy | Common | `Option`, `Result`, and the provider's error messages as an `Error` datatype |
| text.dfy | Text | the Go `strings` functions the provider relies on: `TrimSpace`, `Index`, `Split`, `EqualFold`, and `%d` formatting |
| api.dfy | Api | Kubernetes nodes and services, `InstanceMetadata`, the API's instance record, `InstanceInfo` |
| config.dfy | Config | `readConfig` as a fold over lines, and `validateConfig` |
| vcloud.dfy | VCloud | constants, `NewVCloudProvider`, URL construction, `Request` with retries |
| cache.dfy | Cache | `instanceCache`: `get`, `isExpired`, `cleanupOldEntriesLocked`, `invalidate`, `clear` |
| instances.dfy | Instances | `getProviderID`, `isInstanceShutdown`, `GetInstanceInfo`, the three InstancesV2 queries |
| loadbalancer.dfy | LoadBalancer | `GetLoadBalancerName`, `buildLoadBalancerRequest`, the four load-balancer operations |

## Model

| member | source | states |
|---|---|---|
| Text.TrimSpace | providers/vcloud/config.go:48 | the result starts and ends with a non-space character (unicode.IsSpace) or is empty |
| Text.TrimSpacePadded | providers/vcloud/config.go:48 | trimming `pre + core + post` with only spaces in `pre` and `post` and a trimmed `core` gives back exactly `core` |
| Text.TrimSpaceIdempotent | providers/vcloud/config.go:57 | trimming twice is trimming once, so the re-trim of a header's name changes nothing already trimmed |
| Text.Index | providers/vcloud/config.go:63-64 | finds a match exactly when the string contains the separator, and the position found is the first match |
| Text.Split | providers/vcloud/instances.go:150 | joining the parts back with the separator gives the input; no part contains the separator; there is one part exactly when the input has no separator; the first cut is at the leftmost occurrence |
| Text.SplitOnce | providers/vcloud/instances.go:150-151 | `a + sep + b` with no separator inside `a` or `b` splits into exactly `[a, b]` |
| Text.SplitTwice | providers/vcloud/instances.go:150-151 | a string with two separators splits into at least three parts |
| Text.DecimalRoundTrip | providers/vcloud/loadbalancer.go:249 | reading back the decimal digits of `n` gives `n` |
| Text.FormatIntInjective | providers/vcloud/loadbalancer.go:249 | `%d` gives the same text for two integers exactly when they are equal, negative numbers included |
| Config.Assign | providers/vcloud/config.go:72-81 | a recognised key overwrites its own field and no other; any other key leaves the configuration unchanged |
| Config.ReadConfig | providers/vcloud/config.go:38-90 | a nil reader is the "no config" error; a scanner error is the read error; otherwise the parse always succeeds |
| Config.ParseSnoc | providers/vcloud/config.go:47-83 | parsing one more line is one more step of the loop body on the state reached so far |
| Config.SkippedLineIsNoOp | providers/vcloud/config.go:48-53 | a blank line, or a line starting with `#` or `;` after trimming, changes neither the configuration nor the section |
| Config.HeaderSetsSection | providers/vcloud/config.go:56-60 | a `[name]` line leaves the configuration alone and enters the section exactly when the trimmed name equals "vCloud" ignoring case, whatever the earlier state |
| Config.OutsideSectionKeepsConfig | providers/vcloud/config.go:45-63 | outside a vCloud section no line changes the configuration |
| Config.AssignmentLine | providers/vcloud/config.go:63-81 | inside the section, `k = v` with a recognised trimmed key sets that key to the trimmed `v`, which may contain `=`, and keeps every other key |
| Config.FoldAgreesWithLastValue | providers/vcloud/config.go:45-83 | after any prefix of the lines, each recognised key holds the value of its last assignment made inside a vCloud section, or "" if there is none |
| Config.ReadConfigLastValueWins | providers/vcloud/config.go:38-90 | for a whole file read without error, each field is the last value assigned inside a vCloud section |
| Config.FirstEmpty | providers/vcloud/config.go:99-113 | reports the first key, in the given order, whose field is empty, or none when all are set |
| Config.ValidateConfig | providers/vcloud/config.go:93-126 | missing fields are reported in the order CLUSTER_ID, CLUSTER_NAME, MGMT_URL, PROVIDER_TOKEN; then the UUID check, then the URL check; nil exactly when all fields are set and both checks pass |
| VCloud.NewVCloudProvider | providers/vcloud/vcloud.go:63-90 | a read error and a validation error are returned wrapped; otherwise the provider carries the four configured fields, all non-empty, with a valid cluster ID and URL |
| VCloud.ConstructedProviderHasClusterID | providers/vcloud/vcloud.go:132-135 | every provider the constructor builds reports that it has a cluster ID |
| VCloud.RequestURLShape | providers/vcloud/vcloud.go:140-146 | the URL is the management URL unchanged when it already contains `/clusters/`, and management URL + `/clusters/` + cluster ID otherwise, followed by the path; it always names a cluster |
| VCloud.BaseURLIdempotent | providers/vcloud/vcloud.go:140-143 | the cluster segment is added at most once: a base URL used again as the management URL is kept as it is |
| VCloud.RetryFrom | providers/vcloud/vcloud.go:151-180 | between 1 and 3 attempts; every attempt but the last was a transport error or a 5xx; a stop before the third attempt is on a non-retryable outcome; the sleeps are 1s, 2s, … with one fewer sleep than attempts; the result is the last attempt's outcome |
| VCloud.Request | providers/vcloud/vcloud.go:138-183 | a request that cannot be built fails at once with no attempt; otherwise 1 to 3 attempts, each with the same method, URL and headers |
| VCloud.EveryAttemptAuthenticated | providers/vcloud/vcloud.go:157-159 | every attempt carries `X-Provider-Token` set to the provider token and `Content-Type: application/json` |
| VCloud.RequestStopsAtFirstFinal | providers/vcloud/vcloud.go:151-180 | the loop stops at the first attempt that is not retryable, or at the third; it returns that attempt's outcome after the sleeps 1s, …, k s |
| VCloud.NonServerErrorIsFinal | providers/vcloud/vcloud.go:172-179 | a response below 500, a 404 included, is returned on the attempt where it arrives |
| VCloud.TwoTransportErrorsThenSuccess | providers/vcloud/vcloud.go:161-179 | two transport errors and then a success give the success after sleeping 1s and then 2s |
| VCloud.TransportErrorsExhaustRetries | providers/vcloud/vcloud.go:161-169 | three transport errors give the transport error after three attempts |
| VCloud.ServerErrorsExhaustRetries | providers/vcloud/vcloud.go:172-179 | three 5xx responses give the last 5xx response with no error |
| Cache.CleanupOldEntries | providers/vcloud/cache.go:111-119 | the sweep keeps exactly the entries not expired at the given time, unchanged |
| Cache.Get | providers/vcloud/cache.go:50-103 | a fresh entry is returned with no fetch and no change; an elapsed time equal to the TTL is still fresh. Otherwise the fetch's answer is returned. A failed fetch leaves the map as it was, stale entry included. A successful one is stored at the current time with a TTL of 30s if the instance exists and 5s if not. No other entry is invented or altered. The sweep runs exactly when the map with the new entry holds more than 100 entries, and then removes exactly the entries expired at the time after the fetch |
| Cache.Invalidate | providers/vcloud/cache.go:122-127 | removes exactly the given ID and keeps every other entry |
| Cache.Clear | providers/vcloud/cache.go:131-136 | the map afterwards is empty |
| Cache.CachedAnswerServedWithinTTL | providers/vcloud/cache.go:58-92 | after a successful fetch, the next get of that ID is answered from the map, with the fetched info, exactly while the elapsed time is at most the TTL |
| Cache.FailedFetchNotCached | providers/vcloud/cache.go:63-75 | after a failed fetch the next get fetches again; the stale entry is never served |
| Cache.InvalidateForcesFetch | providers/vcloud/cache.go:122-127 | after invalidate the next get of that ID fetches |
| Cache.InvalidateIdempotent | providers/vcloud/cache.go:122-127 | invalidating twice is invalidating once |
| Cache.ClearForcesFetch | providers/vcloud/cache.go:131-136 | after clear every get fetches |
| Cache.FillAllKeys | providers/vcloud/cache.go:87-98 | successful gets of IDs into a map of fresh entries, staying at or below 100 entries, leave exactly the old keys plus those IDs, all fresh |
| Instances.GetProviderID | providers/vcloud/instances.go:147-162 | an empty provider ID falls back to the node name; otherwise the result is a suffix of the provider ID |
| Instances.ProviderIDStripsScheme | providers/vcloud/instances.go:150-154 | `scheme://id` with one separator resolves to `id` |
| Instances.ProviderIDWithoutScheme | providers/vcloud/instances.go:155-156 | a non-empty provider ID without `://` is used as it is |
| Instances.ProviderIDNestedSchemesKept | providers/vcloud/instances.go:150-156 | a provider ID with two or more `://` is used whole |
| Instances.SchemeOnlyProviderIDIsEmpty | providers/vcloud/instances.go:150-154 | a provider ID that is only a scheme, like `vcloud://`, resolves to the empty ID |
| Instances.ProviderIDExamples | providers/vcloud/vcloud_test.go:162-188 | `vcloud://instance-123` gives `instance-123`, `instance-456` is kept, and an unset provider ID gives the node name |
| Instances.IsInstanceShutdown | providers/vcloud/instances.go:246-256 | true exactly for POWERED_OFF, SUSPENDED, TERMINATED, BACKUP and BACKUP_POWEROFF, compared case-sensitively |
| Instances.MetadataOf | providers/vcloud/instances.go:218-235 | provider ID is the instance ID; the instance type is the flavour; the zone is the zone; the region is the tenant; there is exactly one InternalIP address; there are exactly two labels, instance type → flavour and cluster ID → cluster ID |
| Instances.GetInstanceInfo | providers/vcloud/instances.go:165-243 | a request error is wrapped with the ID. A 404, or a 200 whose instance is terminated, means "does not exist" with no error. Exists exactly for a 200 with a decodable, non-terminated instance, and then shutdown follows the state table and the metadata follows the mapping. Any other status is an error naming it; undecodable bodies fail |
| Instances.FetchTargetsInstance | providers/vcloud/instances.go:166-169 | every request made for an instance is a GET of the base URL followed by `/instances/<id>` |
| Instances.RetriedNotFoundIsAbsent | providers/vcloud/instances.go:169-182 | a 404 reached after a transport error still reads as "does not exist" |
| Instances.PersistentServerErrorIsUnexpectedStatus | providers/vcloud/instances.go:169-188 | three 5xx responses in a row surface as an unexpected-status error, not as a request error |
| Instances.Resolve | providers/vcloud/instances.go:81-92 | an empty derived ID is an error before any cache lookup, with no fetch. Otherwise the API is asked exactly when the cache has no fresh entry for the ID. A cached answer leaves the cache as it was; a fetched answer is the API's |
| Instances.GetKeepsConsistent | providers/vcloud/cache.go:87-92 | a cache lookup whose fetch builds answers the way GetInstanceInfo does keeps every cached answer consistent with its ID |
| Instances.ResolveConsistent | providers/vcloud/instances.go:81-92 | the cache stays consistent, and the lookup never fails with "instance not found" |
| Instances.InstanceExists | providers/vcloud/instances.go:80-96 | errors pass through; otherwise the answer is whether the instance exists, with no error for a missing one |
| Instances.InstanceShutdown | providers/vcloud/instances.go:99-120 | errors pass through; a missing instance is "instance not found"; otherwise the answer is the shutdown flag |
| Instances.InstanceMetadata | providers/vcloud/instances.go:123-144 | errors pass through; a missing instance is "instance not found"; otherwise the answer is the metadata |
| Instances.QueriesAgree | providers/vcloud/instances.go:80-144 | asked in the same state, the three queries leave the same cache. InstanceExists answers false exactly when the other two answer "instance not found". When the instance exists, InstanceMetadata returns non-nil metadata naming the node's instance ID |
| Instances.EmptyIDRejected | providers/vcloud/instances.go:80-129 | a node with no usable ID is rejected by all three queries with the cache untouched and no fetch |
| Instances.MetadataServedFromCacheAfterExists | providers/vcloud/instances.go:88-131 | within 30 seconds of InstanceExists finding an instance, InstanceMetadata for the node is answered from the cache |
| LoadBalancer.UIDPrefix | providers/vcloud/loadbalancer.go:116-117 | the prefix is a `-`-free prefix of the UID, followed in the UID by `-` unless it is the whole UID |
| LoadBalancer.UIDPrefixOf | providers/vcloud/loadbalancer.go:116-117 | `a-rest` with no `-` in `a` has prefix `a` |
| LoadBalancer.LoadBalancerNameShape | providers/vcloud/loadbalancer.go:114-119 | the name starts with the provider's cluster name and `-ingress-`, ends with `-` and the service name, and does not depend on the clusterName argument |
| LoadBalancer.LoadBalancerNameInjective | providers/vcloud/loadbalancer.go:114-119 | under one provider, equal names mean equal UID prefixes and equal service names |
| LoadBalancer.LoadBalancerNameExample | providers/vcloud/vcloud_test.go:227-243 | a provider named `test-cluster` and service `test-service` with UID `abc123-def456-ghi789` give `test-cluster-ingress-abc123-test-service` |
| LoadBalancer.SharedUIDPrefixSharesName | providers/vcloud/loadbalancer.go:116-118 | two services with the same name whose UIDs share the first field get the same load balancer name |
| LoadBalancer.FirstInternalIP | providers/vcloud/loadbalancer.go:228-233 | none exactly when the node has no InternalIP entry; otherwise an InternalIP address the node lists |
| LoadBalancer.FirstInternalIPIsFirst | providers/vcloud/loadbalancer.go:228-233 | the address chosen is that of the first InternalIP entry |
| LoadBalancer.NodeIPs | providers/vcloud/loadbalancer.go:226-234 | at most one address per node, and exactly one per node when every node has an InternalIP |
| LoadBalancer.NodeIPsAppend | providers/vcloud/loadbalancer.go:227-234 | the addresses of a concatenation of node lists are the concatenation of their addresses, so node order is kept |
| LoadBalancer.NodeIPsAllInternal | providers/vcloud/loadbalancer.go:227-234 | when every node has an InternalIP, the i-th address is the i-th node's first one |
| LoadBalancer.CollectNodeIPs | providers/vcloud/loadbalancer.go:226-234 | the nested loop with its early exit computes the same list |
| LoadBalancer.PortOf | providers/vcloud/loadbalancer.go:239-257 | the name is never empty: the service port's name when it has one, generated otherwise; port, node port, protocol and target port are copied; the app protocol is copied when present and empty otherwise |
| LoadBalancer.GeneratedNamesDistinct | providers/vcloud/loadbalancer.go:247-250 | two unnamed ports get the same generated name exactly when their port numbers are equal |
| LoadBalancer.GeneratedNameExample | providers/vcloud/vcloud_test.go:331-333 | an unnamed port 443 is called `port-443` |
| LoadBalancer.BuildLoadBalancerRequest | providers/vcloud/loadbalancer.go:224-267 | name, namespace and type are copied; one port entry per service port, in order; the nodes are the collected InternalIP addresses |
| LoadBalancer.StatusOf | providers/vcloud/loadbalancer.go:103-108 | one ingress entry per IP, in the order given |
| LoadBalancer.StatusRoundTrip | providers/vcloud/loadbalancer.go:103-108 | the status carries the API's IP list back unchanged |
| LoadBalancer.ReadGet | providers/vcloud/loadbalancer.go:79-110 | a request error is wrapped with the name; "does not exist" exactly on 404; "exists" exactly on 200 with a decodable body, with the ingress IPs in response order; any other status is an error naming it |
| LoadBalancer.ReadEnsure | providers/vcloud/loadbalancer.go:136-162 | success exactly on 200 or 201 with a decodable body, with the ingress IPs in order; any other status is an error naming it |
| LoadBalancer.ReadUpdate | providers/vcloud/loadbalancer.go:181-193 | success exactly on 200; any other status is an error naming it |
| LoadBalancer.ReadDelete | providers/vcloud/loadbalancer.go:202-220 | success exactly on 200 or 404; any other status is an error naming it |
| LoadBalancer.NotFoundReadings | providers/vcloud/loadbalancer.go:86-217 | a 404 is "does not exist" to Get and success to Delete, and an error to Update and Ensure |
| LoadBalancer.EnsureMoreLenientThanUpdate | providers/vcloud/loadbalancer.go:142-187 | every answer Update accepts, Ensure accepts too when the body decodes; a 201 is accepted by Ensure only |
| LoadBalancer.GetLoadBalancer | providers/vcloud/loadbalancer.go:74-111 | a request that cannot be built is reported as a failure to get the named load balancer |
| LoadBalancer.EnsureLoadBalancer | providers/vcloud/loadbalancer.go:122-163 | the body carries the service's load balancer name, namespace and type, one port entry per service port in order, and the nodes' internal IPs; the exchange is the retried POST to the base URL followed by `/ingresses` that the backend answers, and success is exactly its final 200 or 201 with a decodable body |
| LoadBalancer.UpdateLoadBalancer | providers/vcloud/loadbalancer.go:166-194 | the body carries the service's load balancer name, namespace and type, one port entry per service port in order, and the nodes' internal IPs; the exchange is the retried PUT to `/ingresses/<name>` that the backend answers, and success is exactly its final 200 |
| LoadBalancer.EnsureLoadBalancerDeleted | providers/vcloud/loadbalancer.go:197-221 | a request that cannot be built is reported as a failed delete |
| LoadBalancer.SameResourceAddressed | providers/vcloud/loadbalancer.go:78-201 | Get, Update and Delete all address the base URL followed by `/ingresses/<name>` |
| LoadBalancer.DeleteOfMissingSucceeds | providers/vcloud/loadbalancer.go:202-212 | deleting a load balancer the API no longer has succeeds, even after a transport error on the first attempt |

## Left out

- HTTP transport, client timeouts (`defaultTimeout` is kept as a constant only), `context` cancellation and `time.Sleep`: the client becomes a sequence of per-attempt outcomes and sleeps are recorded.
- Reuse of a request body across retries: the model's requests carry no body stream, so a body drained by an earlier attempt cannot be represented.
- VCloud.Request: the `requires` that three attempt outcomes are supplied is a property of the stand-in client, not a demand of the Go code; the trailing `return resp, err` after the loop is unreachable and has no counterpart.
- JSON encoding and decoding: a response body is given already decoded, `None` for a decode failure. `json.Marshal` of the load-balancer request cannot fail for that struct, so its error branch is not modelled, and `omitempty` is not modelled (a zero node port and an empty app protocol are simply the values the encoder leaves out).
- Response bodies read into error messages (`unexpected status code %d: %s`): the error records the status code only. Other error texts are one constructor each, with the wrapped cause kept as a field.
- `uuid.Parse` and `url.Parse` are function parameters of `ValidateConfig` and `NewVCloudProvider`.
- `validateConfig`'s nil-config branch: `readConfig` never returns a nil config without an error, so the branch is unreachable from the constructor.
- The line scanner: a file is the list of lines it delivered, plus a flag for a scanner error (an I/O error or a line over the token limit).
- `TrimSpace` works on characters, not UTF-8 bytes; invalid UTF-8 is not represented. `EqualFold` against "vCloud" is ASCII case folding, which is exact for the letters of that word.
- `sync.RWMutex` and concurrency: each cache operation is one atomic step, and the race between the read-locked lookup and the write-locked store is not modelled. Go's map iteration order in the sweep does not matter, because the sweep's result is the same in any order.
- Wall-clock time: the lookup time and the time after the fetch are parameters of `Cache.Get`.
- Cache.Get: the size bound is stated only for calls that insert. A hit leaves a large map as it was, expired entries included, because the sweep runs only after an insertion.
- Provider registration in `init`, the sub-interface accessors, `Initialize`, logging, and the constructors `NewVCloudInstances` and `NewVCloudLoadBalancer`, which only wire objects together.
- The typed-nil reader case of the tests: the model's nil reader is `None`, the nil-interface path the code checks.
- `intstr.IntOrString.String()` for the target port: the port's text is given as it is.
