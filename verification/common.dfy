/** Failure-carrying datatypes shared by every part of the vCloud provider model,
    and the provider's error vocabulary. */
module Common {

  datatype Option<+T> = None | Some(value: T)

  /** The result of an operation that returns a value or a Go `error`. */
  datatype Result<+T> = Ok(value: T) | Err(error: Error)

  /** The errors the provider reports. The Go code builds them with `fmt.Errorf`;
      here each distinct message becomes one constructor. */
  datatype Error =
    // config.go
    | NoConfig                     // "no vcloud config provided"
    | ReadFailed                   // "error reading config"
    | MissingField(key: string)    // "<KEY> is required"
    | InvalidClusterID             // "CLUSTER_ID must be a valid UUID"
    | InvalidMgmtURL               // "MGMT_URL must be a valid URL"
    // vcloud.go
    | ConfigReadFailed(cause: Error)  // "failed to read vcloud config: <cause>"
    | ConfigInvalid(cause: Error)     // "invalid vcloud config: <cause>"
    | RequestBuildFailed           // "failed to create request"
    | TransportFailed              // the error returned by the HTTP client
    // instances.go and loadbalancer.go
    | InstanceRequestFailed(id: string, cause: Error)  // "failed to get instance <id>: <cause>"
    | UnexpectedStatus(code: int)  // "unexpected status code <code>"
    | DecodeFailed                 // "failed to decode response"
    | EmptyProviderID(node: string)  // "provider ID is empty for node <node>"
    | GetLoadBalancerFailed(name: string, cause: Error)  // "failed to get load balancer <name>: <cause>"
    | EnsureLoadBalancerFailed(cause: Error)  // "failed to create/update load balancer: <cause>"
    | UpdateLoadBalancerFailed(cause: Error)  // "failed to update load balancer: <cause>"
    | DeleteLoadBalancerFailed(cause: Error)  // "failed to delete load balancer: <cause>"
    | InstanceNotFound             // cloudprovider.InstanceNotFound
}
