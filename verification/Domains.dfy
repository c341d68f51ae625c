/** Where an endpoint's bytes live. */
module Domains {
  datatype Domain = Unknown | HostPageable | HostPinned | Device | Shared | Storage | Remote | Mmap
}
