/** The credential probe (internal/aws/aws.go). */
module Aws {
  import opened Sys

  /** aws sts get-caller-identity, in the inherited working directory. */
  const ProbeSpec := ProcessSpec("aws", [Text("sts"), Text("get-caller-identity")], None)

  /** What CheckCredentials reports. */
  predicate CredentialsOk(status: Oracle) {
    status(ProbeSpec).Succeeded()
  }

  /** CheckCredentials: every call starts the probe again (nothing is cached). */
  method CheckCredentials(h: Host, status: Oracle) returns (ok: bool)
    modifies h`log
    ensures h.log == old(h.log) + [Spawn(ProbeSpec)]
    ensures ok == CredentialsOk(status)
  {
    h.log := h.log + [Spawn(ProbeSpec)];
    ok := status(ProbeSpec).Succeeded();
  }
}
