/**
 Identities derived by hashing. SHA-256 and UUIDv5 are treated as injective: a digest
 or a derived UUID is the constructor applied to what was hashed.
 */
module Identities {
  type Octet = n: int | 0 <= n < 256 witness 0

  type Bytes = seq<Octet>

  datatype Sha = Sha256(body: Bytes)

  /** A normalized durable HTTP URI. */
  type Uri = string

  /** The facts of a response that enter its observation's identity; the observation time does not. */
  datatype Facts = Facts(
    requestedUri: Uri, finalUri: Uri, status: int, headers: seq<(string, string)>, redirectChain: seq<Uri>, depth: nat)

  datatype Uuid =
    | Raw(n: nat)
    | TargetUuid(checkpoint: Uuid, uri: Uri)
    | ArtifactUuid(sha: Sha)
    | ObservationUuid(artifact: Uuid, facts: Facts)
}
