/** The controller's durable annotations on claims and pools, parsed
(internal/annotations/annotations.go). An absent or unreadable timestamp reads as None,
except the window stamp, where the two differ. */
module Notes {
  import opened Clock
  import opened Options

  /** The value of the `state` annotation of a claim; Fresh is its absence. */
  datatype Phase = Fresh | Pending | Draining | Failed | Expired

  datatype ClaimNotes = ClaimNotes(
    phase: Phase,
    startedAt: Option<Time>,
    failedAt: Option<Time>,
    retry: int,
    surgeClaim: Option<string>)

  const NO_CLAIM_NOTES := ClaimNotes(Fresh, None, None, 0, None)

  datatype Stamp = Unset | Unreadable | OpenedAt(at: Time)

  datatype SurgePath = Provisioned | Absorbed

  /** `draining` is the mirror of the claim's drain; `fallback` is the surge-less
  rotation mode. */
  datatype PoolNotes = PoolNotes(
    active: Option<string>,
    draining: bool,
    drainingAt: Option<Time>,
    surgeWait: Option<int>,
    surgePath: Option<SurgePath>,
    fallback: bool,
    lastRotationAt: Option<Time>,
    lastFailureAt: Option<Time>,
    freeze: Option<Time>,
    openedAt: Stamp)

  const NO_POOL_NOTES := PoolNotes(None, false, None, None, None, false, None, None, None, Unset)
}
