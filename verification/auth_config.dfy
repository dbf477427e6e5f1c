/** What the auth config resources share: the check that a restricting
    access mode names at least one allowed principal. */
module AuthConfig {

  /** The access modes that admit only listed principals. */
  predicate Restricting(mode: string)
  {
    mode == "required" || mode == "restricted"
  }

  /** An access mode and allowed principal list that expand accepts. */
  predicate AccessModeAccepted(mode: string, allowedPrincipalIds: seq<string>)
  {
    !(Restricting(mode) && |allowedPrincipalIds| == 0)
  }

  function AccessModeError(provider: string, mode: string): string
  {
    "expanding " + provider + " Auth Config: allowed_principal_ids is required on access_mode " + mode
  }
}
