/** The home share and its directory streams. */
module Streams {
  const HOME := "home"

  const G_NODES := "dir.nodes"
  const G_WORKSPACES := "dir.workspaces"
  const G_CLAIMS := "dir.claims"
  const G_GRANTS := "dir.grants"
  const G_REVOCATIONS := "dir.revocations"
  const G_BINDINGS := "dir.bindings"
  const G_SERVICES := "dir.services"
  const G_BINDING_RETRACTIONS := "dir.binding-retractions"
  const G_PRINCIPALS := "dir.principals"
  const G_TRANSPORT_BINDINGS := "dir.transport-bindings"
  const G_TRANSPORT_REVOCATIONS := "dir.transport-revocations"
  const G_RECOVERY_KEYS := "dir.recovery-keys"
  const G_CHECKPOINTS := "dir.checkpoints"
}
