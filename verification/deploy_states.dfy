/** The states of a deployment and of the application it belongs to. */
module DeployStates {
  type AppId = nat

  datatype DeployStatus = Queued | Building | Deploying | Success | Failed | Cancelled

  datatype AppStatus = Idle | AppBuilding | Running | Stopped | AppError

  predicate IsTerminal(s: DeployStatus) {
    s == Success || s == Failed || s == Cancelled
  }
}
