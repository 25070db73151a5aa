/** What an app's row and its container are called, wherever they are read. */
module AppStatus {
  type AppId = string
  type Cid = string

  datatype Status = Building | Starting | Running | Stopped | Error | Removing

  /** A launch of the app is under way. */
  predicate InLaunch(status: Status) { status == Building || status == Starting }
}
