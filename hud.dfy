/** The progress HUD the capture screens show over themselves. */
module ProgressHud {
  /** What the HUD shows: nothing, a spinner, a success tick or an error cross, each with its status text. */
  datatype Hud = Hidden | Progress(status: string) | Succeeded(status: string) | Failed(status: string)
}
