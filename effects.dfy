/** What a session does to the world, in order: HTTP requests sent, config
    saves attempted, and the temporary audio file's life. */
module Effects {
  import Requests
  import Config

  type Bytes = seq<bv8>

  /** How writing the temp audio file goes: `open(temp_file, "wb")` and
      `f.write` both succeed; the open fails, so nothing is created; or the
      open creates the file and the write raises, leaving it on the card. */
  datatype AudioWrite = WriteCompletes | OpenFails | WriteRaises

  datatype Effect =
    | Http(request: Requests.Request)
    | Saved(outcome: Config.SaveOutcome)
    | WriteAudio(path: string, bytes: Bytes)  // the file is created and these bytes are written to it
    | PlayAudio(path: string)
    | RemoveAudio(path: string)
}
