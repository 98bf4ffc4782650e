/** The records the per-test state is made of (AllureAPI.h, struct Attachment,
    struct Parameter and struct Step), plus an Option for values that may be missing. */
module AllureModel {

  datatype Option<+T> = None | Some(value: T)

  /** A file attached to a test case: display name, path the report tool
      resolves, and MIME type (the C++ field `type`). */
  datatype Attachment = Attachment(name: string, source: string, mimeType: string)

  /** An informational name/value pair shown against a test case. */
  datatype Parameter = Parameter(name: string, value: string)

  /** One recorded step. `status` holds the report vocabulary ("passed",
      "failed", "broken"); times are epoch milliseconds. */
  datatype Step = Step(
    name: string,
    status: string,
    startMs: int,
    stopMs: int,
    attachments: seq<Attachment>,
    parameters: seq<Parameter>)
}
