/** The status update that the processing worker publishes and the dashboard consumes.
    Server and client declare the same shape independently. */
module Status {

  /** `ProcessingStep`. */
  datatype Step =
    | UPLOADED
    | OCR_PROCESSING
    | ENTITY_EXTRACTION
    | RULE_APPLICATION
    | COMPLETED
    | FAILED

  /** `StatusUpdate`; `progress` is a percentage. */
  datatype StatusUpdate = StatusUpdate(fileId: string, status: Step, message: string, progress: int)

  /** COMPLETED and FAILED end a job. */
  predicate IsTerminal(s: Step) {
    s == COMPLETED || s == FAILED
  }
}
