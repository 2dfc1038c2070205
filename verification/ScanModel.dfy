/** Entities of scan/model.go shared by the upload and worker models. */
module ScanModel {

  /** `Queued` is the legacy alias of `Pending`. */
  datatype JobStatus =
    | Uploading
    | Pending
    | Queued
    | Processing
    | OCRComplete
    | NeedsStrategy
    | ReviewReady
    | QuizReady
    | Failed
}
