/**
 * The plain data classes of lib/verifalia/email_validation: what a submission
 * carries (request entries, the request, the completion callback) and what the
 * service answers (a job, its overview and progress). Only the attributes the
 * modelled code reads are kept.
 */
module Jobs {
  import opened Wrappers
  import opened Json

  /** RequestEntry: the input data and the optional custom string; either may be any Ruby value. */
  datatype RequestEntry = RequestEntry(inputData: Value, custom: Value)

  /**
   * What `Request#entries` holds: a list of entries, or, when the request was
   * built around a lone RequestEntry, that entry itself.
   */
  datatype Entries = EntryList(list: seq<RequestEntry>) | SingleEntry(entry: RequestEntry)

  /** Request: the entries and the per-request options (the options are not read by `submit`). */
  datatype Request = Request(entries: Entries, quality: Value)

  /** CompletionCallback: the URL, the schema version (nil by default) and the certificate flag (false by default). */
  datatype CompletionCallback = CompletionCallback(url: Value, version: Value, skipServerCertificateValidation: Value)

  /** Progress: a percentage and the optional `(dd.)hh:mm:ss` estimate of the time left. */
  datatype Progress = Progress(percentage: real, estimatedTimeRemaining: Option<string>)

  /** Overview: the attributes of a job's overview that the polling code reads. */
  datatype Overview = Overview(id: string, status: string, noOfEntries: int, progress: Option<Progress>)

  /** Job: its overview (the validated entries are not modelled). */
  datatype Job = Job(overview: Overview)
}
