/** The errors the refresh daemon returns, with the text Go would print for each. */
module Errors {

  datatype Error =
    /** The daemon is uninitialised or the cron setting is empty. */
    | CronTimeNotProvided
    /** A cron setting failed to parse; wraps the error from `ParseCron`. */
    | CronParsing(cause: Error)
    /** The daemon is uninitialised when the max age is updated. */
    | MaxAgeNotProvided
    /** The daemon is uninitialised when a single record is refreshed. */
    | NotInitialized
    /** `time.ParseDuration` rejected the max-age setting; carries its reason. */
    | MaxAgeSyntax(reason: string)
    /** `cron.ParseStandard` rejected the cron setting; carries its reason. */
    | CronSyntax(reason: string)
    /** An error raised by the hidden refresher, passed through unchanged. */
    | Refresh(reason: string)

  /** The text of an error, as `err.Error()` renders it. */
  function Message(e: Error): string
  {
    match e
    case CronTimeNotProvided => "refresh cron time must be provided"
    case CronParsing(cause) => "parsing error: " + Message(cause)
    case MaxAgeNotProvided => "refresh max age must be provided"
    case NotInitialized => "refresh daemon not yet initialized"
    case MaxAgeSyntax(reason) => "error parsing auth refresh max age: " + reason
    case CronSyntax(reason) => "error parsing auth refresh cron: " + reason
    case Refresh(reason) => reason
  }
}
