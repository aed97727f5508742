/** The library's two exception classes. `SES::ValidationError` derives from
    `StandardError`, not from `SES::Error`, so they are two distinct kinds. */
module Errors {

  datatype Failure =
    | SesError(message: string)         // SES::Error
    | ValidationError(message: string)  // SES::ValidationError
}
