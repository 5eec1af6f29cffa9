/**
 * The library's error enum (`NaApiError`). Every variant carries one
 * message string, and its `Display` prints exactly that string, so the
 * shared destructor `msg` is what a caller sees.
 */
module Errors {

  datatype NaApiError =
    | IpNotAllowed(msg: string)
    | APIKeyInvalid(msg: string)
    | UnknownError(msg: string)
}
