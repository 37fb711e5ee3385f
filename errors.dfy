/** The Go error values the model passes around. Each typed error of the
    device and user-database packages is a constructor carrying the string
    it was built from; `StatusError` is the HTTP-status error of the server
    utilities; `Plain` is any other error, known only by its message. */
module Errors {
  import opened Wrappers

  datatype Error =
    | DuplicateDevice(id: string)
    | DeviceNotFound(id: string)
    | InvalidDeviceId(id: string)
    | DuplicateClaim(id: string)
    | ClaimNotFound(id: string)
    | DuplicateUser(name: string)
    | UserNotFound(name: string)
    | InactiveUser(name: string)
    | Unsupported
    | StatusError(code: int)
    | Plain(msg: string)
    /** Not an error value of the program: a run-time panic, which the model
        reports as the outcome of the operation that panicked. */
    | Panic(reason: string)
  {
    /** `Error()`: the message text of the error. */
    function Message(): string {
      match this
      case DuplicateDevice(id) => "Device already exists: " + id
      case DeviceNotFound(id) => "Device not found: " + id
      case InvalidDeviceId(_) => "Invalid device id"
      case DuplicateClaim(id) => "Device claim with id '" + id + "' is in progress, please wait."
      case ClaimNotFound(id) => "No such device claim: " + id
      case DuplicateUser(name) => "User already exists: " + name
      case UserNotFound(name) => "User not found: " + name
      case InactiveUser(name) => "You cannot login using this identity: " + name
      case Unsupported => "Unsupported operation"
      case StatusError(code) => StatusText(code)
      case Plain(msg) => msg
      case Panic(reason) => reason
    }

    /** `HTTPErrorStatusCode()`, for the errors that implement it; `None` for
        errors that do not. */
    function StatusCode(): Option<int> {
      match this
      case DuplicateDevice(_) => Some(StatusConflict)
      case DeviceNotFound(_) => Some(StatusNotFound)
      case InvalidDeviceId(_) => Some(StatusBadRequest)
      case DuplicateClaim(_) => Some(StatusConflict)
      case ClaimNotFound(_) => Some(StatusNotFound)
      case DuplicateUser(_) => Some(StatusConflict)
      case UserNotFound(_) => Some(StatusNotFound)
      case InactiveUser(_) => Some(StatusUnauthorized)
      case Unsupported => Some(StatusInternalServerError)
      case StatusError(code) => Some(code)
      case Plain(_) => None
      case Panic(_) => None
    }
  }

  const StatusBadRequest: int := 400
  const StatusUnauthorized: int := 401
  const StatusForbidden: int := 403
  const StatusNotFound: int := 404
  const StatusNotAcceptable: int := 406
  const StatusConflict: int := 409
  const StatusInternalServerError: int := 500

  /** `http.StatusText` for the codes the model uses; "" for any other code. */
  function StatusText(code: int): string {
    if code == StatusBadRequest then "Bad Request"
    else if code == StatusUnauthorized then "Unauthorized"
    else if code == StatusForbidden then "Forbidden"
    else if code == StatusNotFound then "Not Found"
    else if code == StatusNotAcceptable then "Not Acceptable"
    else if code == StatusConflict then "Conflict"
    else if code == StatusInternalServerError then "Internal Server Error"
    else ""
  }
}
