/** Shared vocabulary of the server: optional values, results, roles,
    document ids, validation violations, faults and HTTP responses. */
module Common {

  datatype Option<+T> = None | Some(value: T)

  datatype Result<+T, +E> = Ok(value: T) | Err(error: E)

  /** The three roles a user account can hold. */
  datatype Role = Admin | Manager | Member

  /** The roles `authorize(...)` lets through when a route needs only `auth`. */
  const AnyRole: set<Role> := {Admin, Manager, Member}

  predicate IsHexDigit(c: char) {
    '0' <= c <= '9' || 'a' <= c <= 'f' || 'A' <= c <= 'F'
  }

  /** A string that casts to a MongoDB ObjectId: 24 hexadecimal digits. */
  predicate IsObjectId(s: string) {
    |s| == 24 && forall i :: 0 <= i < |s| ==> IsHexDigit(s[i])
  }

  type ObjectId = s: string | IsObjectId(s) witness "000000000000000000000000"

  /** The authenticated caller that the `auth` middleware puts on the request. */
  datatype Principal = Principal(id: ObjectId, role: Role)

  /** Why one schema path failed validation. */
  datatype Reason =
    | Required
    | TooLong(maxLength: nat)
    | NotInEnum
    | BelowMin(min: real)
    | AboveMax(max: real)
    | NotAnObjectId

  datatype Violation = Violation(path: string, reason: Reason)

  /** What makes a handler answer 500: every exception lands in its catch block. */
  datatype Fault =
    | ValidationFailed(violations: seq<Violation>)
    | HookRejected(message: string)
    | CastFailed(value: string)
    | DuplicateKey(id: ObjectId)
    | InvalidFileType
    | FileTooLarge

  /** The HTTP statuses the routes answer with: 200, 201, 400, 403, 404 and 500. */
  datatype Status = Success | Created | BadRequest | Forbidden | NotFound | ServerError

  /** An HTTP answer: a body, a refusal with its message, or a server error. */
  datatype Response<+T> =
    | Reply(status: Status, value: T)
    | Refusal(status: Status, message: string)
    | Crash(fault: Fault)

  /** The message of the 403 that the `authorize(...)` middleware answers a
      role outside its list with. server/middleware/auth.js is not part of
      this model, so this text is assumed: it is taken to be the same
      "Access denied" that the users route sends from its own check. */
  const RoleDenied := "Access denied"
}
