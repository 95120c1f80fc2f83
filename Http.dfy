/** What every route handler sees of the request context and returns. */
module Http {
  import opened Js
  import opened Models

  /** The user part of a session as the auth library issues it; `None` for no session. */
  datatype SessionUser = SessionUser(id: Option<UserId>, isAdmin: bool)
  type Session = Option<SessionUser>

  /** `session?.user?.id` is present. */
  predicate HasUserId(session: Session)
  {
    session.Some? && session.value.id.Some?
  }

  function UserIdOf(session: Session): UserId
    requires HasUserId(session)
  {
    session.value.id.value
  }

  /** `session?.user?.isAdmin` is true. */
  predicate IsAdmin(session: Session)
  {
    session.Some? && session.value.isAdmin
  }

  /** A JSON response: 200, 201, or an error status with its message. */
  datatype Response<T> = Ok(value: T) | Created(value: T) | Error(status: int, message: string)

  const Unauthorized: string := "Unauthorized"

  /** What the framework answers when a handler throws. */
  const InternalError: string := "Internal Server Error"
}
