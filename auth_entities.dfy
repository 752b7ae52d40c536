/** Authentication value types shared by the client's layers, and the values its code throws. */
module AuthEntities {
  import opened Common
  import opened UserEntity

  datatype AuthStatus = LOADING | AUTHENTICATED | UNAUTHENTICATED | ERROR

  datatype TokenType = Bearer | JWT

  /** `expiresAt` is in milliseconds since the epoch. */
  datatype AuthToken = AuthToken(accessToken: string, refreshToken: Option<string>, expiresAt: int, tokenType: TokenType)

  datatype AuthSession = AuthSession(
    user: User,
    token: AuthToken,
    isAuthenticated: bool,
    sessionId: string,
    createdAt: int,
    lastActivity: int)

  /** The normalised HTTP failure: `statusCode` is 0 when there was no response. */
  datatype ApiError = ApiError(message: string, code: string, statusCode: int)

  /**
   * A value thrown or passed to a rejected promise. The first three are `Error`
   * instances; an `ApiFailure` is the plain `ApiError` object the
   * HTTP gateway rejects with; `NonError` is anything else (a string, `undefined`).
   */
  datatype Thrown =
    | AuthenticationError(message: string, code: string, statusCode: Option<int>)
    | RepositoryError(message: string, operation: string, originalError: Option<Thrown>)
    | PlainError(message: string)
    | ApiFailure(apiError: ApiError)
    | NonError
  {
    /** `error instanceof Error`. */
    predicate IsError() {
      AuthenticationError? || RepositoryError? || PlainError?
    }

    /** `error instanceof Error ? error.message : 'Unknown error'`. */
    function MessageOrUnknown(): string {
      if IsError() then message else "Unknown error"
    }
  }
}
