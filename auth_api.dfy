/**
 * What the session code needs of the backend API wrappers (src/services/auth/auth.ts)
 * and of the calls it makes that are not defined there: the shapes of their results and
 * a name for each call, so that the model can record which calls were made.
 */
module AuthApi {
  import opened AuthSlice

  /** The body of a successful login, registration or provider-credential exchange. */
  datatype AuthResponse = AuthResponse(token: string, refreshToken: string, user: User)

  datatype ApiCall = LoginCall | RegisterCall | LogoutCall | VerifyTokenCall
}
