/** The outside effects of the sign-in screens, recorded in the order they
    happen: the mock-service call, the two storage writes and the
    `updateAuthState` callback the navigator passes in. */
module Effects {
  import opened Api

  datatype Effect =
    | LoginCalled(credentials: LoginCredentials)
    | SignupCalled(data: SignupData)
    | TokenStored(token: string)
    | UserStored(user: User)
    | AuthStateSet(authenticated: bool)
}
