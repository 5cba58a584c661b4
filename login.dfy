/** The login page: one submit handler that writes the session on success. */
module Login {
  import opened Wrappers
  import opened Entities
  import opened Auth

  const LoginSucceeded: string := "¡Inicio de sesión exitoso!"
  const LoginFailed: string := "Inicio de sesión fallido. Por favor, verifica tus credenciales."

  /** `LoginReq`. */
  datatype LoginRequest = LoginRequest(email: string, password: string)

  /** What `login` resolves with; the declared response carries only the token, so `user` may be absent. */
  datatype LoginResponse = LoginResponse(token: string, user: Option<User>)

  class LoginPage {
    var email: string
    var password: string
    var error: string
    var successMessage: string

    constructor ()
      ensures email == "" && password == "" && error == "" && successMessage == ""
    {
      email, password, error, successMessage := "", "", "", "";
    }

    /**
     * `handleSubmit`, with `login` resolving to `response` (or rejecting when
     * `None`). Success writes the token and user into the auth context.
     */
    method HandleSubmit(auth: AuthProvider, response: Option<LoginResponse>) returns (request: LoginRequest)
      requires auth.Valid()
      modifies this, auth
      ensures request == LoginRequest(old(email), old(password))
      ensures email == old(email) && password == old(password)
      ensures auth.Valid() && auth.loading == old(auth.loading)
      ensures response.Some? ==>
              && auth.token == Some(response.value.token)
              && auth.user == response.value.user
              && auth.store == PersistUser(PersistToken(old(auth.store), Some(response.value.token)), response.value.user, auth.json)
              && successMessage == LoginSucceeded && error == ""
      ensures response.None? ==>
              && auth.token == old(auth.token) && auth.user == old(auth.user) && auth.store == old(auth.store)
              && error == LoginFailed && successMessage == ""
    {
      request := LoginRequest(email, password);
      match response
      case Some(r) =>
        auth.SetToken(Some(r.token));
        auth.SetUser(r.user);
        successMessage := LoginSucceeded;
        error := "";
      case None =>
        error := LoginFailed;
        successMessage := "";
    }
  }
}
