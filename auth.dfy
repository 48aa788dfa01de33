/**
 * The `AuthController` (TodoItemsController.cs:136-188): `Login` checks the
 * credentials and, for the one valid user, answers with a token issued for
 * that user. Issuing the token (`generate_token`) signs it with a key from
 * the configuration and stamps it with the clock, so it is a parameter here:
 * a function from the user name to the token.
 */
module Auth {

  /** `is_valid_user`: the only accepted credentials are user `admin` with password `admin`. */
  predicate IsValidUser(username: string, password: string) {
    username == "admin" && password == "admin"
  }

  /** A single pair of credentials is accepted: any two accepted pairs are the same pair. */
  lemma SingleAccount(username: string, password: string, username': string, password': string)
    requires IsValidUser(username, password) && IsValidUser(username', password')
    ensures username == username' && password == password'
  {
  }

  datatype LoginResult = Ok(token: string) | Unauthorized

  /**
   * `Login`: a token for exactly the valid credentials, and that token is
   * the one issued for `admin`.
   */
  function Login(username: string, password: string, generateToken: string -> string): (r: LoginResult)
    ensures r.Ok? <==> username == "admin" && password == "admin"
    ensures r.Ok? ==> r.token == generateToken("admin")
  {
    if IsValidUser(username, password) then Ok(generateToken(username)) else Unauthorized
  }
}
