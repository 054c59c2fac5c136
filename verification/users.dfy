/** The user client composable: login, registration and logout as
    transitions on its own refs and on the shared storage. Its `isLoggedIn`
    is a ref of this composable, distinct from the shared flag of `LoginFlag`. */
module Users {
  import opened Outcomes
  import opened WebStorage
  import opened Types

  const InvalidCredentialsMessage := "Invalid credentials"
  const LoginFailedMessage := "Failed to login"
  const RegisterFailedMessage := "Failed to register"

  /** The `data` object of a successful login reply. */
  datatype AuthData = AuthData(token: string, userId: string)

  /** The message `fetchToken` records for a failed login: the server's
      `error` string, or a fixed fallback when it is missing or empty. */
  function LoginError(response: Response<AuthData>): (message: string)
    requires !response.Ok?
    ensures message != ""
    ensures response.Rejected? && Truthy(response.errorField) ==> message == response.errorField.value
    ensures response.Rejected? && !Truthy(response.errorField) ==> message == InvalidCredentialsMessage
    ensures response.Threw? && response.message != "" ==> message == response.message
    ensures response.Threw? && response.message == "" ==> message == LoginFailedMessage
  {
    match response
    case Rejected(errorField) => OrElse(Some(OrElse(errorField, InvalidCredentialsMessage)), LoginFailedMessage)
    case Threw(message) => OrElse(Some(message), LoginFailedMessage)
  }

  /** The message `registerUser` records for a failed registration. */
  function RegisterError(response: Response<()>): (message: string)
    requires !response.Ok?
    ensures message != ""
    ensures response.Rejected? && Truthy(response.errorField) ==> message == response.errorField.value
    ensures response.Threw? && response.message != "" ==> message == response.message
    ensures (response.Rejected? && !Truthy(response.errorField)) || (response.Threw? && response.message == "")
            ==> message == RegisterFailedMessage
  {
    match response
    case Rejected(errorField) => OrElse(Some(OrElse(errorField, RegisterFailedMessage)), RegisterFailedMessage)
    case Threw(message) => OrElse(Some(message), RegisterFailedMessage)
  }

  /** The refs `useUsers()` returns, with the storage it writes the session to. */
  class UserClient {
    var loading: bool
    var token: Option<string>
    var isLoggedIn: bool
    var error: Option<string>
    var user: Option<User>
    var name: string
    var email: string
    var password: string
    const storage: LocalStorage

    constructor (storage: LocalStorage)
      ensures this.storage == storage
      ensures !loading && token == None && !isLoggedIn && error == None && user == None
      ensures name == "" && email == "" && password == ""
    {
      this.storage := storage;
      loading, token, isLoggedIn, error, user := false, None, false, None, None;
      name, email, password := "", "", "";
    }

    /** `fetchToken`: on success the session is stored and a previous error
        is kept; on failure nothing is stored and the flag drops to false. */
    method FetchToken(email: string, password: string, response: Response<AuthData>)
      modifies this, storage
      ensures !loading && user == old(user)
      ensures this.email == old(this.email) && this.password == old(this.password) && name == old(name)
      ensures response.Ok? ==>
                && token == Some(response.body.token) && isLoggedIn && error == old(error)
                && storage.items == old(storage.items)[TokenKey := response.body.token][UserIdKey := response.body.userId]
      ensures response.Ok? && response.body.token != "" ==> HasValue(storage.items, TokenKey)
      ensures !response.Ok? ==>
                && token == old(token) && !isLoggedIn && error == Some(LoginError(response))
                && storage.items == old(storage.items)
    {
      loading := true;
      match response {
        case Ok(authData) =>
          token := Some(authData.token);
          isLoggedIn := true;
          storage.SetItem(TokenKey, authData.token);
          storage.SetItem(UserIdKey, authData.userId);
        case Rejected(errorField) =>
          var message := OrElse(errorField, InvalidCredentialsMessage);
          error := Some(OrElse(Some(message), LoginFailedMessage));
          isLoggedIn := false;
        case Threw(message) =>
          error := Some(OrElse(Some(message), LoginFailedMessage));
          isLoggedIn := false;
      }
      loading := false;
    }

    /** `registerUser`: never logs in and never touches storage. */
    method RegisterUser(name: string, email: string, password: string, response: Response<()>)
      modifies this
      ensures !loading
      ensures token == old(token) && isLoggedIn == old(isLoggedIn) && user == old(user)
      ensures this.name == old(this.name) && this.email == old(this.email) && this.password == old(this.password)
      ensures response.Ok? ==> error == old(error)
      ensures !response.Ok? ==> error == Some(RegisterError(response))
    {
      loading := true;
      match response {
        case Ok(_) =>
        case Rejected(errorField) =>
          var message := OrElse(errorField, RegisterFailedMessage);
          error := Some(OrElse(Some(message), RegisterFailedMessage));
        case Threw(message) =>
          error := Some(OrElse(Some(message), RegisterFailedMessage));
      }
      loading := false;
    }

    /** `logout`: a local operation that forgets the session. */
    method Logout()
      modifies this, storage
      ensures token == None && !isLoggedIn
      ensures storage.items == WithoutSession(old(storage.items))
      ensures !HasValue(storage.items, TokenKey) && !HasValue(storage.items, UserIdKey)
      ensures loading == old(loading) && error == old(error) && user == old(user)
      ensures name == old(name) && email == old(email) && password == old(password)
    {
      token := None;
      isLoggedIn := false;
      storage.RemoveItem(TokenKey);
      storage.RemoveItem(UserIdKey);
    }
  }

  /** Logging out twice leaves the same state as logging out once. */
  method LogoutTwice(client: UserClient)
    modifies client, client.storage
    ensures client.token == None && !client.isLoggedIn
    ensures client.storage.items == WithoutSession(old(client.storage.items))
    ensures client.loading == old(client.loading) && client.error == old(client.error) && client.user == old(client.user)
    ensures client.name == old(client.name) && client.email == old(client.email) && client.password == old(client.password)
  {
    client.Logout();
    ghost var once := client.storage.items;
    client.Logout();
    WithoutSessionIdempotent(old(client.storage.items));
    assert client.storage.items == WithoutSession(once);
  }
}
