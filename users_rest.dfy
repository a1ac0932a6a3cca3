/**
 * The user registration REST handler (UsersRestServlet, mapped to the
 * api/users path): a cascade of checks on the request, then one call of
 * UserManager.register.
 */
module UsersRest {
  import opened Wrappers
  import opened Json
  import opened Http
  import opened Model
  import opened Registry

  datatype RegistrationRequest = RegistrationRequest(
    contentType: string,   // request.getContentType()
    body: Option<Object>)  // readJsonData of the body; None when it returns null or throws

  datatype Credentials = Credentials(name: string, password: string)

  /**
   * The checks doPost makes before register: the Content-Type (415), then
   * the body: unread, null or empty, a name or password that is not a String
   * (the cast throws), or one that is null or empty all give 400.
   */
  function RegistrationCheck(req: RegistrationRequest): (r: Result<Credentials, int>)
    ensures r == Err(StatusUnsupportedMediaType) <==> !IsJson(req.contentType)
    ensures r.Err? ==> r.error in {StatusUnsupportedMediaType, StatusBadRequest}
    ensures r.Ok? <==>
      && IsJson(req.contentType) && req.body.Some? && req.body.value != map[]
      && Get(req.body.value, "name").Str? && Get(req.body.value, "name").s != ""
      && Get(req.body.value, "password").Str? && Get(req.body.value, "password").s != ""
    ensures r.Ok? ==>
      Get(req.body.value, "name") == Str(r.value.name) && Get(req.body.value, "password") == Str(r.value.password)
  {
    if !IsJson(req.contentType) then Err(StatusUnsupportedMediaType)
    else match req.body
      case None => Err(StatusBadRequest)
      case Some(m) =>
        if m == map[] then Err(StatusBadRequest)
        else
          var name := Get(m, "name");
          var password := Get(m, "password");
          if !StringOrNull(name) || !StringOrNull(password) then Err(StatusBadRequest)  // ClassCastException
          else if name.Str? && name.s != "" && password.Str? && password.s != "" then Ok(Credentials(name.s, password.s))
          else Err(StatusBadRequest)
  }

  /**
   * doPost: a request that fails the checks is answered with their status and
   * nothing is registered; a name already taken (ignoring case) gives 409 and
   * the registry is unchanged; otherwise exactly one user with these
   * credentials is added and 201 is given.
   */
  method DoPost(manager: UserManager, req: RegistrationRequest) returns (status: int)
    modifies manager
    ensures match RegistrationCheck(req)
      case Err(s) => status == s && manager.users == old(manager.users)
      case Ok(c) =>
        if Registered(old(manager.users), c.name) then
          status == StatusConflict && manager.users == old(manager.users)
        else
          && status == StatusCreated
          && exists u :: u in manager.users && u !in old(manager.users) && manager.users == old(manager.users) + {u}
                         && u.name == c.name && u.password == c.password
    ensures old(manager.Valid()) ==> manager.Valid()
  {
    match RegistrationCheck(req)
    case Err(s) =>
      status := s;
    case Ok(c) =>
      var r := manager.Register(c.name, c.password);
      if r.Err? {
        status := StatusConflict;  // the UserException "Username is not unique!"
      } else {
        status := StatusCreated;
      }
  }
}
