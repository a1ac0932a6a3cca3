/**
 * The user registry (UserManager): one in-memory set of users with
 * registration, an authentication that tells an unknown name apart from a
 * wrong password, and a membership test on names ignoring case.
 */
module Registry {
  import opened Wrappers
  import opened Text
  import opened Model

  /** The three UserExceptions the registry throws. */
  datatype UserError = NotUnique | UnknownUser | PasswordMismatch

  /** Login credentials fit a stored user: the name ignoring case, the password exactly. */
  predicate Accepts(storedName: string, storedPassword: string, name: string, password: string)
  {
    EqualsIgnoreCase(storedName, name) && storedPassword == password
  }

  /** Some user's name equals this name ignoring case. */
  ghost predicate Registered(users: set<User>, name: string)
  {
    exists u :: u in users && EqualsIgnoreCase(u.name, name)
  }

  /** Some user accepts these credentials. */
  ghost predicate HasAcceptingUser(users: set<User>, name: string, password: string)
  {
    exists u :: u in users && Accepts(u.name, u.password, name, password)
  }

  /** User names are unique up to case. */
  ghost predicate NamesUnique(users: set<User>)
  {
    forall u, v :: u in users && v in users && EqualsIgnoreCase(u.name, v.name) ==> u == v
  }

  /**
   * While names are unique up to case, a registered name picks out one user,
   * and the password alone decides whether authentication succeeds.
   */
  lemma PasswordDecides(users: set<User>, name: string, password: string, w: User)
    requires NamesUnique(users)
    requires w in users && EqualsIgnoreCase(w.name, name)
    ensures HasAcceptingUser(users, name, password) <==> w.password == password
    ensures forall u :: u in users && Accepts(u.name, u.password, name, password) ==> u == w
  {
  }

  /**
   * One example of the rule: the name ignores case, while a password that
   * differs from the stored one only in case is not accepted.
   */
  lemma PasswordIsCaseSensitive()
    ensures Accepts("admin", "Secret", "ADMIN", "Secret")
    ensures !Accepts("admin", "Secret", "ADMIN", "secret")
  {
    assert Fold("admin") == "admin";
    assert Fold("ADMIN") == "admin";
  }

  class UserManager {
    var users: set<User>

    ghost predicate Valid()
      reads this
    {
      NamesUnique(users)
    }

    constructor ()
      ensures users == {} && Valid()
    {
      users := {};
    }

    /** isRegistered: an iterator scan of the set for a name equal ignoring case. */
    method IsRegistered(name: string) returns (found: bool)
      ensures found <==> Registered(users, name)
    {
      var rest := users;
      while rest != {}
        invariant rest <= users
        invariant !Registered(users - rest, name)
        decreases rest
      {
        var u :| u in rest;
        if EqualsIgnoreCase(u.name, name) {
          return true;
        }
        rest := rest - {u};
      }
      assert users - rest == users;
      return false;
    }

    /**
     * register: a name not yet registered (ignoring case) gets one new user,
     * which is returned; a taken name throws and changes nothing.
     */
    method Register(name: string, password: string) returns (r: Result<User, UserError>)
      modifies this
      ensures Registered(old(users), name) ==> r == Err(NotUnique) && users == old(users)
      ensures !Registered(old(users), name) ==>
        && r.Ok? && fresh(r.value)
        && r.value.name == name && r.value.password == password && r.value.todos == []
        && users == old(users) + {r.value}
      ensures old(Valid()) ==> Valid()
    {
      var taken := IsRegistered(name);
      if !taken {
        var newUser := new User(name, password);
        users := users + {newUser};
        return Ok(newUser);
      } else {
        return Err(NotUnique);
      }
    }

    /**
     * authenticate: an unknown name throws "User does not exist!"; a known
     * name without a user holding exactly this password throws "Password does
     * not match!"; otherwise a user accepting the credentials is returned.
     * The set of users is not changed.
     */
    method Authenticate(name: string, password: string) returns (r: Result<User, UserError>)
      ensures r == Err(UnknownUser) <==> !Registered(users, name)
      ensures r == Err(PasswordMismatch) <==> Registered(users, name) && !HasAcceptingUser(users, name, password)
      ensures r.Ok? <==> HasAcceptingUser(users, name, password)
      ensures r.Ok? ==> r.value in users && Accepts(r.value.name, r.value.password, name, password)
    {
      var known := IsRegistered(name);
      if !known {
        return Err(UnknownUser);
      }
      var rest := users;
      while rest != {}
        invariant rest <= users
        invariant !HasAcceptingUser(users - rest, name, password)
        decreases rest
      {
        var u :| u in rest;
        if EqualsIgnoreCase(u.name, name) && u.password == password {
          return Ok(u);
        }
        rest := rest - {u};
      }
      assert users - rest == users;
      return Err(PasswordMismatch);
    }
  }

  /**
   * A registry in use: a second registration of a name in another case is
   * refused, the name logs in in any case with the exact password, a wrong
   * password and an unknown name are told apart.
   */
  method RegistrationScenario() returns (again: Result<User, UserError>, login: Result<User, UserError>,
                                         wrong: Result<User, UserError>, stranger: Result<User, UserError>)
    ensures again == Err(NotUnique)
    ensures login.Ok? && login.value.name == "admin"
    ensures wrong == Err(PasswordMismatch)
    ensures stranger == Err(UnknownUser)
  {
    var registry := new UserManager();
    var first := registry.Register("admin", "1234");
    assert Fold("admin") == "admin" && Fold("ADMIN") == "admin" && Fold("Admin") == "admin";
    again := registry.Register("ADMIN", "other");
    login := registry.Authenticate("Admin", "1234");
    wrong := registry.Authenticate("admin", "4321");
    assert Fold("bob") == "bob";
    stranger := registry.Authenticate("bob", "1234");
  }
}
