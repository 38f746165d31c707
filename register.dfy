/** The registration handler, without its HTTP layer: a guarded insertion into a
    store of users keyed by email. */
module Registration {
  import opened Common
  import opened Model

  /** A request to the registration endpoint: its HTTP method and the four form fields. */
  datatype Request = Request(httpMethod: string, username: string, email: string,
                             password: string, confirmPassword: string)

  /** How the handler answers. */
  datatype Outcome = Mismatch | Duplicate | Created | MethodNotAllowed

  /** The message the handler sends back with each outcome. */
  function Message(o: Outcome): string {
    match o
    case Mismatch => "Passwords do not match. Please try again."
    case Duplicate => "Email already Registered, Please login"
    case Created => "Your Account has been Created Successfully"
    case MethodNotAllowed => "Method Not Allowed"
  }

  /** Each outcome is sent with a message of its own, so the client can tell them apart. */
  lemma MessagesDistinct(a: Outcome, b: Outcome)
    requires a != b
    ensures Message(a) != Message(b)
  {
  }

  /** The handler's checks, in order: the HTTP method, then the password confirmation,
      then whether the email is already taken. `registered` holds the stored emails. */
  function Decide(registered: set<string>, req: Request): (o: Outcome)
    ensures o == Created ==> req.httpMethod == "POST" && req.password == req.confirmPassword
                             && req.email !in registered
    ensures req.email in registered ==> o != Created
    ensures req.httpMethod != "POST" ==> o == MethodNotAllowed
    ensures req.httpMethod == "POST" && req.password == req.confirmPassword && req.email in registered
            ==> o == Duplicate
  {
    if req.httpMethod != "POST" then MethodNotAllowed
    else if req.password != req.confirmPassword then Mismatch
    else if req.email in registered then Duplicate
    else Created
  }

  /** The password check comes before the email lookup: a mismatched confirmation is
      reported as such even for an email that is already registered. */
  lemma MismatchBeforeDuplicate(registered: set<string>, req: Request)
    requires req.httpMethod == "POST" && req.password != req.confirmPassword
    ensures Decide(registered, req) == Mismatch
  {
  }

  /** Uniqueness is checked on the email alone: a username already in use passes the
      handler's checks as long as the email is new. */
  lemma UsernameNotChecked(registered: set<string>, req: Request)
    requires req.httpMethod == "POST" && req.password == req.confirmPassword
    requires req.email !in registered
    ensures Decide(registered, req) == Created
  {
  }

  /** The user table as the handler sees it: users keyed by their email. */
  class UserStore {
    var users: map<string, User>

    /** Every user is stored under its own email. */
    ghost predicate Valid()
      reads this, users.Values
    {
      forall e | e in users :: users[e].email == e
    }

    constructor ()
      ensures Valid() && users == map[]
    {
      users := map[];
    }

    /** `register()`: answers with the outcome of the handler's checks; only a Created
        outcome changes the store, and then by adding exactly one user, under the
        request's email, whose stored secret is the hash of the password. `hash` stands
        for the password-hashing library. */
    method Register(req: Request, hash: string -> string) returns (o: Outcome)
      requires Valid()
      modifies this`users
      ensures Valid()
      ensures o == Decide(old(users.Keys), req)
      ensures o != Created ==> users == old(users)
      ensures o == Created ==>
                && users.Keys == old(users.Keys) + {req.email}
                && fresh(users[req.email])
                && users[req.email].username == req.username
                && users[req.email].passwordHash == Some(hash(req.password))
                && forall e | e in old(users) :: users[e] == old(users[e])
    {
      if req.httpMethod != "POST" {
        return MethodNotAllowed;
      }
      if req.password != req.confirmPassword {
        return Mismatch;
      }
      if req.email in users {
        return Duplicate;
      }
      var user := new User(req.username, req.email);
      user.SetPassword(hash, req.password);
      users := users[req.email := user];
      o := Created;
    }
  }

  /** Once an email is registered, every later POST with that email and a confirmed
      password is refused as a duplicate, and none can create a second account. */
  method RegisterTwice(store: UserStore, first: Request, second: Request, hash: string -> string)
      returns (o1: Outcome, o2: Outcome)
    requires store.Valid()
    requires second.email == first.email
    modifies store
    ensures o1 == Created && second.httpMethod == "POST" && second.password == second.confirmPassword
            ==> o2 == Duplicate
    ensures o1 == Created ==> o2 != Created
  {
    o1 := store.Register(first, hash);
    o2 := store.Register(second, hash);
  }
}
