/**
 * The sign-up handler of rangers_shop/blueprints/auth/routes.py over the User
 * table. Whether the request is a POST and whether the form validates are
 * inputs; the redirects and the rendered page become a response value.
 */
module AuthRoutes {
  import opened Results
  import opened UserModel

  /** What signup answers: the sign-up page, a redirect back after a clash,
      or a redirect home after registering. */
  datatype Response = SignUpPage | UsernameExists | EmailExists | SignedUp(username: string)

  /** `User.query.filter(User.username == username).first()` finds a row. */
  predicate HasUsername(users: seq<User>, username: string) {
    exists i :: 0 <= i < |users| && users[i].username == username
  }

  /** `User.query.filter(User.email == email).first()` finds a row. */
  predicate HasEmail(users: seq<User>, email: string) {
    exists i :: 0 <= i < |users| && users[i].email == email
  }

  /** `User.query.filter(User.username == username).first()`: the position of
      the first user with that username, or none. */
  function FindByUsername(users: seq<User>, username: string): (r: Option<nat>)
    ensures r.Some? ==> r.value < |users| && users[r.value].username == username
    ensures r.Some? ==> forall j :: 0 <= j < r.value ==> users[j].username != username
    ensures r.None? <==> !HasUsername(users, username)
  {
    if users == [] then None
    else if users[0].username == username then Some(0)
    else
      match FindByUsername(users[1..], username)
      case None => None
      case Some(k) => Some(k + 1)
  }

  /** `User.query.filter(User.email == email).first()`: the position of the
      first user with that email, or none. */
  function FindByEmail(users: seq<User>, email: string): (r: Option<nat>)
    ensures r.Some? ==> r.value < |users| && users[r.value].email == email
    ensures r.Some? ==> forall j :: 0 <= j < r.value ==> users[j].email != email
    ensures r.None? <==> !HasEmail(users, email)
  {
    if users == [] then None
    else if users[0].email == email then Some(0)
    else
      match FindByEmail(users[1..], email)
      case None => None
      case Some(k) => Some(k + 1)
  }

  /** The User table's primary key and its unique columns. */
  predicate Unique(users: seq<User>) {
    forall i, j :: 0 <= i < j < |users| ==>
      && users[i].userId != users[j].userId
      && users[i].username != users[j].username
      && users[i].email != users[j].email
  }

  /** Appending a user whose id, username and email are all new keeps every
      one of them unique, and the appended user is the one the queries find. */
  lemma AddKeepsUnique(users: seq<User>, u: User)
    requires Unique(users) && !HasUsername(users, u.username) && !HasEmail(users, u.email)
    requires forall i :: 0 <= i < |users| ==> users[i].userId != u.userId
    ensures Unique(users + [u])
    ensures forall i :: 0 <= i < |users| + 1 && (users + [u])[i].username == u.username ==> i == |users|
    ensures forall i :: 0 <= i < |users| + 1 && (users + [u])[i].email == u.email ==> i == |users|
  {
    var all := users + [u];
    forall i, j | 0 <= i < j < |all|
      ensures all[i].userId != all[j].userId && all[i].username != all[j].username && all[i].email != all[j].email
    {
      if j == |users| {
        assert all[i] == users[i];
      }
    }
  }

  class UserTable {
    var users: seq<User>

    predicate Valid()
      reads this
    {
      Unique(users)
    }

    constructor ()
      ensures Valid() && users == []
    {
      users := [];
    }

    /** signup. `random` is what uuid4 draws for the new user's id; `hash`
        is the password hasher. */
    method Signup(isPost: bool, formValid: bool, random: Uuid, hash: string -> string,
                  firstName: string, lastName: string, username: string, email: string, password: string)
      returns (r: Response)
      requires Valid()
      requires forall i :: 0 <= i < |users| ==> users[i].userId != SetId(random)
      modifies this
      ensures Valid()
      ensures !(isPost && formValid) ==> r == SignUpPage && users == old(users)
      ensures isPost && formValid && HasUsername(old(users), username)
              ==> r == UsernameExists && users == old(users)
      ensures isPost && formValid && !HasUsername(old(users), username) && HasEmail(old(users), email)
              ==> r == EmailExists && users == old(users)
      ensures isPost && formValid && !HasUsername(old(users), username) && !HasEmail(old(users), email)
              ==> && r == SignedUp(username)
                  && |users| == |old(users)| + 1
                  && users[..|old(users)|] == old(users)
                  && fresh(users[|old(users)|])
                  && users[|old(users)|].userId == SetId(random)
                  && users[|old(users)|].username == username
                  && users[|old(users)|].email == email
                  && users[|old(users)|].firstName == firstName
                  && users[|old(users)|].lastName == lastName
                  && users[|old(users)|].password == SetPassword(hash, password)
    {
      if !(isPost && formValid) {
        return SignUpPage;
      }
      if FindByUsername(users, username).Some? {
        return UsernameExists;
      }
      if FindByEmail(users, email).Some? {
        return EmailExists;
      }
      var user := new User(random, hash, username, email, password, firstName := firstName, lastName := lastName);
      AddKeepsUnique(users, user);
      users := users + [user];
      r := SignedUp(username);
    }
  }
}
