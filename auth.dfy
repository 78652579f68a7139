/** The login state (AuthContext): a fixed table of users and passwords, the
    signed-in user, and the copy of it kept in the browser's storage under
    `suryasakshi_user`. */
module Auth {
  import opened Common
  import Text

  /** The hard-coded credentials: user name to password. */
  const Users: map<string, string> := map[
    "SHUBHAM" := "SHUBHAM@14",
    "ABHISHEK" := "ABHI@37",
    "PRASHANT" := "PRASHANT@83",
    "OM" := "OM@66",
    "RAMESHWAR" := "RAMESHWAR@88"
  ]

  /** The check `login` makes: the user name is upper-cased and looked up;
      the password must match exactly. On success, the upper-cased name. */
  function Authenticate(username: string, pass: string): (r: Option<string>)
    ensures r.Some? <==> Text.ToUpper(username) in Users && Users[Text.ToUpper(username)] == pass
    ensures r.Some? ==> r.value == Text.ToUpper(username) && r.value in Users
  {
    var key := Text.ToUpper(username);
    if key in Users && Users[key] == pass then Some(key) else None
  }

  /** The initial user: the stored name when it is non-empty and one of the
      table's names (compared as stored, without case folding), else none. */
  function RestoreUser(stored: Option<string>): (r: Option<string>)
    ensures r.Some? ==> r.value in Users
    ensures r.Some? <==> stored.Some? && stored.value in Users
    ensures r.Some? ==> r == stored
  {
    if stored.Some? && stored.value != "" && stored.value in Users then stored else None
  }

  /** The user name is matched whatever its case. */
  lemma UsernameCaseIgnored(username: string, pass: string)
    ensures Authenticate(username, pass) == Authenticate(Text.ToUpper(username), pass)
  {
    Text.ToUpperIdempotent(username);
  }

  /** The password is matched exactly: a lower-cased password is refused. */
  lemma PasswordCaseMatters()
    ensures Authenticate("om", "OM@66") == Some("OM")
    ensures Authenticate("om", "om@66") == None
  {
    assert Text.ToUpper("om") == "OM";
  }

  /** `toUpperCase` maps the long s (U+017F) to 'S', so a name typed with it
      signs in as the ASCII user. */
  lemma LongSSignsIn()
    ensures Authenticate("ſhubham", "SHUBHAM@14") == Some("SHUBHAM")
  {
    assert Text.ToUpper("ſhubham") == "SHUBHAM";
  }

  /** A name a successful login stores is restored on the next load. */
  lemma LoginSurvivesReload(username: string, pass: string)
    ensures RestoreUser(Authenticate(username, pass)) == Authenticate(username, pass)
  {
  }

  class Session {
    /** The signed-in user (`user`), `None` for `null`. */
    var user: Option<string>
    /** The value stored under `suryasakshi_user`, `None` when absent. */
    var persisted: Option<string>

    /** Only a name from the table is ever signed in. */
    predicate Valid()
      reads this
    {
      user.Some? ==> user.value in Users
    }

    /** `isAuthenticated`: `!!user`. */
    function IsAuthenticated(): (b: bool)
      reads this
      requires Valid()
      ensures b <==> user.Some?
    {
      user.Some? && user.value != ""
    }

    /** The provider mounts with the user restored from storage. */
    constructor(stored: Option<string>)
      ensures Valid()
      ensures user == RestoreUser(stored) && persisted == stored
    {
      user := RestoreUser(stored);
      persisted := stored;
    }

    /** `login`: on a match, signs the user in under the upper-cased name and
        stores that name; otherwise changes nothing. */
    method Login(username: string, pass: string) returns (ok: bool)
      requires Valid()
      modifies this
      ensures Valid()
      ensures ok <==> Authenticate(username, pass).Some?
      ensures ok ==> user == Authenticate(username, pass) && persisted == user
      ensures !ok ==> user == old(user) && persisted == old(persisted)
    {
      var key := Text.ToUpper(username);
      if key in Users && Users[key] == pass {
        user := Some(key);
        persisted := Some(key);
        return true;
      }
      return false;
    }

    /** `logout`: forgets the user and removes the stored name. */
    method Logout()
      modifies this
      ensures Valid() && !IsAuthenticated()
      ensures user == None && persisted == None
    {
      user := None;
      persisted := None;
    }
  }
}
