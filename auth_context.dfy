/**
 * The authentication context: the signed-in user (or null), a loading flag,
 * and the `taskflow_user` entry of local storage that keeps the user across
 * reloads.  Sign-in and sign-up are mocks: after a fixed delay they build a
 * user from what they were given and the clock, keep it, and store it.
 *
 * `user` is held as the parsed JSON value, because on mount whatever
 * `JSON.parse` makes of the stored text becomes the user unchecked.  An
 * awaited request is split in two: `BeginRequest` runs on entry and
 * `CompleteLogin` / `CompleteSignup` run when the delay has passed.
 */
module AuthContext {
  import opened Wrappers
  import opened JsonValue
  import opened Types
  import JsText
  import Decimal

  const UserKey: string := "taskflow_user"

  datatype User = User(
    id: string,
    fullName: string,
    email: string,
    company: Option<string>,
    createdAt: string)

  /** `JSON.stringify` of a user; an undefined company is left out. */
  function UserToJson(u: User): (j: Json)
    ensures j.JObj? && Truthy(j)
  {
    var fields := map["id" := JStr(u.id), "fullName" := JStr(u.fullName), "email" := JStr(u.email),
                      "createdAt" := JStr(u.createdAt)];
    if u.company.Some? then JObj(fields["company" := JStr(u.company.value)]) else JObj(fields)
  }

  /** Reads a parsed value as a user, when it has the four string fields (and a string company, if any). */
  function UserFromJson(j: Json): (r: Option<User>)
    ensures r.Some? ==> j.JObj?
    ensures r.Some? ==>
      && StrField(j.fields, "id") == Some(r.value.id)
      && StrField(j.fields, "fullName") == Some(r.value.fullName)
      && StrField(j.fields, "email") == Some(r.value.email)
      && StrField(j.fields, "createdAt") == Some(r.value.createdAt)
      && (r.value.company.Some? <==> "company" in j.fields)
      && (r.value.company.Some? ==> StrField(j.fields, "company") == r.value.company)
  {
    if !j.JObj? then None
    else
      var f := j.fields;
      var id, name, email, at := StrField(f, "id"), StrField(f, "fullName"), StrField(f, "email"),
                                 StrField(f, "createdAt");
      var company := if "company" in f then StrField(f, "company") else None;
      if id.None? || name.None? || email.None? || at.None? || ("company" in f && company.None?) then None
      else Some(User(id.value, name.value, email.value, company, at.value))
  }

  /** Where each field of a user lands in its JSON object. */
  lemma UserToJsonFields(u: User)
    ensures var f := UserToJson(u).fields;
      && StrField(f, "id") == Some(u.id)
      && StrField(f, "fullName") == Some(u.fullName)
      && StrField(f, "email") == Some(u.email)
      && StrField(f, "createdAt") == Some(u.createdAt)
      && ("company" in f <==> u.company.Some?)
      && (u.company.Some? ==> StrField(f, "company") == u.company)
  {
  }

  lemma UserJsonRoundTrip(u: User)
    ensures UserFromJson(UserToJson(u)) == Some(u)
  {
    UserToJsonFields(u);
  }

  /** `user_${Date.now()}` */
  function UserId(now: Timestamp): (id: string)
    ensures |id| > 5 && id[..5] == "user_"
  {
    "user_" + Decimal.IntToString(now)
  }

  /** Two users get the same id exactly when they were made in the same millisecond. */
  lemma UserIdsCollideIff(n1: Timestamp, n2: Timestamp)
    ensures UserId(n1) == UserId(n2) <==> n1 == n2
  {
    Decimal.IntToStringInjective(n1, n2);
    if UserId(n1) == UserId(n2) {
      assert Decimal.IntToString(n1) == UserId(n1)[5..];
    }
  }

  /**
   * The user `login` builds: the name is the part of the email before the
   * first '@' (all of it when there is none), the email is kept as typed,
   * and there is no company.  The password plays no part.
   */
  function LoginUser(email: string, now: Timestamp, createdAt: string): (u: User)
    ensures u.email == email && u.company.None? && u.id == UserId(now) && u.createdAt == createdAt
    ensures '@' !in u.fullName && |u.fullName| <= |email| && email[..|u.fullName|] == u.fullName
    ensures |u.fullName| < |email| ==> email[|u.fullName|] == '@'
    ensures '@' !in email ==> u.fullName == email
  {
    User(UserId(now), JsText.BeforeFirst(email, '@'), email, None, createdAt)
  }

  /** The user `signup` builds: exactly the given name, email and company. */
  function SignupUser(fullName: string, email: string, company: Option<string>, now: Timestamp,
                      createdAt: string): (u: User)
    ensures u.fullName == fullName && u.email == email && u.company == company
    ensures u.id == UserId(now) && u.createdAt == createdAt
  {
    User(UserId(now), fullName, email, company, createdAt)
  }

  /** The user the mount check restores from `stored`, or `current` when there is nothing to parse. */
  function MountUser(stored: map<string, StoredText>, current: Json): Json {
    if UserKey in stored && !IsFalsyText(stored[UserKey]) && stored[UserKey].Text? then
      stored[UserKey].json
    else current
  }

  /** The storage the mount check leaves: an unparsable entry is removed. */
  function MountStorage(stored: map<string, StoredText>): map<string, StoredText> {
    if UserKey in stored && !IsFalsyText(stored[UserKey]) && stored[UserKey].Unparsable? then
      stored - {UserKey}
    else stored
  }

  /** A user stored by sign-in or sign-up is signed in again after a reload. */
  lemma ReloadRestoresUser(stored: map<string, StoredText>, u: User)
    ensures var j := MountUser(stored[UserKey := Text(UserToJson(u))], JNull);
      j == UserToJson(u) && Truthy(j) && UserFromJson(j) == Some(u)
    ensures MountStorage(stored[UserKey := Text(UserToJson(u))]) == stored[UserKey := Text(UserToJson(u))]
  {
    UserJsonRoundTrip(u);
  }

  /** After a sign-out nothing is restored: the reloaded context has no user. */
  lemma ReloadAfterLogout(stored: map<string, StoredText>)
    ensures MountUser(stored - {UserKey}, JNull) == JNull
    ensures !Truthy(MountUser(stored - {UserKey}, JNull))
    ensures MountStorage(stored - {UserKey}) == stored - {UserKey}
  {
  }

  /** Unparsable stored text is dropped and the context starts signed out. */
  lemma UnparsableEntryDropped(stored: map<string, StoredText>, raw: string)
    requires raw != ""
    ensures MountUser(stored[UserKey := Unparsable(raw)], JNull) == JNull
    ensures MountStorage(stored[UserKey := Unparsable(raw)]) == stored - {UserKey}
  {
    var s := stored[UserKey := Unparsable(raw)];
    assert s - {UserKey} == stored - {UserKey};
  }

  /**
   * Nothing checks the shape of a stored user: any parsable object counts as
   * signed in, even one with none of a user's fields, while a stored `null`
   * counts as signed out.
   */
  lemma StoredShapeUnchecked(stored: map<string, StoredText>)
    ensures var j := MountUser(stored[UserKey := Text(JObj(map[]))], JNull);
      Truthy(j) && UserFromJson(j).None?
    ensures !Truthy(MountUser(stored[UserKey := Text(JNull)], JNull))
  {
    assert StrField(map[], "id").None?;
  }

  class AuthProvider {
    var user: Json
    var isLoading: bool
    var storage: map<string, StoredText>

    constructor (stored: map<string, StoredText>)
      ensures user == JNull && isLoading && storage == stored
    {
      user := JNull;
      isLoading := true;
      storage := stored;
    }

    /** `isAuthenticated: !!user` */
    function IsAuthenticated(): (b: bool)
      reads this
      ensures b <==> Truthy(user)
      ensures user == JNull ==> !b
      ensures user.JObj? ==> b
    {
      Truthy(user)
    }

    /** The fields of `user`, read as a user record. */
    function CurrentUser(): (r: Option<User>)
      reads this
      ensures r.Some? ==> IsAuthenticated()
    {
      UserFromJson(user)
    }

    /** The mount effect: restore a stored user, drop an unparsable entry, and stop loading either way. */
    method Mount()
      modifies this
      ensures user == MountUser(old(storage), old(user))
      ensures storage == MountStorage(old(storage))
      ensures !isLoading
    {
      if UserKey in storage && !IsFalsyText(storage[UserKey]) {
        match storage[UserKey]
        case Text(j) =>
          user := j;
        case Unparsable(_) =>
          storage := storage - {UserKey};
      }
      isLoading := false;
    }

    /** The synchronous start of `login` and `signup`. */
    method BeginRequest()
      modifies this`isLoading
      ensures isLoading
    {
      isLoading := true;
    }

    /**
     * Keeps `u` and then writes it to storage; when storage refuses the
     * write (`writable` false) the call throws after the user is already
     * set.  `finally` stops loading in both cases.
     */
    method Keep(u: User, writable: bool) returns (threw: bool)
      modifies this
      ensures user == UserToJson(u) && IsAuthenticated() && CurrentUser() == Some(u)
      ensures storage == if writable then old(storage)[UserKey := Text(UserToJson(u))] else old(storage)
      ensures threw <==> !writable
      ensures !isLoading
    {
      user := UserToJson(u);
      UserJsonRoundTrip(u);
      if writable {
        storage := storage[UserKey := Text(UserToJson(u))];
      }
      threw := !writable;
      isLoading := false;
    }

    /** The rest of `login`, once the delay is over. */
    method CompleteLogin(email: string, password: string, now: Timestamp, createdAt: string, writable: bool)
      returns (threw: bool)
      modifies this
      ensures user == UserToJson(LoginUser(email, now, createdAt))
      ensures CurrentUser() == Some(LoginUser(email, now, createdAt))
      ensures storage == if writable then old(storage)[UserKey := Text(user)] else old(storage)
      ensures threw <==> !writable
      ensures !isLoading && IsAuthenticated()
    {
      threw := Keep(LoginUser(email, now, createdAt), writable);
    }

    /** The rest of `signup`, once the delay is over. */
    method CompleteSignup(fullName: string, email: string, password: string, company: Option<string>,
                          now: Timestamp, createdAt: string, writable: bool)
      returns (threw: bool)
      modifies this
      ensures user == UserToJson(SignupUser(fullName, email, company, now, createdAt))
      ensures CurrentUser() == Some(SignupUser(fullName, email, company, now, createdAt))
      ensures storage == if writable then old(storage)[UserKey := Text(user)] else old(storage)
      ensures threw <==> !writable
      ensures !isLoading && IsAuthenticated()
    {
      threw := Keep(SignupUser(fullName, email, company, now, createdAt), writable);
    }

    /** `logout`: forget the user and remove the stored entry. */
    method Logout()
      modifies this`user, this`storage
      ensures user == JNull && !IsAuthenticated()
      ensures storage == old(storage) - {UserKey}
      ensures UserKey !in storage
    {
      user := JNull;
      storage := storage - {UserKey};
    }
  }
}
