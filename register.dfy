/**
 * RegisterResource.java: creating an account. Blank fields are refused
 * first, then a name or email already in use; otherwise an unverified
 * artist or a plain user is persisted.
 */
module Register {
  import opened Common
  import opened Entities
  import Users
  import Artists

  /** UserRegistrationDto: null fields are `None`. */
  datatype Registration = Registration(
    name: Option<string>,
    password: Option<string>,
    email: Option<string>,
    isArtist: bool)

  /** A field is missing when it is null or blank. */
  predicate Missing(field: Option<string>) {
    field.None? || IsBlank(field.value)
  }

  predicate AnyMissing(request: Registration) {
    Missing(request.name) || Missing(request.password) || Missing(request.email)
  }

  /**
   * registerUser's answer before any write: 400 when a field is missing,
   * then 409 when the name or the email is taken, otherwise nothing.
   */
  function RegistrationCheck(db: Database, request: Registration): (r: Option<Error>)
    reads db`users, db.users`name, db.users`email
    ensures r == Some(RegistrationFieldsMissing) <==> AnyMissing(request)
    ensures r == Some(AlreadyRegistered) <==>
      !AnyMissing(request)
      && ((exists u :: u in db.users && u.name == request.name.value)
          || (exists u :: u in db.users && u.email == request.email))
    ensures r.None? <==>
      !AnyMissing(request)
      && (forall u :: u in db.users ==> u.name != request.name.value && u.email != request.email)
  {
    if AnyMissing(request) then Some(RegistrationFieldsMissing)
    else if Users.ExistsName(db, request.name.value) || Users.ExistsEmail(db, request.email.value) then
      Some(AlreadyRegistered)
    else None
  }

  /**
   * registerUser: on success exactly one account is appended, an artist
   * with `verified` false when `isArtist` is set and a plain user otherwise;
   * on an error the table is unchanged. Afterwards the same request is
   * refused as already registered.
   */
  method RegisterUser(db: Database, request: Registration, now: Timestamp) returns (err: Option<Error>)
    modifies db`users, db`nextId
    ensures err == old(RegistrationCheck(db, request))
    ensures err.Some? ==> db.users == old(db.users) && db.nextId == old(db.nextId)
    ensures err.None? ==>
      && |db.users| == |old(db.users)| + 1
      && db.users[..|old(db.users)|] == old(db.users)
      && var account := db.users[|old(db.users)|];
      && fresh(account)
      && account.name == request.name.value && account.email == request.email
      && account.id == old(db.nextId) && account.timeCreated == now
      && (request.isArtist ==> account.role == "artist" && !account.verified)
      && (!request.isArtist ==> account.role == "user")
    ensures err.None? ==> RegistrationCheck(db, request) == Some(AlreadyRegistered)
  {
    err := RegistrationCheck(db, request);
    if err.Some? {
      return;
    }
    var account: Account;
    if request.isArtist {
      account := Artists.Add(db, request.name.value, request.email, false, now);
    } else {
      account := Users.Add(db, request.name.value, request.email, now);
    }
    assert account in db.users && account.name == request.name.value;
  }
}
