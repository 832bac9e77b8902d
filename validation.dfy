/**
 * The guards every handler runs before it changes anything:
 * ValidationService.java and the private copies of the same four checks in
 * UserResource.java. `None` stands for the `null` that lets the handler
 * proceed; `Some(e)` for the error response.
 */
module Validation {
  import opened Common
  import opened Entities
  import Users

  /** validateUserExists: 404 unless an account has that name. */
  function ValidateUserExists(db: Database, username: string): (r: Option<Error>)
    reads db`users, db.users`name
    ensures r.None? <==> Users.ExistsName(db, username)
    ensures r.Some? ==> r.value == UserNotFound
  {
    if Users.FindByUsername(db, username) == null then Some(UserNotFound) else None
  }

  /**
   * validateArtistExists: 404 unless the account found under that name has
   * role exactly "artist".
   */
  function ValidateArtistExists(db: Database, username: string): (r: Option<Error>)
    reads db`users, db.users`name, db.users`role
    ensures r.None? <==> Users.FindByUsername(db, username) != null
                         && Users.FindByUsername(db, username).role == "artist"
    ensures r.Some? ==> r.value == ArtistNotFound
  {
    var user := Users.FindByUsername(db, username);
    if user == null || user.role != "artist" then Some(ArtistNotFound) else None
  }

  /** validateOwnership: 403 unless the caller's principal is named `username`. */
  function ValidateOwnership(identity: Identity, username: string): (r: Option<Error>)
    ensures r.None? <==> identity.principal == Some(username)
    ensures r.Some? ==> r.value == NotOwner
  {
    if identity.principal.None? || username != identity.principal.value then Some(NotOwner) else None
  }

  /** validateCommissionCardExists: 404 unless the artist has a card. */
  function ValidateCommissionCardExists(artist: Account): (r: Option<Error>)
    reads artist`commissionCard
    ensures r.None? <==> artist.commissionCard != null
    ensures r.Some? ==> r.value == CommissionCardNotFound
  {
    if artist.commissionCard == null then Some(CommissionCardNotFound) else None
  }

  /**
   * The guard of every handler that changes an artist: validateArtistExists,
   * then validateOwnership; the first failure is the answer.
   */
  function ArtistOwnerGuard(db: Database, identity: Identity, username: string): (r: Option<Error>)
    reads db`users, db.users`name, db.users`role
    ensures r == Some(ArtistNotFound) <==>
      Users.FindByUsername(db, username) == null || Users.FindByUsername(db, username).role != "artist"
    ensures r == Some(NotOwner) <==>
      && Users.FindByUsername(db, username) != null && Users.FindByUsername(db, username).role == "artist"
      && identity.principal != Some(username)
    ensures r.None? <==>
      && Users.FindByUsername(db, username) != null && Users.FindByUsername(db, username).role == "artist"
      && identity.principal == Some(username)
  {
    match ValidateArtistExists(db, username)
    case Some(e) => Some(e)
    case None => ValidateOwnership(identity, username)
  }

  /** Passing the artist check implies passing the account check. */
  lemma ArtistCheckImpliesUserCheck(db: Database, username: string)
    requires ValidateArtistExists(db, username).None?
    ensures ValidateUserExists(db, username).None?
  {
  }

  /** Only the named account itself passes the ownership check. */
  lemma OwnershipIsExclusive(identity: Identity, a: string, b: string)
    requires ValidateOwnership(identity, a).None? && ValidateOwnership(identity, b).None?
    ensures a == b
  {
  }
}
