/** The static operations of Artist.java over the users table. */
module Artists {
  import opened Common
  import opened Entities

  /** Position of the first artist whose id is `id`. */
  function IndexOfArtistId(us: seq<Account>, id: nat): (r: Option<nat>)
    reads us`id, us`role
    ensures r.Some? ==> r.value < |us| && us[r.value].id == id && us[r.value].role == "artist"
    ensures r.None? <==> forall k :: 0 <= k < |us| ==> !(us[k].id == id && us[k].role == "artist")
    decreases |us|
  {
    if us == [] then None
    else if us[0].id == id && us[0].role == "artist" then Some(0)
    else
      match IndexOfArtistId(us[1..], id)
      case None => None
      case Some(i) => Some(i + 1)
  }

  /** Artist.findById: the artist with that id, or null. */
  function FindById(db: Database, id: nat): (r: Account?)
    reads db`users, db.users`id, db.users`role
    ensures r == null <==> forall u :: u in db.users ==> !(u.id == id && u.role == "artist")
    ensures r != null ==> r in db.users && r.id == id && r.role == "artist"
  {
    match IndexOfArtistId(db.users, id)
    case None => null
    case Some(i) => db.users[i]
  }

  /**
   * The conditions of an `Artist.list(...)` query: the row is an artist, and
   * each filter that is present holds of it.
   */
  predicate Selected(a: Account, verified: Option<bool>, open: Option<bool>)
    reads a`role, a`verified, a`isOpenForCommissions
  {
    && a.role == "artist"
    && (verified.Some? ==> a.verified == verified.value)
    && (open.Some? ==> a.isOpenForCommissions == open.value)
  }

  /** The artists of `us` that the filters select, in table order. */
  function ArtistsWhere(us: seq<Account>, verified: Option<bool>, open: Option<bool>): (r: seq<Account>)
    reads us`role, us`verified, us`isOpenForCommissions
    ensures forall a :: a in r ==> a in us && Selected(a, verified, open)
    ensures forall a :: a in us && Selected(a, verified, open) ==> a in r
    ensures |r| <= |us|
    decreases |us|
  {
    if us == [] then []
    else (if Selected(us[0], verified, open) then [us[0]] else []) + ArtistsWhere(us[1..], verified, open)
  }

  /** Artist.findAllArtists: every artist. */
  function FindAllArtists(db: Database): (r: seq<Account>)
    reads db`users, db.users`role, db.users`verified, db.users`isOpenForCommissions
    ensures forall a :: a in r ==> a in db.users && a.role == "artist"
    ensures forall a :: a in db.users && a.role == "artist" ==> a in r
  {
    ArtistsWhere(db.users, None, None)
  }

  /** Artist.findAllVerifiedArtists: the artists whose verified flag is set. */
  function FindAllVerifiedArtists(db: Database): (r: seq<Account>)
    reads db`users, db.users`role, db.users`verified, db.users`isOpenForCommissions
    ensures forall a :: a in r ==> a in db.users && a.role == "artist" && a.verified
    ensures forall a :: a in db.users && a.role == "artist" && a.verified ==> a in r
  {
    ArtistsWhere(db.users, Some(true), None)
  }

  /**
   * Artist.add(username, password, email, verified): a new artist with the
   * given verified flag, persisted last. The password hash is not modelled.
   */
  method Add(db: Database, name: string, email: Option<string>, verified: bool, now: Timestamp)
    returns (artist: Account)
    modifies db`users, db`nextId
    ensures fresh(artist)
    ensures db.users == old(db.users) + [artist]
    ensures artist.id == old(db.nextId) && artist.name == name && artist.role == "artist"
    ensures artist.email == email && artist.verified == verified && artist.timeCreated == now
    ensures artist.socialProfiles == [] && !artist.isOpenForCommissions
  {
    var id := db.NewId();
    artist := new Account.Artist(id, name, email, verified, now);
    db.users := db.users + [artist];
  }

  /**
   * Artist.addVerifiedToArtist: marks the artist with that id verified and
   * answers true, or answers false and changes nothing when there is none.
   */
  method AddVerifiedToArtist(db: Database, id: nat) returns (found: bool)
    modifies db.users`verified
    ensures found <==> old(FindById(db, id)) != null
    ensures found ==> old(FindById(db, id)).verified
    ensures forall u :: u in db.users && u != old(FindById(db, id)) ==> u.verified == old(u.verified)
  {
    var artist := FindById(db, id);
    if artist != null {
      artist.verified := true;
      found := true;
    } else {
      found := false;
    }
  }
}
