/** The static queries and the factory of User.java, over the users table. */
module Users {
  import opened Common
  import opened Entities

  /** Position of the first account named `name`. */
  function IndexOfName(us: seq<Account>, name: string): (r: Option<nat>)
    reads us`name
    ensures r.Some? ==> r.value < |us| && us[r.value].name == name
    ensures r.Some? ==> forall k :: 0 <= k < r.value ==> us[k].name != name
    ensures r.None? <==> forall k :: 0 <= k < |us| ==> us[k].name != name
    decreases |us|
  {
    if us == [] then None
    else if us[0].name == name then Some(0)
    else
      match IndexOfName(us[1..], name)
      case None => None
      case Some(i) => Some(i + 1)
  }

  /** Position of the first account whose email is `email`. */
  function IndexOfEmail(us: seq<Account>, email: string): (r: Option<nat>)
    reads us`email
    ensures r.Some? ==> r.value < |us| && us[r.value].email == Some(email)
    ensures r.Some? ==> forall k :: 0 <= k < r.value ==> us[k].email != Some(email)
    ensures r.None? <==> forall k :: 0 <= k < |us| ==> us[k].email != Some(email)
    decreases |us|
  {
    if us == [] then None
    else if us[0].email == Some(email) then Some(0)
    else
      match IndexOfEmail(us[1..], email)
      case None => None
      case Some(i) => Some(i + 1)
  }

  /** User.findByUsername: the first account with that name, or null. */
  function FindByUsername(db: Database, name: string): (r: Account?)
    reads db`users, db.users`name
    ensures r == null <==> forall u :: u in db.users ==> u.name != name
    ensures r != null ==> r in db.users && r.name == name
  {
    match IndexOfName(db.users, name)
    case None => null
    case Some(i) => db.users[i]
  }

  /** User.findByEmail: the first account with that email, or null. */
  function FindByEmail(db: Database, email: string): (r: Account?)
    reads db`users, db.users`email
    ensures r == null <==> forall u :: u in db.users ==> u.email != Some(email)
    ensures r != null ==> r in db.users && r.email == Some(email)
  {
    match IndexOfEmail(db.users, email)
    case None => null
    case Some(i) => db.users[i]
  }

  /** User.existsName: some account has that name. */
  predicate ExistsName(db: Database, name: string)
    reads db`users, db.users`name
    ensures ExistsName(db, name) <==> exists u :: u in db.users && u.name == name
  {
    FindByUsername(db, name) != null
  }

  /** User.existsEmail: some account has that email. */
  predicate ExistsEmail(db: Database, email: string)
    reads db`users, db.users`email
    ensures ExistsEmail(db, email) <==> exists u :: u in db.users && u.email == Some(email)
  {
    FindByEmail(db, email) != null
  }

  /**
   * User.add(username, password, email): a new plain user, persisted last.
   * The password hash is not part of the model.
   */
  method Add(db: Database, name: string, email: Option<string>, now: Timestamp) returns (user: Account)
    modifies db`users, db`nextId
    ensures fresh(user)
    ensures db.users == old(db.users) + [user]
    ensures user.id == old(db.nextId) && user.name == name && user.role == "user"
    ensures user.email == email && user.timeCreated == now && user.socialProfiles == []
  {
    var id := db.NewId();
    user := new Account.User(id, name, email, now);
    db.users := db.users + [user];
  }
}
