/**
 * The static operations of Following.java: the follow rows one account keeps
 * of the Bluesky handles it follows, and the per-handle upsert that the
 * following sync performs, which also links a row to the Copla account that
 * owns the handle.
 */
module Followings {
  import opened Common
  import opened Entities

  /** Whether the row stands for `follower` following `handle`. */
  predicate IsRowFor(f: Following, follower: Account, handle: string)
    reads f`follower, f`blueskyHandle
  {
    f.follower == follower && f.blueskyHandle == handle
  }

  /** Position of the first row for (`follower`, `handle`). */
  function IndexOfRow(fs: seq<Following>, follower: Account, handle: string): (r: Option<nat>)
    reads fs`follower, fs`blueskyHandle
    ensures r.Some? ==> r.value < |fs| && IsRowFor(fs[r.value], follower, handle)
    ensures r.None? <==> forall k :: 0 <= k < |fs| ==> !IsRowFor(fs[k], follower, handle)
    decreases |fs|
  {
    if fs == [] then None
    else if IsRowFor(fs[0], follower, handle) then Some(0)
    else
      match IndexOfRow(fs[1..], follower, handle)
      case None => None
      case Some(i) => Some(i + 1)
  }

  /** How many rows stand for (`follower`, `handle`). */
  function CountRows(fs: seq<Following>, follower: Account, handle: string): (n: nat)
    reads fs`follower, fs`blueskyHandle
    ensures n == 0 <==> forall k :: 0 <= k < |fs| ==> !IsRowFor(fs[k], follower, handle)
    ensures n <= |fs|
    decreases |fs|
  {
    if fs == [] then 0
    else
      var last := fs[|fs| - 1];
      CountRows(fs[..|fs| - 1], follower, handle) + (if IsRowFor(last, follower, handle) then 1 else 0)
  }

  /** At most one row per (follower, handle) pair. */
  predicate UniqueRows(fs: seq<Following>)
    reads fs`follower, fs`blueskyHandle
  {
    forall i, j :: 0 <= i < j < |fs| ==>
      !(fs[i].follower == fs[j].follower && fs[i].blueskyHandle == fs[j].blueskyHandle)
  }

  /** Following.findByFollowerAndHandle: the first row for the pair, or null. */
  function FindByFollowerAndHandle(db: Database, follower: Account, handle: string): (r: Following?)
    reads db`followings, db.followings`follower, db.followings`blueskyHandle
    ensures r == null <==> CountRows(db.followings, follower, handle) == 0
    ensures r != null ==> r in db.followings && r.follower == follower && r.blueskyHandle == handle
  {
    match IndexOfRow(db.followings, follower, handle)
    case None => null
    case Some(i) => db.followings[i]
  }

  /** Following.findByFollower: the rows of `follower`, in table order. */
  function FindByFollower(db: Database, follower: Account): (r: seq<Following>)
    reads db`followings, db.followings`follower
    ensures forall f :: f in r ==> f in db.followings && f.follower == follower
    ensures forall f :: f in db.followings && f.follower == follower ==> f in r
  {
    RowsOf(db.followings, follower)
  }

  function RowsOf(fs: seq<Following>, follower: Account): (r: seq<Following>)
    reads fs`follower
    ensures forall f :: f in r ==> f in fs && f.follower == follower
    ensures forall f :: f in fs && f.follower == follower ==> f in r
    ensures |r| <= |fs|
  {
    if fs == [] then []
    else (if fs[0].follower == follower then [fs[0]] else []) + RowsOf(fs[1..], follower)
  }

  /** The row links to an artist who is open for commissions. */
  predicate LinksToOpenArtist(f: Following)
    reads f`followed, f.followed
  {
    f.followed != null && f.followed.role == "artist" && f.followed.isOpenForCommissions
  }

  /** The accounts the rows link to. */
  function LinkedAccounts(fs: seq<Following>): set<Account>
    reads fs`followed
  {
    set f | f in fs && f.followed != null :: f.followed
  }

  function OpenRowsOf(fs: seq<Following>, follower: Account): (r: seq<Following>)
    reads fs`follower, fs`followed, LinkedAccounts(fs)
    ensures forall f :: f in r ==> f in fs && f.follower == follower && LinksToOpenArtist(f)
    ensures forall f :: f in fs && f.follower == follower && LinksToOpenArtist(f) ==> f in r
    ensures |r| <= |fs|
  {
    if fs == [] then []
    else
      var head := if fs[0].follower == follower && LinksToOpenArtist(fs[0]) then [fs[0]] else [];
      head + OpenRowsOf(fs[1..], follower)
  }

  /**
   * Following.findOpenForCommissions: the rows of `follower` whose linked
   * account has role "artist" and is open for commissions.
   */
  function FindOpenForCommissions(db: Database, follower: Account): (r: seq<Following>)
    reads db`followings, db.followings`follower, db.followings`followed, LinkedAccounts(db.followings)
    ensures forall f :: f in r ==> f in db.followings && f.follower == follower && LinksToOpenArtist(f)
    ensures forall f :: f in db.followings && f.follower == follower && LinksToOpenArtist(f) ==> f in r
  {
    OpenRowsOf(db.followings, follower)
  }

  /**
   * The account owns a profile on platform exactly "bluesky" whose username
   * is exactly `handle` (case-sensitive; verification is not consulted).
   */
  predicate OwnsBlueskyHandle(u: Account, handle: string)
    reads u, u.socialProfiles
  {
    exists p :: p in u.socialProfiles && p.platform == "bluesky" && p.username == handle
  }

  /** Position of the first account that owns `handle` on Bluesky. */
  function IndexOfHandleOwner(us: seq<Account>, handle: string): (r: Option<nat>)
    reads us, ProfilesOf(us)
    ensures r.Some? ==> r.value < |us| && OwnsBlueskyHandle(us[r.value], handle)
    ensures r.None? <==> forall k :: 0 <= k < |us| ==> !OwnsBlueskyHandle(us[k], handle)
    decreases |us|
  {
    if us == [] then None
    else if OwnsBlueskyHandle(us[0], handle) then Some(0)
    else
      match IndexOfHandleOwner(us[1..], handle)
      case None => None
      case Some(i) => Some(i + 1)
  }

  /**
   * Following.findCoplaUserByBlueskyHandle: an account owning the handle on
   * Bluesky, or null when no account does.
   */
  function FindCoplaUserByBlueskyHandle(db: Database, handle: string): (r: Account?)
    reads db`users, db.users, ProfilesOf(db.users)
    ensures r == null <==> forall u :: u in db.users ==> !OwnsBlueskyHandle(u, handle)
    ensures r != null ==> r in db.users && OwnsBlueskyHandle(r, handle)
  {
    match IndexOfHandleOwner(db.users, handle)
    case None => null
    case Some(i) => db.users[i]
  }

  /** Every linked row points at an account that owns the row's handle on Bluesky. */
  predicate LinksValid(db: Database)
    reads db`followings, db`users, db.followings`followed, db.followings`blueskyHandle
    reads db.users, ProfilesOf(db.users)
  {
    forall f :: f in db.followings && f.followed != null ==>
      f.followed in db.users && OwnsBlueskyHandle(f.followed, f.blueskyHandle)
  }

  /**
   * Following.createOrUpdate. With no row for (`follower`, `handle`) a new
   * row is persisted, followed and synced now, and linked to the account
   * that owns the handle on Bluesky if there is one. Otherwise that row gets
   * the new DID, display name and sync time, keeps its follow time, and is
   * linked only if it was not linked yet. `row` is the pair's row afterwards.
   */
  method CreateOrUpdate(db: Database, follower: Account, handle: string, did: string, displayName: string,
                        now: Timestamp)
    returns (row: Following)
    modifies db`followings, db`nextId
    modifies db.followings`blueskyDid, db.followings`blueskyDisplayName, db.followings`syncedAt
    modifies db.followings`followed
    ensures old(FindByFollowerAndHandle(db, follower, handle)) == null ==>
      && fresh(row)
      && db.followings == old(db.followings) + [row]
      && row.id == old(db.nextId) && db.nextId == old(db.nextId) + 1
      && row.follower == follower && row.blueskyHandle == handle
      && row.blueskyDid == did && row.blueskyDisplayName == displayName
      && row.followedAt == now && row.syncedAt == now
      && row.followed == old(FindCoplaUserByBlueskyHandle(db, handle))
    ensures old(FindByFollowerAndHandle(db, follower, handle)) != null ==>
      && row == old(FindByFollowerAndHandle(db, follower, handle))
      && db.followings == old(db.followings) && db.nextId == old(db.nextId)
      && row.blueskyDid == did && row.blueskyDisplayName == displayName && row.syncedAt == now
      && row.followedAt == old(row.followedAt)
      && row.followed == (if old(row.followed) != null then old(row.followed)
                          else old(FindCoplaUserByBlueskyHandle(db, handle)))
    ensures forall f :: f in old(db.followings) && f != row ==> unchanged(f)
    ensures CountRows(db.followings, follower, handle) ==
      if old(CountRows(db.followings, follower, handle)) == 0 then 1
      else old(CountRows(db.followings, follower, handle))
    ensures old(UniqueRows(db.followings)) ==> UniqueRows(db.followings)
    ensures old(LinksValid(db)) ==> LinksValid(db)
  {
    var existing := FindByFollowerAndHandle(db, follower, handle);
    if existing == null {
      row := Insert(db, follower, handle, did, displayName, now);
    } else {
      Refresh(db, existing, did, displayName, now);
      row := existing;
    }
  }

  /** The branch of createOrUpdate that persists a new row. */
  method Insert(db: Database, follower: Account, handle: string, did: string, displayName: string,
                now: Timestamp)
    returns (row: Following)
    requires CountRows(db.followings, follower, handle) == 0
    modifies db`followings, db`nextId
    ensures fresh(row)
    ensures db.followings == old(db.followings) + [row]
    ensures row.id == old(db.nextId) && db.nextId == old(db.nextId) + 1
    ensures row.follower == follower && row.blueskyHandle == handle
    ensures row.blueskyDid == did && row.blueskyDisplayName == displayName
    ensures row.followedAt == now && row.syncedAt == now
    ensures row.followed == old(FindCoplaUserByBlueskyHandle(db, handle))
    ensures CountRows(db.followings, follower, handle) == 1
    ensures old(UniqueRows(db.followings)) ==> UniqueRows(db.followings)
  {
    row := NewRow(db, follower, handle, did, displayName, now);
    AppendRow(db, row);
  }

  /** The new row of createOrUpdate, its `followed` resolved once, before it is persisted. */
  method NewRow(db: Database, follower: Account, handle: string, did: string, displayName: string,
                now: Timestamp)
    returns (row: Following)
    modifies db`nextId
    ensures fresh(row)
    ensures row.id == old(db.nextId) && db.nextId == old(db.nextId) + 1
    ensures row.follower == follower && row.blueskyHandle == handle
    ensures row.blueskyDid == did && row.blueskyDisplayName == displayName
    ensures row.followedAt == now && row.syncedAt == now
    ensures row.followed == old(FindCoplaUserByBlueskyHandle(db, handle))
  {
    var copla := FindCoplaUserByBlueskyHandle(db, handle);
    var id := db.NewId();
    row := new Following(id, follower, handle, did, displayName, now);
    row.followed := copla;
  }

  /** `row.persist()` for a row whose pair has none yet. */
  method AppendRow(db: Database, row: Following)
    requires CountRows(db.followings, row.follower, row.blueskyHandle) == 0
    modifies db`followings
    ensures db.followings == old(db.followings) + [row]
    ensures CountRows(db.followings, row.follower, row.blueskyHandle) == 1
    ensures old(UniqueRows(db.followings)) ==> UniqueRows(db.followings)
  {
    ghost var before := db.followings;
    db.followings := db.followings + [row];
    CountAfterAppend(before, row, row.follower, row.blueskyHandle);
    if UniqueRows(before) {
      UniqueAfterAppend(before, row);
    }
  }

  /** Appending a row adds one to its own pair's count. */
  lemma CountAfterAppend(fs: seq<Following>, row: Following, follower: Account, handle: string)
    ensures CountRows(fs + [row], follower, handle)
            == CountRows(fs, follower, handle) + (if IsRowFor(row, follower, handle) then 1 else 0)
  {
    assert (fs + [row])[..|fs|] == fs;
  }

  /** Appending a row for a pair that has none keeps the rows unique. */
  lemma UniqueAfterAppend(fs: seq<Following>, row: Following)
    requires UniqueRows(fs)
    requires CountRows(fs, row.follower, row.blueskyHandle) == 0
    ensures UniqueRows(fs + [row])
  {
    var gs := fs + [row];
    forall i, j | 0 <= i < j < |gs|
      ensures !(gs[i].follower == gs[j].follower && gs[i].blueskyHandle == gs[j].blueskyHandle)
    {
      if j == |fs| {
        assert !IsRowFor(fs[i], row.follower, row.blueskyHandle);
      } else {
        assert gs[i] == fs[i] && gs[j] == fs[j];
      }
    }
  }

  /** The branch of createOrUpdate that refreshes the existing row `row`. */
  method Refresh(db: Database, row: Following, did: string, displayName: string, now: Timestamp)
    requires row in db.followings
    modifies row`blueskyDid, row`blueskyDisplayName, row`syncedAt, row`followed
    ensures row.blueskyDid == did && row.blueskyDisplayName == displayName && row.syncedAt == now
    ensures row.followed == (if old(row.followed) != null then old(row.followed)
                             else old(FindCoplaUserByBlueskyHandle(db, row.blueskyHandle)))
    ensures old(LinksValid(db)) ==> LinksValid(db)
  {
    if row.followed == null {
      var copla := FindCoplaUserByBlueskyHandle(db, row.blueskyHandle);
      if copla != null {
        row.followed := copla;
      }
    }
    row.blueskyDid := did;
    row.blueskyDisplayName := displayName;
    row.syncedAt := now;
  }
}
