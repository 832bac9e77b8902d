/**
 * The social-profile lists of accounts as the resource handlers read and
 * change them: the Bluesky profile URL, the lookups the handlers make with
 * `stream().filter(...).findFirst()` / `anyMatch(...)`, the guard both
 * resources run first, and the two handlers whose code SocialProfileResource
 * and UserResource share statement for statement (adding a Bluesky profile
 * and unlinking a social account).
 */
module SocialProfiles {
  import opened Common
  import opened Entities
  import Users
  import Validation

  const Bluesky: string := "bluesky"
  const BlueskyProfilePrefix: string := "https://bsky.app/profile/"

  /** `"https://bsky.app/profile/" + handle`. */
  function BlueskyUrl(handle: string): (url: string)
    ensures |url| == |BlueskyProfilePrefix| + |handle|
    ensures url[..|BlueskyProfilePrefix|] == BlueskyProfilePrefix
    ensures url[|BlueskyProfilePrefix|..] == handle
  {
    BlueskyProfilePrefix + handle
  }

  /** Two handles with the same profile URL are the same handle. */
  lemma BlueskyUrlInjective(a: string, b: string)
    requires BlueskyUrl(a) == BlueskyUrl(b)
    ensures a == b
  {
    assert a == BlueskyUrl(a)[|BlueskyProfilePrefix|..];
  }

  // ---------------------------------------------------------------------
  // Lookups over one account's profile list.

  /** Position of the first profile whose platform is exactly "bluesky". */
  function FirstBlueskyIndex(ps: seq<SocialProfile>): (r: Option<nat>)
    reads ps`platform
    ensures r.Some? ==> r.value < |ps| && ps[r.value].platform == Bluesky
    ensures r.Some? ==> forall k :: 0 <= k < r.value ==> ps[k].platform != Bluesky
    ensures r.None? <==> forall k :: 0 <= k < |ps| ==> ps[k].platform != Bluesky
    decreases |ps|
  {
    if ps == [] then None
    else if ps[0].platform == Bluesky then Some(0)
    else
      match FirstBlueskyIndex(ps[1..])
      case None => None
      case Some(i) => Some(i + 1)
  }

  /** `i` is the first position whose platform is exactly "bluesky". */
  lemma FirstBlueskyAt(ps: seq<SocialProfile>, i: nat)
    requires i < |ps| && ps[i].platform == Bluesky
    requires forall k :: 0 <= k < i ==> ps[k].platform != Bluesky
    ensures FirstBlueskyIndex(ps) == Some(i)
  {
  }

  /** How many profiles have platform exactly "bluesky". */
  function CountBluesky(ps: seq<SocialProfile>): (n: nat)
    reads ps`platform
    ensures n == 0 <==> FirstBlueskyIndex(ps).None?
    ensures n <= |ps|
    decreases |ps|
  {
    if ps == [] then 0
    else
      var last := ps[|ps| - 1];
      var n := CountBluesky(ps[..|ps| - 1]) + (if last.platform == Bluesky then 1 else 0);
      assert n == 0 <==> forall k :: 0 <= k < |ps| ==> ps[k].platform != Bluesky by {
        if n == 0 {
          assert forall k :: 0 <= k < |ps| - 1 ==> ps[..|ps| - 1][k] == ps[k];
        }
      }
      n
  }

  /** Appending one profile adds one to the count when it is a Bluesky profile. */
  lemma CountBlueskyAppend(ps: seq<SocialProfile>, p: SocialProfile)
    ensures CountBluesky(ps + [p]) == CountBluesky(ps) + (if p.platform == Bluesky then 1 else 0)
  {
    assert (ps + [p])[..|ps|] == ps;
  }

  /**
   * Position of the first profile that is exactly "bluesky" and verified,
   * the one the sync endpoint considers.
   */
  function FirstVerifiedBlueskyIndex(ps: seq<SocialProfile>): (r: Option<nat>)
    reads ps`platform, ps`isVerified
    ensures r.Some? ==> r.value < |ps| && ps[r.value].platform == Bluesky && ps[r.value].isVerified
    ensures r.Some? ==> forall k :: 0 <= k < r.value ==> !(ps[k].platform == Bluesky && ps[k].isVerified)
    ensures r.None? <==> forall k :: 0 <= k < |ps| ==> !(ps[k].platform == Bluesky && ps[k].isVerified)
    decreases |ps|
  {
    if ps == [] then None
    else if ps[0].platform == Bluesky && ps[0].isVerified then Some(0)
    else
      match FirstVerifiedBlueskyIndex(ps[1..])
      case None => None
      case Some(i) => Some(i + 1)
  }

  /** The profile is on `platform` with username `accountUsername`, both ignoring case. */
  predicate Matches(p: SocialProfile, platform: string, accountUsername: string)
    reads p`platform, p`username
  {
    EqualsIgnoreCase(p.platform, platform) && EqualsIgnoreCase(p.username, accountUsername)
  }

  /** Position of the first profile that `Matches`. */
  function FirstMatchIndex(ps: seq<SocialProfile>, platform: string, accountUsername: string): (r: Option<nat>)
    reads ps`platform, ps`username
    ensures r.Some? ==> r.value < |ps| && Matches(ps[r.value], platform, accountUsername)
    ensures r.Some? ==> forall k :: 0 <= k < r.value ==> !Matches(ps[k], platform, accountUsername)
    ensures r.None? <==> forall k :: 0 <= k < |ps| ==> !Matches(ps[k], platform, accountUsername)
    decreases |ps|
  {
    if ps == [] then None
    else if Matches(ps[0], platform, accountUsername) then Some(0)
    else
      match FirstMatchIndex(ps[1..], platform, accountUsername)
      case None => None
      case Some(i) => Some(i + 1)
  }

  /** The profile is on "bluesky" ignoring case, and verified. */
  predicate IsVerifiedBluesky(p: SocialProfile)
    reads p`platform, p`isVerified
  {
    EqualsIgnoreCase(Bluesky, p.platform) && p.isVerified
  }

  /** `anyMatch(profile -> "bluesky".equalsIgnoreCase(profile.platform) && profile.isVerified)`. */
  predicate HasVerifiedBluesky(ps: seq<SocialProfile>)
    reads ps`platform, ps`isVerified
  {
    exists k :: 0 <= k < |ps| && IsVerifiedBluesky(ps[k])
  }

  /**
   * `List.remove(profile)` applied to the first match removes exactly that
   * position: the profile cannot occur earlier, because an earlier
   * occurrence would have been the first match.
   */
  lemma {:induction false} RemoveFirstMatch(ps: seq<SocialProfile>, platform: string, accountUsername: string)
    requires FirstMatchIndex(ps, platform, accountUsername).Some?
    ensures var i := FirstMatchIndex(ps, platform, accountUsername).value;
            RemoveFirst(ps, ps[i]) == ps[..i] + ps[i + 1..]
  {
    var i := FirstMatchIndex(ps, platform, accountUsername).value;
    var j := IndexOf(ps, ps[i]);
    assert Matches(ps[j], platform, accountUsername);
  }

  // ---------------------------------------------------------------------
  // Changes to one account's profile list.

  /**
   * The `findFirst().orElseGet(...)` step of linking: the first profile
   * whose platform is exactly "bluesky", or a new empty Bluesky profile
   * appended to the list when there is none.
   */
  method FindOrCreateBlueskyProfile(user: Account) returns (profile: SocialProfile)
    modifies user`socialProfiles
    ensures old(FirstBlueskyIndex(user.socialProfiles)).Some? ==>
      && user.socialProfiles == old(user.socialProfiles)
      && profile == old(user.socialProfiles)[old(FirstBlueskyIndex(user.socialProfiles)).value]
    ensures old(FirstBlueskyIndex(user.socialProfiles)).None? ==>
      && fresh(profile)
      && user.socialProfiles == old(user.socialProfiles) + [profile]
      && profile.owner == user && profile.platform == Bluesky
      && !profile.isVerified && !profile.canSync && profile.encryptedSessionData == None
  {
    var i := FirstBlueskyIndex(user.socialProfiles);
    if i.Some? {
      profile := user.socialProfiles[i.value];
    } else {
      profile := new SocialProfile(user, Bluesky, "", "", false);
      user.socialProfiles := user.socialProfiles + [profile];
    }
  }

  /**
   * Linking never makes a second Bluesky profile: the profile appended to a
   * list without one becomes its first and only Bluesky profile.
   */
  lemma {:induction false} AppendedIsOnlyBluesky(ps: seq<SocialProfile>, p: SocialProfile)
    requires FirstBlueskyIndex(ps).None? && p.platform == Bluesky
    ensures FirstBlueskyIndex(ps + [p]) == Some(|ps|)
    ensures CountBluesky(ps + [p]) == 1
  {
    CountBlueskyAppend(ps, p);
    assert forall k :: 0 <= k < |ps| ==> (ps + [p])[k] == ps[k];
    FirstBlueskyAt(ps + [p], |ps|);
  }

  /** The fields a successful link writes on the chosen profile. */
  predicate LinkedTo(p: SocialProfile, handle: string, did: string, displayName: string)
    reads p`username, p`profileUrl, p`did, p`displayName, p`isVerified
  {
    && p.username == handle && p.profileUrl == BlueskyUrl(handle)
    && p.did == Some(did) && p.displayName == Some(displayName) && p.isVerified
  }

  /**
   * The part of linkBlueskyAccount both resources share: find or create the
   * first Bluesky profile, then overwrite handle, URL, DID and display name
   * and mark it verified. The session fields are left as they were.
   */
  method LinkProfile(user: Account, handle: string, did: string, displayName: string)
    returns (profile: SocialProfile)
    modifies user`socialProfiles, user.socialProfiles`username, user.socialProfiles`profileUrl,
             user.socialProfiles`did, user.socialProfiles`displayName, user.socialProfiles`isVerified
    ensures old(FirstBlueskyIndex(user.socialProfiles)).Some? ==>
      && user.socialProfiles == old(user.socialProfiles)
      && profile == old(user.socialProfiles)[old(FirstBlueskyIndex(user.socialProfiles)).value]
      && profile.owner == old(profile.owner) && profile.canSync == old(profile.canSync)
      && profile.encryptedSessionData == old(profile.encryptedSessionData)
    ensures old(FirstBlueskyIndex(user.socialProfiles)).None? ==>
      && fresh(profile)
      && user.socialProfiles == old(user.socialProfiles) + [profile]
      && profile.owner == user && !profile.canSync && profile.encryptedSessionData == None
    ensures profile.platform == Bluesky
    ensures LinkedTo(profile, handle, did, displayName)
    ensures forall q :: q in old(user.socialProfiles) && q != profile ==> unchanged(q)
  {
    profile := FindOrCreateBlueskyProfile(user);
    Overwrite(profile, handle, did, displayName);
  }

  /** The five assignments of a link, and nothing else. */
  method Overwrite(profile: SocialProfile, handle: string, did: string, displayName: string)
    modifies profile`username, profile`profileUrl, profile`did, profile`displayName, profile`isVerified
    ensures LinkedTo(profile, handle, did, displayName)
  {
    profile.username := handle;
    profile.profileUrl := BlueskyUrl(handle);
    profile.did := Some(did);
    profile.displayName := Some(displayName);
    profile.isVerified := true;
  }

  // ---------------------------------------------------------------------
  // The handlers both resources declare with the same code.

  /**
   * validateUserExists, then validateOwnership: the guard of every handler
   * that works on the profiles of the account named in the path.
   */
  function ProfileGuard(db: Database, identity: Identity, username: string): (r: Option<Error>)
    reads db`users, db.users`name
    ensures r == Some(UserNotFound) <==> !Users.ExistsName(db, username)
    ensures r == Some(NotOwner) <==> Users.ExistsName(db, username) && identity.principal != Some(username)
    ensures r.None? <==> Users.ExistsName(db, username) && identity.principal == Some(username)
  {
    var userCheck := Validation.ValidateUserExists(db, username);
    if userCheck.Some? then userCheck else Validation.ValidateOwnership(identity, username)
  }

  /**
   * The checks of linkBlueskyAccount (in both resources), which links the
   * caller's own account:
   * 401 without a principal or for an anonymous identity, then 404 when no
   * account carries the principal's name.
   */
  function LinkGuard(db: Database, identity: Identity): (r: Option<Error>)
    reads db`users, db.users`name
    ensures r == Some(NotAuthenticated) <==> identity.principal.None? || identity.anonymous
    ensures r == Some(UserNotFound) <==>
      identity.principal.Some? && !identity.anonymous && !Users.ExistsName(db, identity.principal.value)
    ensures r.None? <==>
      identity.principal.Some? && !identity.anonymous && Users.ExistsName(db, identity.principal.value)
  {
    if identity.principal.None? || identity.anonymous then Some(NotAuthenticated)
    else if Users.FindByUsername(db, identity.principal.value) == null then Some(UserNotFound)
    else None
  }

  /** The profiles linkBlueskyAccount may change: the caller's own, once the guard passes. */
  function LinkTarget(db: Database, identity: Identity): (ps: seq<SocialProfile>)
    reads db`users, db.users`name, db.users`socialProfiles
    ensures LinkGuard(db, identity).Some? ==> ps == []
    ensures LinkGuard(db, identity).None? ==>
      ps == Users.FindByUsername(db, identity.principal.value).socialProfiles
  {
    if LinkGuard(db, identity).Some? then [] else Users.FindByUsername(db, identity.principal.value).socialProfiles
  }

  /** How both link variants end: an artist account becomes verified, any other stays as it was. */
  method PromoteArtist(user: Account)
    modifies user`verified
    ensures user.verified == (user.role == "artist" || old(user.verified))
  {
    if user.role == "artist" {
      user.verified := true;
    }
  }

  /** The SocialProfileDto fields addBluesky reads. */
  datatype ProfileRequest = ProfileRequest(username: string, isVerified: bool)

  /**
   * addBluesky: always appends one new Bluesky profile (no check for an
   * existing one), and marks an artist verified when the new profile is
   * verified; it never clears the flag.
   */
  method AddBluesky(db: Database, identity: Identity, username: string, request: ProfileRequest)
    returns (err: Option<Error>)
    modifies db.users`socialProfiles, db.users`verified
    ensures err == old(ProfileGuard(db, identity, username)) || err.None?
    ensures old(ProfileGuard(db, identity, username)).Some? ==>
      && err == old(ProfileGuard(db, identity, username))
      && forall u :: u in db.users ==> u.socialProfiles == old(u.socialProfiles) && u.verified == old(u.verified)
    ensures old(ProfileGuard(db, identity, username)).None? ==>
      var user := old(Users.FindByUsername(db, username));
      && err.None?
      && |user.socialProfiles| == |old(user.socialProfiles)| + 1
      && user.socialProfiles[..|old(user.socialProfiles)|] == old(user.socialProfiles)
      && var added := user.socialProfiles[|old(user.socialProfiles)|];
      && fresh(added)
      && added.owner == user && added.platform == Bluesky && added.username == request.username
      && added.profileUrl == BlueskyUrl(request.username) && added.isVerified == request.isVerified
      && added.did.None? && added.displayName.None? && added.encryptedSessionData.None? && !added.canSync
      && user.verified == (old(user.verified) || (user.role == "artist" && request.isVerified))
      && forall u :: u in db.users && u != user ==>
           u.socialProfiles == old(u.socialProfiles) && u.verified == old(u.verified)
  {
    err := ProfileGuard(db, identity, username);
    if err.Some? {
      return;
    }
    var user := Users.FindByUsername(db, username);
    var profile := new SocialProfile(user, Bluesky, request.username, BlueskyUrl(request.username),
                                     request.isVerified);
    user.socialProfiles := user.socialProfiles + [profile];
    if user.role == "artist" && request.isVerified {
      user.verified := true;
    }
  }

  /**
   * unlinkSocialAccount: removes the first profile matching platform and
   * username ignoring case, or answers 404 and removes nothing. An artist
   * loses `verified` only when the path's platform is "bluesky" (ignoring
   * case), the removed profile was verified, and no remaining profile is a
   * verified Bluesky profile.
   */
  method UnlinkSocialAccount(db: Database, identity: Identity, username: string, platform: string,
                             accountUsername: string)
    returns (err: Option<Error>)
    modifies db.users`socialProfiles, db.users`verified
    ensures old(ProfileGuard(db, identity, username)).Some? ==>
      err == old(ProfileGuard(db, identity, username))
    ensures old(ProfileGuard(db, identity, username)).None? ==>
      var user := old(Users.FindByUsername(db, username));
      err == (if old(FirstMatchIndex(user.socialProfiles, platform, accountUsername)).None?
              then Some(SocialAccountNotFound) else None)
    ensures err.Some? ==>
      forall u :: u in db.users ==> u.socialProfiles == old(u.socialProfiles) && u.verified == old(u.verified)
    ensures err.None? ==>
      var user := old(Users.FindByUsername(db, username));
      var i := old(FirstMatchIndex(user.socialProfiles, platform, accountUsername)).value;
      var removed := old(user.socialProfiles[i]);
      && user.socialProfiles == old(user.socialProfiles[..i] + user.socialProfiles[i + 1..])
      && user.verified == (if user.role == "artist" && EqualsIgnoreCase(Bluesky, platform)
                              && old(removed.isVerified) && !HasVerifiedBluesky(user.socialProfiles)
                           then false else old(user.verified))
      && forall u :: u in db.users && u != user ==>
           u.socialProfiles == old(u.socialProfiles) && u.verified == old(u.verified)
    ensures err.None? ==>
      var user := old(Users.FindByUsername(db, username));
      (user.verified != old(user.verified) ==> user.role == "artist" && !HasVerifiedBluesky(user.socialProfiles))
  {
    err := ProfileGuard(db, identity, username);
    if err.Some? {
      return;
    }
    var user := Users.FindByUsername(db, username);
    var i := FirstMatchIndex(user.socialProfiles, platform, accountUsername);
    if i.None? {
      err := Some(SocialAccountNotFound);
      return;
    }
    var profileToRemove := user.socialProfiles[i.value];
    var wasVerifiedBluesky := EqualsIgnoreCase(Bluesky, platform) && profileToRemove.isVerified;
    RemoveFirstMatch(user.socialProfiles, platform, accountUsername);
    user.socialProfiles := RemoveFirst(user.socialProfiles, profileToRemove);
    if user.role == "artist" && wasVerifiedBluesky {
      var hasOtherVerifiedBluesky := HasVerifiedBluesky(user.socialProfiles);
      if !hasOtherVerifiedBluesky {
        user.verified := false;
      }
    }
  }
}
