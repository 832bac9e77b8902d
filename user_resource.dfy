/**
 * UserResource.java: the handlers of the /users routes that the model
 * covers. Its addBluesky and unlinkSocialAccount have the same code as in
 * SocialProfileResource.java and are `SocialProfiles.AddBluesky` and
 * `SocialProfiles.UnlinkSocialAccount`; its linkBlueskyAccount differs (it
 * stores no session) and is modelled here, together with the tag,
 * commission-status and artist-listing handlers.
 */
module UserResource {
  import opened Common
  import opened Entities
  import Users
  import Tags
  import Artists
  import Validation
  import SocialProfiles

  /** UserResource.BlueskyLinkRequest. */
  datatype LinkRequest = LinkRequest(blueskyDid: string, blueskyHandle: string, blueskyDisplayName: string)

  /**
   * linkBlueskyAccount without session handling: the guard, then the first
   * profile whose platform is exactly "bluesky" is reused or a new one is
   * appended, it takes the request's handle, URL, DID and display name and
   * is marked verified, and an artist becomes verified. The session fields
   * are never written.
   */
  method LinkBlueskyAccount(db: Database, identity: Identity, request: LinkRequest) returns (err: Option<Error>)
    modifies db.users`socialProfiles, db.users`verified
    modifies SocialProfiles.LinkTarget(db, identity)`username, SocialProfiles.LinkTarget(db, identity)`profileUrl,
             SocialProfiles.LinkTarget(db, identity)`did, SocialProfiles.LinkTarget(db, identity)`displayName,
             SocialProfiles.LinkTarget(db, identity)`isVerified
    ensures err == old(SocialProfiles.LinkGuard(db, identity))
    ensures err.Some? ==>
      forall u :: u in db.users ==> u.socialProfiles == old(u.socialProfiles) && u.verified == old(u.verified)
    ensures err.None? ==>
      var user := old(Users.FindByUsername(db, identity.principal.value));
      var first := old(SocialProfiles.FirstBlueskyIndex(user.socialProfiles));
      && (first.Some? ==> user.socialProfiles == old(user.socialProfiles))
      && (first.None? ==> |user.socialProfiles| == |old(user.socialProfiles)| + 1
                          && user.socialProfiles[..|old(user.socialProfiles)|] == old(user.socialProfiles))
      && var p := if first.Some? then user.socialProfiles[first.value]
                  else user.socialProfiles[|old(user.socialProfiles)|];
      && p.platform == SocialProfiles.Bluesky
      && SocialProfiles.LinkedTo(p, request.blueskyHandle, request.blueskyDid, request.blueskyDisplayName)
      && (first.Some? ==> p.canSync == old(p.canSync) && p.encryptedSessionData == old(p.encryptedSessionData))
      && (first.None? ==> fresh(p) && p.owner == user && !p.canSync && p.encryptedSessionData == None)
      && (forall q :: q in old(user.socialProfiles) && q != p ==> unchanged(q))
      && user.verified == (user.role == "artist" || old(user.verified))
      && (forall u :: u in db.users && u != user ==>
            u.socialProfiles == old(u.socialProfiles) && u.verified == old(u.verified))
  {
    err := SocialProfiles.LinkGuard(db, identity);
    if err.Some? {
      return;
    }
    var user := Users.FindByUsername(db, identity.principal.value);
    var _ := SocialProfiles.LinkProfile(user, request.blueskyHandle, request.blueskyDid,
                                        request.blueskyDisplayName);
    SocialProfiles.PromoteArtist(user);
  }

  /** The `tagName` entry of the request body; a missing entry reads as null. */
  function TagNameOf(request: map<string, Option<string>>): Option<string> {
    if "tagName" in request then request["tagName"] else None
  }

  /**
   * The answer addTagToArtist gives before it changes anything: the artist
   * and ownership checks, then 400 for a null or blank tag name, then 404
   * when no active tag has exactly that name.
   */
  function AddTagCheck(db: Database, identity: Identity, username: string, tagName: Option<string>)
    : (r: Option<Error>)
    reads db`users, db.users`name, db.users`role, db`tags
    ensures Validation.ArtistOwnerGuard(db, identity, username).Some? ==>
      r == Validation.ArtistOwnerGuard(db, identity, username)
    ensures Validation.ArtistOwnerGuard(db, identity, username).None? ==>
      && (r == Some(TagNameRequired) <==> tagName.None? || IsEmptyAfterTrim(tagName.value))
      && (r == Some(TagNotFound) <==>
            tagName.Some? && !IsEmptyAfterTrim(tagName.value) && Tags.FindByName(db, tagName.value).None?)
      && (r.None? <==>
            tagName.Some? && !IsEmptyAfterTrim(tagName.value) && Tags.FindByName(db, tagName.value).Some?)
  {
    var guard := Validation.ArtistOwnerGuard(db, identity, username);
    if guard.Some? then guard
    else if tagName.None? || IsEmptyAfterTrim(tagName.value) then Some(TagNameRequired)
    else if Tags.FindByName(db, tagName.value).None? then Some(TagNotFound)
    else None
  }

  /**
   * addTagToArtist: on success the named tag is in the artist's related
   * tags, appended unless it was already there; no other account changes,
   * and nothing changes on an error.
   */
  method AddTagToArtist(db: Database, identity: Identity, username: string, request: map<string, Option<string>>)
    returns (err: Option<Error>)
    modifies db.users`relatedTags
    ensures err == old(AddTagCheck(db, identity, username, TagNameOf(request)))
    ensures err.Some? ==> forall u :: u in db.users ==> u.relatedTags == old(u.relatedTags)
    ensures err.None? ==>
      var artist := old(Users.FindByUsername(db, username));
      var tag := old(Tags.FindByName(db, TagNameOf(request).value)).value;
      && artist.relatedTags == Some(AppendIfAbsent(old(artist.TagList()), tag))
      && (forall u :: u in db.users && u != artist ==> u.relatedTags == old(u.relatedTags))
  {
    var tagName := TagNameOf(request);
    err := AddTagCheck(db, identity, username, tagName);
    if err.Some? {
      return;
    }
    var tag := Tags.FindByName(db, tagName.value).value;
    var artist := Users.FindByUsername(db, username);
    artist.AddTag(tag);
  }

  /**
   * The answer removeTagFromArtist gives before it changes anything: the
   * artist and ownership checks, then 404 when no active tag has that name,
   * then 404 when the artist's related tags do not hold it.
   */
  function RemoveTagCheck(db: Database, identity: Identity, username: string, tagName: string)
    : (r: Option<Error>)
    reads db`users, db.users`name, db.users`role, db.users`relatedTags, db`tags
    ensures Validation.ArtistOwnerGuard(db, identity, username).Some? ==>
      r == Validation.ArtistOwnerGuard(db, identity, username)
    ensures Validation.ArtistOwnerGuard(db, identity, username).None? ==>
      && (r == Some(TagNotFound) <==> Tags.FindByName(db, tagName).None?)
      && (r == Some(TagNotOnArtist) <==>
            Tags.FindByName(db, tagName).Some?
            && Tags.FindByName(db, tagName).value !in Users.FindByUsername(db, username).TagList())
      && (r.None? <==>
            Tags.FindByName(db, tagName).Some?
            && Tags.FindByName(db, tagName).value in Users.FindByUsername(db, username).TagList())
  {
    var guard := Validation.ArtistOwnerGuard(db, identity, username);
    if guard.Some? then guard
    else
      match Tags.FindByName(db, tagName)
      case None => Some(TagNotFound)
      case Some(tag) =>
        var artist := Users.FindByUsername(db, username);
        if artist.relatedTags.None? || tag !in artist.relatedTags.value then Some(TagNotOnArtist) else None
  }

  /**
   * removeTagFromArtist: on success the tag was among the artist's related
   * tags and its first occurrence leaves them; no other account changes,
   * and nothing changes on an error.
   */
  method RemoveTagFromArtist(db: Database, identity: Identity, username: string, tagName: string)
    returns (err: Option<Error>)
    modifies db.users`relatedTags
    ensures err == old(RemoveTagCheck(db, identity, username, tagName))
    ensures err.Some? ==> forall u :: u in db.users ==> u.relatedTags == old(u.relatedTags)
    ensures err.None? ==>
      var artist := old(Users.FindByUsername(db, username));
      var tag := old(Tags.FindByName(db, tagName)).value;
      && tag in old(artist.TagList())
      && artist.relatedTags == Some(RemoveFirst(old(artist.TagList()), tag))
      && (forall u :: u in db.users && u != artist ==> u.relatedTags == old(u.relatedTags))
  {
    err := RemoveTagCheck(db, identity, username, tagName);
    if err.Some? {
      return;
    }
    var tag := Tags.FindByName(db, tagName).value;
    var artist := Users.FindByUsername(db, username);
    artist.RemoveTag(tag);
  }

  /**
   * Adding a tag the artist did not have and then removing it gives the
   * artist's related tags back.
   */
  lemma AddThenRemoveRestores(tags: seq<Tag>, tag: Tag)
    requires tag !in tags
    ensures RemoveFirst(AppendIfAbsent(tags, tag), tag) == tags
  {
    RemoveUndoesAdd(tags, tag);
  }

  /** The `isOpen` entry of the request body; a missing entry reads as null. */
  function IsOpenOf(request: map<string, Option<bool>>): Option<bool> {
    if "isOpen" in request then request["isOpen"] else None
  }

  /**
   * updateCommissionStatus: the artist and ownership checks, then 400 when
   * `isOpen` is null; otherwise the artist's flag becomes `isOpen`, and the
   * answer echoes the stored flag. No other account changes.
   */
  method UpdateCommissionStatus(db: Database, identity: Identity, username: string,
                                request: map<string, Option<bool>>)
    returns (r: Outcome<bool>)
    modifies db.users`isOpenForCommissions
    ensures var guard := old(Validation.ArtistOwnerGuard(db, identity, username));
      && (guard.Some? ==> r == Failure(guard.value))
      && (guard.None? && IsOpenOf(request).None? ==> r == Failure(IsOpenMissing))
      && (guard.None? && IsOpenOf(request).Some? ==> r == Success(IsOpenOf(request).value))
    ensures r.Failure? ==>
      forall u :: u in db.users ==> u.isOpenForCommissions == old(u.isOpenForCommissions)
    ensures r.Success? ==>
      var artist := old(Users.FindByUsername(db, username));
      && artist.isOpenForCommissions == r.value
      && (forall u :: u in db.users && u != artist ==> u.isOpenForCommissions == old(u.isOpenForCommissions))
  {
    var guard := Validation.ArtistOwnerGuard(db, identity, username);
    if guard.Some? {
      return Failure(guard.value);
    }
    var isOpen := IsOpenOf(request);
    if isOpen.None? {
      return Failure(IsOpenMissing);
    }
    var artist := Users.FindByUsername(db, username);
    artist.SetOpenForCommissions(isOpen.value);
    r := Success(artist.isOpenForCommissions);
  }

  /**
   * getArtists: four query branches, one per combination of present query
   * parameters. Whatever the branch, the answer is the artists selected by
   * every parameter that is present, in table order; with none present,
   * every artist.
   */
  function GetArtists(db: Database, verified: Option<bool>, openForCommissions: Option<bool>)
    : (r: seq<Account>)
    reads db`users, db.users`role, db.users`verified, db.users`isOpenForCommissions
    ensures r == Artists.ArtistsWhere(db.users, verified, openForCommissions)
    ensures forall a :: a in r ==> a in db.users && Artists.Selected(a, verified, openForCommissions)
    ensures forall a :: a in db.users && a.role == "artist"
                        && (verified.Some? ==> a.verified == verified.value)
                        && (openForCommissions.Some? ==> a.isOpenForCommissions == openForCommissions.value)
                        ==> a in r
  {
    if verified.Some? && openForCommissions.Some? then
      Artists.ArtistsWhere(db.users, verified, openForCommissions)
    else if verified.Some? then
      if verified.value then Artists.FindAllVerifiedArtists(db)
      else Artists.ArtistsWhere(db.users, Some(false), None)
    else if openForCommissions.Some? then
      Artists.ArtistsWhere(db.users, None, openForCommissions)
    else
      Artists.FindAllArtists(db)
  }

  /** Both parameters together select exactly the artists each selects alone. */
  lemma BothFiltersIntersect(db: Database, verified: bool, open: bool, a: Account)
    ensures a in GetArtists(db, Some(verified), Some(open)) <==>
      a in GetArtists(db, Some(verified), None) && a in GetArtists(db, None, Some(open))
  {
  }
}
