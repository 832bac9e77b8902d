/**
 * FollowingDto.java: the view of a follow row that the following list
 * shows, with whether it is linked to a Copla account and whether that
 * account is an artist open for commissions.
 */
module FollowingDtos {
  import opened Common
  import opened Entities
  import Followings

  /** The UserDto fields the view carries. */
  datatype UserSummary = UserSummary(id: nat, name: string, role: string, email: Option<string>)

  /** The linked account: an ArtistDto for role "artist", a UserDto otherwise. */
  datatype CoplaUser =
    | ArtistView(user: UserSummary, verified: bool, isOpenForCommissions: bool)
    | UserView(user: UserSummary)

  datatype FollowingDto = FollowingDto(
    id: nat,
    blueskyHandle: string,
    blueskyDisplayName: string,
    coplaUser: Option<CoplaUser>,
    isLinked: bool,
    isOpenForCommissions: bool,
    followedAt: Timestamp,
    syncedAt: Timestamp)

  function Summary(u: Account): UserSummary
    reads u
  {
    UserSummary(u.id, u.name, u.role, u.email)
  }

  /** `new FollowingDto(following)`. */
  function FromFollowing(f: Following): (d: FollowingDto)
    reads f, f.followed
    ensures d.isLinked <==> f.followed != null
    ensures d.coplaUser.None? <==> f.followed == null
    ensures f.followed == null ==> !d.isOpenForCommissions
    ensures f.followed != null && f.followed.role == "artist" ==>
      d.coplaUser == Some(ArtistView(Summary(f.followed), f.followed.verified, f.followed.isOpenForCommissions))
      && d.isOpenForCommissions == f.followed.isOpenForCommissions
    ensures f.followed != null && f.followed.role != "artist" ==>
      d.coplaUser == Some(UserView(Summary(f.followed))) && !d.isOpenForCommissions
    ensures d.id == f.id && d.blueskyHandle == f.blueskyHandle && d.blueskyDisplayName == f.blueskyDisplayName
    ensures d.followedAt == f.followedAt && d.syncedAt == f.syncedAt
  {
    var linked := f.followed != null;
    var copla :=
      if f.followed == null then None
      else if f.followed.role == "artist" then
        Some(ArtistView(Summary(f.followed), f.followed.verified, f.followed.isOpenForCommissions))
      else Some(UserView(Summary(f.followed)));
    var open := f.followed != null && f.followed.role == "artist" && f.followed.isOpenForCommissions;
    FollowingDto(f.id, f.blueskyHandle, f.blueskyDisplayName, copla, linked, open, f.followedAt, f.syncedAt)
  }

  /**
   * The view and the query agree: among the rows of `follower`, a row's view
   * says "open for commissions" exactly when `findOpenForCommissions`
   * returns it.
   */
  lemma ViewAgreesWithOpenQuery(db: Database, follower: Account, f: Following)
    requires f in Followings.FindByFollower(db, follower)
    ensures FromFollowing(f).isOpenForCommissions <==> f in Followings.FindOpenForCommissions(db, follower)
  {
  }
}
