/**
 * SocialProfileResource.java: linking a Bluesky identity to the caller's
 * account together with the session credential the follow sync needs, and
 * releasing that credential again. Adding a Bluesky profile and unlinking a
 * social account are the same code as in UserResource and live in
 * SocialProfiles.
 */
module SocialProfileResource {
  import opened Common
  import opened Entities
  import SessionVault
  import Users
  import SocialProfiles

  /** BlueskyLinkRequest; `sessionData` may be absent (null). */
  datatype LinkRequest = LinkRequest(
    blueskyDid: string,
    blueskyHandle: string,
    blueskyDisplayName: string,
    sessionData: Option<string>)

  /**
   * The link stores a usable credential: session data was sent, it is not
   * empty after `trim()`, and the configured key lets the cipher encrypt.
   */
  predicate Sealable(sessionData: Option<string>, key: string) {
    sessionData.Some? && !IsEmptyAfterTrim(sessionData.value) && SessionVault.IsAesKey(key)
  }

  /**
   * The "store sync capabilities" step: a credential that seals is stored
   * and enables sync; otherwise sync is off and the stored blob stays as it
   * was (an encryption failure does not clear it).
   */
  method StoreSession(profile: SocialProfile, sessionData: Option<string>, key: string)
    modifies profile`encryptedSessionData, profile`canSync
    ensures profile.canSync <==> Sealable(sessionData, key)
    ensures profile.canSync ==>
      profile.encryptedSessionData == Some(SessionVault.Sealed(key, sessionData.value))
    ensures !profile.canSync ==> profile.encryptedSessionData == old(profile.encryptedSessionData)
  {
    if sessionData.Some? && !IsEmptyAfterTrim(sessionData.value) {
      var sealed := SessionVault.Encrypt(key, sessionData.value);
      if sealed.Some? {
        profile.encryptedSessionData := sealed;
        profile.canSync := true;
      } else {
        profile.canSync := false;
      }
    } else {
      profile.canSync := false;
    }
  }

  /**
   * The state a successful link leaves in a profile list: its first profile
   * whose platform is exactly "bluesky" carries the request's handle, URL,
   * DID and display name, is verified, and can sync exactly when the
   * credential sealed, in which case it holds the sealed credential.
   */
  predicate IsLinkedTo(ps: seq<SocialProfile>, request: LinkRequest, key: string)
    reads ps`platform, ps`username, ps`profileUrl, ps`did, ps`displayName, ps`isVerified,
          ps`canSync, ps`encryptedSessionData
  {
    && SocialProfiles.FirstBlueskyIndex(ps).Some?
    && var p := ps[SocialProfiles.FirstBlueskyIndex(ps).value];
    && SocialProfiles.LinkedTo(p, request.blueskyHandle, request.blueskyDid, request.blueskyDisplayName)
    && (p.canSync <==> Sealable(request.sessionData, key))
    && (p.canSync ==> p.encryptedSessionData == Some(SessionVault.Sealed(key, request.sessionData.value)))
  }

  /** The writes linking with a session makes on the chosen profile. */
  method WriteLink(profile: SocialProfile, request: LinkRequest, key: string)
    modifies profile`username, profile`profileUrl, profile`did, profile`displayName, profile`isVerified,
             profile`encryptedSessionData, profile`canSync
    ensures SocialProfiles.LinkedTo(profile, request.blueskyHandle, request.blueskyDid, request.blueskyDisplayName)
    ensures profile.canSync <==> Sealable(request.sessionData, key)
    ensures profile.canSync ==>
      profile.encryptedSessionData == Some(SessionVault.Sealed(key, request.sessionData.value))
    ensures !profile.canSync ==> profile.encryptedSessionData == old(profile.encryptedSessionData)
  {
    SocialProfiles.Overwrite(profile, request.blueskyHandle, request.blueskyDid, request.blueskyDisplayName);
    StoreSession(profile, request.sessionData, key);
    assert SocialProfiles.LinkedTo(profile, request.blueskyHandle, request.blueskyDid, request.blueskyDisplayName);
  }

  /**
   * linkBlueskyAccount with session storage, once the account is known: the
   * first profile whose platform is exactly "bluesky" is reused or a new one
   * is appended, and the list ends linked to the request. A credential that
   * does not seal leaves the stored blob as it was.
   */
  method LinkAccount(user: Account, request: LinkRequest, key: string) returns (profile: SocialProfile)
    modifies user`socialProfiles
    modifies user.socialProfiles`username, user.socialProfiles`profileUrl, user.socialProfiles`did,
             user.socialProfiles`displayName, user.socialProfiles`isVerified,
             user.socialProfiles`encryptedSessionData, user.socialProfiles`canSync
    ensures var first := old(SocialProfiles.FirstBlueskyIndex(user.socialProfiles));
      && (first.Some? ==> user.socialProfiles == old(user.socialProfiles)
                          && profile == old(user.socialProfiles[first.value])
                          && (!profile.canSync ==> profile.encryptedSessionData == old(profile.encryptedSessionData)))
      && (first.None? ==> fresh(profile) && user.socialProfiles == old(user.socialProfiles) + [profile]
                          && profile.owner == user
                          && (!profile.canSync ==> profile.encryptedSessionData == None))
    ensures profile.platform == SocialProfiles.Bluesky
    ensures SocialProfiles.LinkedTo(profile, request.blueskyHandle, request.blueskyDid, request.blueskyDisplayName)
    ensures profile.canSync <==> Sealable(request.sessionData, key)
    ensures profile.canSync ==>
      profile.encryptedSessionData == Some(SessionVault.Sealed(key, request.sessionData.value))
    ensures forall q :: q in old(user.socialProfiles) && q != profile ==> unchanged(q)
  {
    profile := SocialProfiles.FindOrCreateBlueskyProfile(user);
    WriteLink(profile, request, key);
  }

  /**
   * linkBlueskyAccount: the guard, then `LinkAccount` on the caller's
   * account. The linked profile is the caller's first Bluesky profile when
   * there was one, otherwise the one appended. No other account changes,
   * and no other profile does either.
   */
  method LinkBlueskyAccount(db: Database, identity: Identity, request: LinkRequest, key: string)
    returns (err: Option<Error>)
    modifies db.users`socialProfiles, db.users`verified
    modifies SocialProfiles.LinkTarget(db, identity)`username, SocialProfiles.LinkTarget(db, identity)`profileUrl,
             SocialProfiles.LinkTarget(db, identity)`did, SocialProfiles.LinkTarget(db, identity)`displayName,
             SocialProfiles.LinkTarget(db, identity)`isVerified, SocialProfiles.LinkTarget(db, identity)`encryptedSessionData,
             SocialProfiles.LinkTarget(db, identity)`canSync
    ensures err == old(SocialProfiles.LinkGuard(db, identity))
    ensures err.Some? ==>
      forall u :: u in db.users ==> u.socialProfiles == old(u.socialProfiles) && u.verified == old(u.verified)
    ensures err.None? ==>
      var user := old(Users.FindByUsername(db, identity.principal.value));
      var first := old(SocialProfiles.FirstBlueskyIndex(user.socialProfiles));
      && (first.Some? ==> user.socialProfiles == old(user.socialProfiles))
      && (first.None? ==> |user.socialProfiles| == |old(user.socialProfiles)| + 1
                          && user.socialProfiles[..|old(user.socialProfiles)|] == old(user.socialProfiles))
      && var p := if first.Some? then user.socialProfiles[first.value]
                  else user.socialProfiles[|old(user.socialProfiles)|];
      && p.platform == SocialProfiles.Bluesky
      && SocialProfiles.LinkedTo(p, request.blueskyHandle, request.blueskyDid, request.blueskyDisplayName)
      && (p.canSync <==> Sealable(request.sessionData, key))
      && (p.canSync ==> p.encryptedSessionData == Some(SessionVault.Sealed(key, request.sessionData.value)))
      && (first.None? ==> fresh(p) && p.owner == user && (!p.canSync ==> p.encryptedSessionData == None))
      && (first.Some? && !p.canSync ==> p.encryptedSessionData == old(p.encryptedSessionData))
      && (forall q :: q in old(user.socialProfiles) && q != p ==> unchanged(q))
      && user.verified == (user.role == "artist" || old(user.verified))
      && (forall u :: u in db.users && u != user ==>
            u.socialProfiles == old(u.socialProfiles) && u.verified == old(u.verified))
  {
    err := SocialProfiles.LinkGuard(db, identity);
    if err.Some? {
      return;
    }
    var user := Users.FindByUsername(db, identity.principal.value);
    var _ := LinkAccount(user, request, key);
    SocialProfiles.PromoteArtist(user);
  }

  /**
   * The session getSessionForSync releases from a profile list: only the
   * first profile that is exactly "bluesky" and verified is considered.
   * None gives 404; one without sync or without a blob gives 404; a blob
   * that does not decrypt gives 500; otherwise its plaintext.
   */
  function SessionOf(ps: seq<SocialProfile>, key: string): (r: Outcome<string>)
    reads ps`platform, ps`isVerified, ps`canSync, ps`encryptedSessionData
    ensures r == Failure(NoVerifiedBluesky) <==> SocialProfiles.FirstVerifiedBlueskyIndex(ps).None?
    ensures r.Success? ==>
      var p := ps[SocialProfiles.FirstVerifiedBlueskyIndex(ps).value];
      p.canSync && p.encryptedSessionData == Some(SessionVault.Sealed(key, r.value)) && SessionVault.IsAesKey(key)
    ensures r.Failure? ==> r.error in {NoVerifiedBluesky, NoSyncCapability, SessionDecryptionFailed}
    ensures SocialProfiles.FirstVerifiedBlueskyIndex(ps).Some? ==>
      var p := ps[SocialProfiles.FirstVerifiedBlueskyIndex(ps).value];
      && ((!p.canSync || p.encryptedSessionData.None?) ==> r == Failure(NoSyncCapability))
      && (p.canSync && p.encryptedSessionData.Some? ==>
            (r == Failure(SessionDecryptionFailed) <==> SessionVault.Decrypt(key, p.encryptedSessionData.value).None?))
      && (p.canSync && p.encryptedSessionData.Some? && SessionVault.Decrypt(key, p.encryptedSessionData.value).Some? ==>
            r == Success(SessionVault.Decrypt(key, p.encryptedSessionData.value).value))
  {
    match SocialProfiles.FirstVerifiedBlueskyIndex(ps)
    case None => Failure(NoVerifiedBluesky)
    case Some(i) =>
      if !ps[i].canSync || ps[i].encryptedSessionData.None? then Failure(NoSyncCapability)
      else
        match SessionVault.Decrypt(key, ps[i].encryptedSessionData.value)
        case None => Failure(SessionDecryptionFailed)
        case Some(data) => Success(data)
  }

  /**
   * getBlueskySessionForSync: the account and ownership checks, then the
   * selection of `SessionOf` on that account's profiles.
   */
  function GetBlueskySessionForSync(db: Database, identity: Identity, username: string, key: string)
    : (r: Outcome<string>)
    reads db`users, db.users, ProfilesOf(db.users)
    ensures SocialProfiles.ProfileGuard(db, identity, username).Some? ==>
      r == Failure(SocialProfiles.ProfileGuard(db, identity, username).value)
    ensures SocialProfiles.ProfileGuard(db, identity, username).None? ==>
      r == SessionOf(Users.FindByUsername(db, username).socialProfiles, key)
    ensures r.Success? ==> identity.principal == Some(username)
  {
    var guard := SocialProfiles.ProfileGuard(db, identity, username);
    if guard.Some? then Failure(guard.value)
    else SessionOf(Users.FindByUsername(db, username).socialProfiles, key)
  }

  /**
   * When the first exact-"bluesky" profile is verified it is also the first
   * verified one, so it alone decides what the sync endpoint releases.
   */
  lemma {:induction false} FirstLinkedProfileDecides(ps: seq<SocialProfile>, key: string)
    requires SocialProfiles.FirstBlueskyIndex(ps).Some?
    requires ps[SocialProfiles.FirstBlueskyIndex(ps).value].isVerified
    ensures SocialProfiles.FirstVerifiedBlueskyIndex(ps) == SocialProfiles.FirstBlueskyIndex(ps)
  {
    var i := SocialProfiles.FirstBlueskyIndex(ps).value;
    var j := SocialProfiles.FirstVerifiedBlueskyIndex(ps);
    assert ps[i].platform == SocialProfiles.Bluesky && ps[i].isVerified;
    assert ps[j.value].platform == SocialProfiles.Bluesky;
  }

  /**
   * Link, then sync: right after a link the sync endpoint releases exactly
   * the credential the link sealed, or answers 404 when it did not seal.
   */
  lemma LinkedSessionIsReleased(ps: seq<SocialProfile>, request: LinkRequest, key: string)
    requires IsLinkedTo(ps, request, key)
    ensures SessionOf(ps, key) ==
      if Sealable(request.sessionData, key) then Success(request.sessionData.value)
      else Failure(NoSyncCapability)
  {
    FirstLinkedProfileDecides(ps, key);
    var p := ps[SocialProfiles.FirstBlueskyIndex(ps).value];
    if Sealable(request.sessionData, key) {
      SessionVault.RoundTrip(key, request.sessionData.value);
      assert p.encryptedSessionData == SessionVault.Encrypt(key, request.sessionData.value);
    } else {
      assert !p.canSync;
    }
  }

  /**
   * Profiles after the first verified Bluesky profile never matter: even
   * one that could sync is ignored when the first one cannot.
   */
  lemma {:induction false} LaterProfilesIgnored(ps: seq<SocialProfile>, qs: seq<SocialProfile>, key: string)
    requires SocialProfiles.FirstVerifiedBlueskyIndex(ps).Some?
    ensures SocialProfiles.FirstVerifiedBlueskyIndex(ps + qs) == SocialProfiles.FirstVerifiedBlueskyIndex(ps)
    ensures SessionOf(ps + qs, key) == SessionOf(ps, key)
  {
    var i := SocialProfiles.FirstVerifiedBlueskyIndex(ps).value;
    var j := SocialProfiles.FirstVerifiedBlueskyIndex(ps + qs);
    assert (ps + qs)[i] == ps[i];
    assert forall k :: 0 <= k < |ps| ==> (ps + qs)[k] == ps[k];
  }
}
