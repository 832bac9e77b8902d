/**
 * The persistent entities (User/Artist, SocialProfile, Following, Tag,
 * CommissionCard, CommissionCardElement) and the in-memory database that
 * stands for the Panache tables. An entity whose fields the source updates
 * in place is a class; Tag, which the modelled code never changes after
 * creation, is a value. `persist()` of a new entity appends it to its table;
 * `persist()` of a managed entity is the field assignments themselves.
 */
module Entities {
  import opened Common
  import SessionVault

  /** Tag.java:8-21. Tags are compared by identity in the source; the id keeps equal values apart. */
  datatype Tag = Tag(id: nat, name: string, description: string, category: string, isActive: bool)

  /**
   * SocialProfile.java:8-27, plus the two fields SocialProfileResource reads
   * and writes: the sealed session blob and whether the profile can sync.
   */
  class SocialProfile {
    var owner: Account
    var platform: string
    var username: string
    var profileUrl: string
    var isVerified: bool
    var did: Option<string>
    var displayName: Option<string>
    var encryptedSessionData: Option<SessionVault.Ciphertext>
    var canSync: bool

    constructor (owner: Account, platform: string, username: string, profileUrl: string, isVerified: bool)
      ensures this.owner == owner && this.platform == platform && this.username == username
      ensures this.profileUrl == profileUrl && this.isVerified == isVerified
      ensures did == None && displayName == None && encryptedSessionData == None && !canSync
    {
      this.owner := owner;
      this.platform := platform;
      this.username := username;
      this.profileUrl := profileUrl;
      this.isVerified := isVerified;
      did := None;
      displayName := None;
      encryptedSessionData := None;
      canSync := false;
    }
  }

  /**
   * User.java:14-36 and its subclass Artist.java:15-26 in one class. An
   * account created as an artist has role "artist"; the artist fields of any
   * other account keep their initial values.
   */
  class Account {
    var id: nat
    var name: string
    var role: string
    var email: Option<string>
    var timeCreated: Timestamp
    var socialProfiles: seq<SocialProfile>
    var verified: bool
    var isOpenForCommissions: bool
    var relatedTags: Option<seq<Tag>>
    var commissionCard: CommissionCard?

    /** A plain user: `new User()` with the fields `User.add` assigns. */
    constructor User(id: nat, name: string, email: Option<string>, now: Timestamp)
      ensures this.id == id && this.name == name && role == "user" && this.email == email
      ensures timeCreated == now && socialProfiles == []
      ensures !verified && !isOpenForCommissions && relatedTags == None && commissionCard == null
    {
      this.id := id;
      this.name := name;
      role := "user";
      this.email := email;
      timeCreated := now;
      socialProfiles := [];
      verified := false;
      isOpenForCommissions := false;
      relatedTags := None;
      commissionCard := null;
    }

    /** An artist: `new Artist()` with the fields `Artist.add` assigns. */
    constructor Artist(id: nat, name: string, email: Option<string>, verified: bool, now: Timestamp)
      ensures this.id == id && this.name == name && role == "artist" && this.email == email
      ensures timeCreated == now && socialProfiles == [] && this.verified == verified
      ensures !isOpenForCommissions && relatedTags == None && commissionCard == null
    {
      this.id := id;
      this.name := name;
      role := "artist";
      this.email := email;
      timeCreated := now;
      socialProfiles := [];
      this.verified := verified;
      isOpenForCommissions := false;
      relatedTags := None;
      commissionCard := null;
    }

    /** The related tags, reading a null list as empty. */
    function TagList(): seq<Tag>
      reads this`relatedTags
    {
      if relatedTags.Some? then relatedTags.value else []
    }

    /**
     * Artist.addTag: a null list becomes a list; the tag is appended unless
     * it is already there.
     */
    method AddTag(tag: Tag)
      modifies this`relatedTags
      ensures relatedTags == Some(AppendIfAbsent(old(TagList()), tag))
    {
      var tags := if relatedTags.Some? then relatedTags.value else [];
      if tag !in tags {
        tags := tags + [tag];
      }
      relatedTags := Some(tags);
    }

    /** Artist.removeTag: nothing on a null list, else the first occurrence goes. */
    method RemoveTag(tag: Tag)
      modifies this`relatedTags
      ensures old(relatedTags).None? ==> relatedTags == None
      ensures old(relatedTags).Some? ==> relatedTags == Some(RemoveFirst(old(relatedTags).value, tag))
    {
      if relatedTags.Some? {
        relatedTags := Some(RemoveFirst(relatedTags.value, tag));
      }
    }

    /** Artist.setOpenForCommissions. */
    method SetOpenForCommissions(isOpen: bool)
      modifies this`isOpenForCommissions
      ensures isOpenForCommissions == isOpen
    {
      isOpenForCommissions := isOpen;
    }
  }

  /** Following.java:10-24: account `follower` follows the Bluesky handle `blueskyHandle`. */
  class Following {
    var id: nat
    var follower: Account
    var followed: Account?
    var blueskyHandle: string
    var blueskyDid: string
    var blueskyDisplayName: string
    var followedAt: Timestamp
    var syncedAt: Timestamp

    constructor (id: nat, follower: Account, blueskyHandle: string, blueskyDid: string, displayName: string,
                 now: Timestamp)
      ensures this.id == id && this.follower == follower && this.blueskyHandle == blueskyHandle
      ensures this.blueskyDid == blueskyDid && blueskyDisplayName == displayName
      ensures followedAt == now && syncedAt == now && followed == null
    {
      this.id := id;
      this.follower := follower;
      this.blueskyHandle := blueskyHandle;
      this.blueskyDid := blueskyDid;
      blueskyDisplayName := displayName;
      followedAt := now;
      syncedAt := now;
      followed := null;
    }
  }

  /** CommissionCard.java:13-22. */
  class CommissionCard {
    var id: nat
    var title: Option<string>
    var description: Option<string>
    var elements: Option<seq<CommissionCardElement>>
    var artist: Account?

    /** A card with an empty element list, as every creating path in the source builds it. */
    constructor (id: nat, title: Option<string>, description: Option<string>)
      ensures this.id == id && this.title == title && this.description == description
      ensures elements == Some([]) && artist == null
    {
      this.id := id;
      this.title := title;
      this.description := description;
      elements := Some([]);
      artist := null;
    }

    function ElementList(): seq<CommissionCardElement>
      reads this`elements
    {
      if elements.Some? then elements.value else []
    }

    /** CommissionCard.addElement: a null list becomes a list; the element goes last. */
    method AddElement(element: CommissionCardElement)
      modifies this`elements
      ensures elements == Some(old(ElementList()) + [element])
    {
      var es := if elements.Some? then elements.value else [];
      elements := Some(es + [element]);
    }

    /** CommissionCard.removeElement: nothing on a null list, else the first occurrence goes. */
    method RemoveElement(element: CommissionCardElement)
      modifies this`elements
      ensures old(elements).None? ==> elements == None
      ensures old(elements).Some? ==> elements == Some(RemoveFirst(old(elements).value, element))
    {
      if elements.Some? {
        elements := Some(RemoveFirst(elements.value, element));
      }
    }
  }

  /** CommissionCardElement.java:11-25. The price is a Java `Double`, kept as a real. */
  class CommissionCardElement {
    var id: nat
    var title: Option<string>
    var description: Option<string>
    var exampleImageUrls: seq<string>
    var price: Option<real>
    var card: CommissionCard

    constructor (id: nat, title: Option<string>, description: Option<string>,
                 exampleImageUrls: seq<string>, price: Option<real>, card: CommissionCard)
      ensures this.id == id && this.title == title && this.description == description
      ensures this.exampleImageUrls == exampleImageUrls && this.price == price && this.card == card
    {
      this.id := id;
      this.title := title;
      this.description := description;
      this.exampleImageUrls := exampleImageUrls;
      this.price := price;
      this.card := card;
    }
  }

  /**
   * The tables, in insertion order (the order `firstResult()` and `list()`
   * see), and the id sequence Panache draws from on `persist()`.
   */
  class Database {
    var users: seq<Account>
    var followings: seq<Following>
    var tags: seq<Tag>
    var cards: seq<CommissionCard>
    var elements: seq<CommissionCardElement>
    var nextId: nat

    constructor ()
      ensures users == [] && followings == [] && tags == [] && cards == [] && elements == []
    {
      users, followings, tags, cards, elements := [], [], [], [], [];
      nextId := 0;
    }

    /** Draws a fresh id: every id handed out so far is below `nextId`. */
    method NewId() returns (id: nat)
      modifies this`nextId
      ensures id == old(nextId) && nextId == id + 1
    {
      id := nextId;
      nextId := nextId + 1;
    }
  }

  /** Every social profile of every account in `users`. */
  function ProfilesOf(users: seq<Account>): (r: set<SocialProfile>)
    reads users`socialProfiles
    ensures forall u, p :: u in users && p in u.socialProfiles ==> p in r
  {
    set u, p | u in users && p in u.socialProfiles :: p
  }

  /** The commission cards the accounts in `users` point to. */
  function CardsOf(users: seq<Account>): set<CommissionCard>
    reads users`commissionCard
  {
    set u | u in users && u.commissionCard != null :: u.commissionCard
  }
}
