/**
 * CommissionCardResource.java: reading, creating and deleting an artist's
 * commission card, and creating, updating and deleting its elements.
 * UserResource.java carries the same six handlers with the same code; they
 * are modelled once, here. Every changing handler runs its guards in one
 * fixed order (artist exists, ownership, card exists) before any write.
 */
module CommissionCardResource {
  import opened Common
  import opened Entities
  import Users
  import Validation
  import CommissionCards

  /** The CommissionCardDto fields createCommissionCard reads. */
  datatype CardDetails = CardDetails(title: Option<string>, description: Option<string>)

  /** The CommissionCardElementDto fields createCommissionCardElement reads. */
  datatype ElementRequest = ElementRequest(
    title: Option<string>,
    description: Option<string>,
    price: Option<real>,
    exampleImageUrls: Option<seq<string>>)

  /**
   * A value of the update body (`Map<String, Object>` as Jackson builds it):
   * null, a number, a string, a list, or anything else (a boolean, an object).
   */
  datatype Json = JNull | JNumber(n: real) | JString(s: string) | JList(items: seq<string>) | JOther

  /**
   * getCommissionCard: 404 unless the account is an artist, then 404 unless
   * it has a card; no ownership check, since reading is public.
   */
  function GetCommissionCard(db: Database, username: string): (r: Outcome<CommissionCard?>)
    reads db`users, db.users`name, db.users`role, db.users`commissionCard
    ensures r == Failure(ArtistNotFound) <==> Validation.ValidateArtistExists(db, username).Some?
    ensures r == Failure(CommissionCardNotFound) <==>
      Validation.ValidateArtistExists(db, username).None? && Users.FindByUsername(db, username).commissionCard == null
    ensures r.Success? ==> r.value != null && r.value == Users.FindByUsername(db, username).commissionCard
  {
    match Validation.ValidateArtistExists(db, username)
    case Some(e) => Failure(e)
    case None =>
      var artist := Users.FindByUsername(db, username);
      match Validation.ValidateCommissionCardExists(artist)
      case Some(e) => Failure(e)
      case None => Success(artist.commissionCard)
  }

  /**
   * The guards of every handler that changes a card or its elements:
   * artist exists, then ownership, then card exists.
   */
  function CardGuard(db: Database, identity: Identity, username: string): (r: Option<Error>)
    reads db`users, db.users`name, db.users`role, db.users`commissionCard
    ensures Validation.ArtistOwnerGuard(db, identity, username).Some? ==>
      r == Validation.ArtistOwnerGuard(db, identity, username)
    ensures Validation.ArtistOwnerGuard(db, identity, username).None? ==>
      && (r == Some(CommissionCardNotFound) <==> Users.FindByUsername(db, username).commissionCard == null)
      && (r.None? <==> Users.FindByUsername(db, username).commissionCard != null)
  {
    match Validation.ArtistOwnerGuard(db, identity, username)
    case Some(e) => Some(e)
    case None => Validation.ValidateCommissionCardExists(Users.FindByUsername(db, username))
  }

  /** createCommissionCard's answer before any write: the artist and ownership checks, then 409 when a card exists. */
  function CreateCardCheck(db: Database, identity: Identity, username: string): (r: Option<Error>)
    reads db`users, db.users`name, db.users`role, db.users`commissionCard
    ensures Validation.ArtistOwnerGuard(db, identity, username).Some? ==>
      r == Validation.ArtistOwnerGuard(db, identity, username)
    ensures Validation.ArtistOwnerGuard(db, identity, username).None? ==>
      && (r == Some(CardAlreadyExists) <==> Users.FindByUsername(db, username).commissionCard != null)
      && (r.None? <==> Users.FindByUsername(db, username).commissionCard == null)
  {
    match Validation.ArtistOwnerGuard(db, identity, username)
    case Some(e) => Some(e)
    case None =>
      if Users.FindByUsername(db, username).commissionCard != null then Some(CardAlreadyExists) else None
  }

  /**
   * createCommissionCard: on success a new card with the request's title
   * and description and an empty element list is persisted, and it and the
   * artist refer to each other. On an error nothing changes.
   */
  method CreateCommissionCard(db: Database, identity: Identity, username: string, details: CardDetails)
    returns (err: Option<Error>)
    modifies db`cards, db`nextId, db.users`commissionCard
    ensures err == old(CreateCardCheck(db, identity, username))
    ensures err.Some? ==>
      && db.cards == old(db.cards) && db.nextId == old(db.nextId)
      && forall u :: u in db.users ==> u.commissionCard == old(u.commissionCard)
    ensures err.None? ==>
      var artist := old(Users.FindByUsername(db, username));
      var card := artist.commissionCard;
      && card != null && fresh(card)
      && card.artist == artist
      && card.title == details.title && card.description == details.description
      && card.elements == Some([])
      && db.cards == old(db.cards) + [card]
      && forall u :: u in db.users && u != artist ==> u.commissionCard == old(u.commissionCard)
  {
    err := CreateCardCheck(db, identity, username);
    if err.Some? {
      return;
    }
    var artist := Users.FindByUsername(db, username);
    var id := db.NewId();
    var card := new CommissionCard(id, details.title, details.description);
    artist.commissionCard := card;
    card.artist := artist;
    db.cards := db.cards + [card];
  }

  /**
   * deleteCommissionCard: after the three guards the artist's card link is
   * cleared; on an error nothing changes.
   */
  method DeleteCommissionCard(db: Database, identity: Identity, username: string) returns (err: Option<Error>)
    modifies db.users`commissionCard
    ensures err == old(CardGuard(db, identity, username))
    ensures err.Some? ==> forall u :: u in db.users ==> u.commissionCard == old(u.commissionCard)
    ensures err.None? ==>
      var artist := old(Users.FindByUsername(db, username));
      && artist.commissionCard == null
      && forall u :: u in db.users && u != artist ==> u.commissionCard == old(u.commissionCard)
  {
    err := CardGuard(db, identity, username);
    if err.Some? {
      return;
    }
    var artist := Users.FindByUsername(db, username);
    artist.commissionCard := null;
  }

  /**
   * createCommissionCardElement's answer before any write: the three
   * guards, then 400 for a null or blank title, then for a null or blank
   * description.
   */
  function CreateElementCheck(db: Database, identity: Identity, username: string, request: ElementRequest)
    : (r: Option<Error>)
    reads db`users, db.users`name, db.users`role, db.users`commissionCard
    ensures CardGuard(db, identity, username).Some? ==> r == CardGuard(db, identity, username)
    ensures CardGuard(db, identity, username).None? ==>
      && (r == Some(ElementTitleRequired) <==> request.title.None? || IsEmptyAfterTrim(request.title.value))
      && (r == Some(ElementDescriptionRequired) <==>
            request.title.Some? && !IsEmptyAfterTrim(request.title.value)
            && (request.description.None? || IsEmptyAfterTrim(request.description.value)))
      && (r.None? <==>
            request.title.Some? && !IsEmptyAfterTrim(request.title.value)
            && request.description.Some? && !IsEmptyAfterTrim(request.description.value))
  {
    var guard := CardGuard(db, identity, username);
    if guard.Some? then guard
    else if request.title.None? || IsEmptyAfterTrim(request.title.value) then Some(ElementTitleRequired)
    else if request.description.None? || IsEmptyAfterTrim(request.description.value) then
      Some(ElementDescriptionRequired)
    else None
  }

  /**
   * createCommissionCardElement: on success a new element is persisted and
   * appended to the artist's card. Its title and description are stored
   * trimmed (and so non-empty), its price as given, and its image URLs as a
   * copy of the request's list, or empty when that is null. On an error
   * nothing changes.
   */
  method CreateCommissionCardElement(db: Database, identity: Identity, username: string, request: ElementRequest)
    returns (err: Option<Error>, element: CommissionCardElement?)
    modifies db`elements, db`nextId, CardsOf(db.users)`elements
    ensures err == old(CreateElementCheck(db, identity, username, request))
    ensures err.Some? ==>
      && element == null && db.elements == old(db.elements) && db.nextId == old(db.nextId)
      && forall c :: c in old(CardsOf(db.users)) ==> c.elements == old(c.elements)
    ensures err.None? ==>
      var card := old(Users.FindByUsername(db, username).commissionCard);
      && element != null && fresh(element)
      && db.elements == old(db.elements) + [element]
      && element.card == card
      && element.title == Some(Trim(request.title.value)) && element.title.value != []
      && element.description == Some(Trim(request.description.value)) && element.description.value != []
      && element.price == request.price
      && element.exampleImageUrls == (if request.exampleImageUrls.Some? then request.exampleImageUrls.value else [])
      && card.elements == Some(old(card.ElementList()) + [element])
      && forall c :: c in old(CardsOf(db.users)) && c != card ==> c.elements == old(c.elements)
  {
    err := CreateElementCheck(db, identity, username, request);
    if err.Some? {
      element := null;
      return;
    }
    var artist := Users.FindByUsername(db, username);
    var card := artist.commissionCard;
    var urls := if request.exampleImageUrls.Some? then request.exampleImageUrls.value else [];
    var id := db.NewId();
    element := new CommissionCardElement(id, Some(Trim(request.title.value)), Some(Trim(request.description.value)),
                                         urls, request.price, card);
    card.AddElement(element);
    db.elements := db.elements + [element];
  }

  /**
   * The guards of the element handlers: the three card guards, then 404
   * unless an element with that id exists and belongs to the artist's own
   * card. The source compares the two cards' ids; a persistence context
   * holds one instance per id, so the model compares the instances.
   */
  function ElementGuard(db: Database, identity: Identity, username: string, elementId: nat): (r: Option<Error>)
    reads db`users, db.users`name, db.users`role, db.users`commissionCard
    reads db`elements, db.elements`id, db.elements`card
    ensures CardGuard(db, identity, username).Some? ==> r == CardGuard(db, identity, username)
    ensures CardGuard(db, identity, username).None? ==>
      var e := CommissionCards.FindElementById(db, elementId);
      && (r == Some(ElementNotFound) <==> e == null || e.card != Users.FindByUsername(db, username).commissionCard)
      && (r.None? <==> e != null && e.card == Users.FindByUsername(db, username).commissionCard)
  {
    match CardGuard(db, identity, username)
    case Some(err) => Some(err)
    case None =>
      var card := Users.FindByUsername(db, username).commissionCard;
      var e := CommissionCards.FindElementById(db, elementId);
      if e == null || e.card != card then Some(ElementNotFound) else None
  }

  /** The fields of an element that an update may change. */
  datatype ElementFields = ElementFields(
    title: Option<string>,
    description: Option<string>,
    exampleImageUrls: seq<string>,
    price: Option<real>)

  function FieldsOf(e: CommissionCardElement): ElementFields
    reads e`title, e`description, e`exampleImageUrls, e`price
  {
    ElementFields(e.title, e.description, e.exampleImageUrls, e.price)
  }

  /** A value the `(String)` cast accepts: a string or null. */
  predicate IsTextOrNull(v: Json) {
    v.JString? || v.JNull?
  }

  /** `(String)` applied to a value the cast accepts. */
  function AsText(v: Json): Option<string>
    requires IsTextOrNull(v)
  {
    if v.JString? then Some(v.s) else None
  }

  /**
   * The title and description entries, when present, are strings or null;
   * anything else makes the `(String)` cast throw, and the transaction
   * rolls back.
   */
  predicate TextEntriesCast(updates: map<string, Json>) {
    && ("title" in updates ==> IsTextOrNull(updates["title"]))
    && ("description" in updates ==> IsTextOrNull(updates["description"]))
  }

  /**
   * What a partial update makes of an element's fields: each field changes
   * only when its key is present. A number sets the price and null clears
   * it, any other price value is ignored; a list replaces the image URLs
   * and anything else is ignored; title and description take the string or
   * the null given.
   */
  function ApplyUpdates(f: ElementFields, updates: map<string, Json>): (g: ElementFields)
    requires TextEntriesCast(updates)
    ensures "price" !in updates ==> g.price == f.price
    ensures "price" in updates && updates["price"].JNumber? ==> g.price == Some(updates["price"].n)
    ensures "price" in updates && updates["price"].JNull? ==> g.price == None
    ensures "price" in updates && !updates["price"].JNumber? && !updates["price"].JNull? ==> g.price == f.price
    ensures "exampleImageUrls" in updates && updates["exampleImageUrls"].JList? ==>
      g.exampleImageUrls == updates["exampleImageUrls"].items
    ensures !("exampleImageUrls" in updates && updates["exampleImageUrls"].JList?) ==>
      g.exampleImageUrls == f.exampleImageUrls
    ensures "title" !in updates ==> g.title == f.title
    ensures "title" in updates ==> g.title == AsText(updates["title"])
    ensures "description" !in updates ==> g.description == f.description
    ensures "description" in updates ==> g.description == AsText(updates["description"])
  {
    var price :=
      if "price" !in updates then f.price
      else match updates["price"]
        case JNumber(n) => Some(n)
        case JNull => None
        case _ => f.price;
    var urls :=
      if "exampleImageUrls" in updates && updates["exampleImageUrls"].JList? then updates["exampleImageUrls"].items
      else f.exampleImageUrls;
    var title := if "title" in updates then AsText(updates["title"]) else f.title;
    var description := if "description" in updates then AsText(updates["description"]) else f.description;
    ElementFields(title, description, urls, price)
  }

  /** An empty update body changes nothing. */
  lemma EmptyUpdateChangesNothing(f: ElementFields)
    ensures ApplyUpdates(f, map[]) == f
  {
  }

  /** Sending the same update twice is sending it once. */
  lemma ApplyUpdatesIdempotent(f: ElementFields, updates: map<string, Json>)
    requires TextEntriesCast(updates)
    ensures ApplyUpdates(ApplyUpdates(f, updates), updates) == ApplyUpdates(f, updates)
  {
  }

  /** updateCommissionCardElement's answer before any write: the element guards, then 500 for a failing cast. */
  function UpdateElementCheck(db: Database, identity: Identity, username: string, elementId: nat,
                              updates: map<string, Json>): (r: Option<Error>)
    reads db`users, db.users`name, db.users`role, db.users`commissionCard
    reads db`elements, db.elements`id, db.elements`card
    ensures ElementGuard(db, identity, username, elementId).Some? ==>
      r == ElementGuard(db, identity, username, elementId)
    ensures ElementGuard(db, identity, username, elementId).None? ==>
      && (r == Some(ElementFieldNotText) <==> !TextEntriesCast(updates))
      && (r.None? <==> TextEntriesCast(updates))
  {
    match ElementGuard(db, identity, username, elementId)
    case Some(e) => Some(e)
    case None => if TextEntriesCast(updates) then None else Some(ElementFieldNotText)
  }

  /**
   * updateCommissionCardElement: on success the element's fields are the
   * partial update of the old ones, key by key in the source's order; no
   * other element changes, and nothing changes on an error (a failing cast
   * rolls the whole transaction back).
   */
  method UpdateCommissionCardElement(db: Database, identity: Identity, username: string, elementId: nat,
                                     updates: map<string, Json>) returns (err: Option<Error>)
    modifies db.elements`title, db.elements`description, db.elements`exampleImageUrls, db.elements`price
    ensures err == old(UpdateElementCheck(db, identity, username, elementId, updates))
    ensures err.Some? ==> forall e :: e in db.elements ==> FieldsOf(e) == old(FieldsOf(e))
    ensures err.None? ==>
      var element := old(CommissionCards.FindElementById(db, elementId));
      && FieldsOf(element) == ApplyUpdates(old(FieldsOf(element)), updates)
      && forall e :: e in db.elements && e != element ==> FieldsOf(e) == old(FieldsOf(e))
  {
    err := UpdateElementCheck(db, identity, username, elementId, updates);
    if err.Some? {
      return;
    }
    var element := CommissionCards.FindElementById(db, elementId);
    WriteFields(element, updates);
  }

  /** The four `if (updates.containsKey(...))` steps of the update, in the source's order. */
  method WriteFields(element: CommissionCardElement, updates: map<string, Json>)
    requires TextEntriesCast(updates)
    modifies element`title, element`description, element`exampleImageUrls, element`price
    ensures FieldsOf(element) == ApplyUpdates(old(FieldsOf(element)), updates)
  {
    if "price" in updates {
      match updates["price"]
      case JNumber(n) => element.price := Some(n);
      case JNull => element.price := None;
      case _ =>
    }
    if "exampleImageUrls" in updates {
      match updates["exampleImageUrls"]
      case JList(items) => element.exampleImageUrls := items;
      case _ =>
    }
    if "title" in updates {
      element.title := AsText(updates["title"]);
    }
    if "description" in updates {
      element.description := AsText(updates["description"]);
    }
  }

  /**
   * deleteCommissionCardElement: after the element guards, the element
   * leaves the artist's card list (a null list stays null) and its table;
   * no other card changes, and nothing changes on an error.
   */
  method DeleteCommissionCardElement(db: Database, identity: Identity, username: string, elementId: nat)
    returns (err: Option<Error>)
    modifies db`elements, CardsOf(db.users)`elements
    ensures err == old(ElementGuard(db, identity, username, elementId))
    ensures err.Some? ==>
      db.elements == old(db.elements) && forall c :: c in old(CardsOf(db.users)) ==> c.elements == old(c.elements)
    ensures err.None? ==>
      var card := old(Users.FindByUsername(db, username).commissionCard);
      var element := old(CommissionCards.FindElementById(db, elementId));
      && (old(card.elements).None? ==> card.elements == None)
      && (old(card.elements).Some? ==> card.elements == Some(RemoveFirst(old(card.elements).value, element)))
      && db.elements == RemoveFirst(old(db.elements), element)
      && forall c :: c in old(CardsOf(db.users)) && c != card ==> c.elements == old(c.elements)
  {
    err := ElementGuard(db, identity, username, elementId);
    if err.Some? {
      return;
    }
    var card := Users.FindByUsername(db, username).commissionCard;
    var element := CommissionCards.FindElementById(db, elementId);
    Detach(db, card, element);
  }

  /** `card.removeElement(element); element.delete()`. */
  method Detach(db: Database, card: CommissionCard, element: CommissionCardElement)
    modifies db`elements, card`elements
    ensures old(card.elements).None? ==> card.elements == None
    ensures old(card.elements).Some? ==> card.elements == Some(RemoveFirst(old(card.elements).value, element))
    ensures db.elements == RemoveFirst(old(db.elements), element)
  {
    card.RemoveElement(element);
    db.elements := RemoveFirst(db.elements, element);
  }
}
