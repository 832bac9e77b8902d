/**
 * The static operations of CommissionCard.java and the lookups
 * CommissionCardResource.java uses (`findById` on cards and on elements),
 * over the cards and elements tables.
 */
module CommissionCards {
  import opened Common
  import opened Entities

  /** Position of the first card whose id is `id`. */
  function IndexOfCardId(cs: seq<CommissionCard>, id: nat): (r: Option<nat>)
    reads cs`id
    ensures r.Some? ==> r.value < |cs| && cs[r.value].id == id
    ensures r.None? <==> forall k :: 0 <= k < |cs| ==> cs[k].id != id
    decreases |cs|
  {
    if cs == [] then None
    else if cs[0].id == id then Some(0)
    else
      match IndexOfCardId(cs[1..], id)
      case None => None
      case Some(i) => Some(i + 1)
  }

  /** CommissionCard.findById: the card with that id, or null. */
  function FindById(db: Database, id: nat): (r: CommissionCard?)
    reads db`cards, db.cards`id
    ensures r == null <==> forall c :: c in db.cards ==> c.id != id
    ensures r != null ==> r in db.cards && r.id == id
  {
    match IndexOfCardId(db.cards, id)
    case None => null
    case Some(i) => db.cards[i]
  }

  /**
   * Position of the first element whose id is `id`. Deliberately the same
   * search as `IndexOfCardId`: cards and elements share no common type.
   */
  function IndexOfElementId(es: seq<CommissionCardElement>, id: nat): (r: Option<nat>)
    reads es`id
    ensures r.Some? ==> r.value < |es| && es[r.value].id == id
    ensures r.None? <==> forall k :: 0 <= k < |es| ==> es[k].id != id
    decreases |es|
  {
    if es == [] then None
    else if es[0].id == id then Some(0)
    else
      match IndexOfElementId(es[1..], id)
      case None => None
      case Some(i) => Some(i + 1)
  }

  /** CommissionCardElement.findById: the element with that id, or null. */
  function FindElementById(db: Database, id: nat): (r: CommissionCardElement?)
    reads db`elements, db.elements`id
    ensures r == null <==> forall e :: e in db.elements ==> e.id != id
    ensures r != null ==> r in db.elements && r.id == id
  {
    match IndexOfElementId(db.elements, id)
    case None => null
    case Some(i) => db.elements[i]
  }

  /** CommissionCard.add: a new card with an empty element list, persisted last. */
  method Add(db: Database, title: Option<string>, description: Option<string>) returns (card: CommissionCard)
    modifies db`cards, db`nextId
    ensures fresh(card) && db.cards == old(db.cards) + [card]
    ensures card.id == old(db.nextId) && db.nextId == old(db.nextId) + 1
    ensures card.title == title && card.description == description
    ensures card.ElementList() == [] && card.elements.Some? && card.artist == null
  {
    var id := db.NewId();
    card := new CommissionCard(id, title, description);
    db.cards := db.cards + [card];
  }

  /**
   * CommissionCard.update: the card with that id takes the new title and
   * description; with no such card nothing changes. No other card changes.
   */
  method Update(db: Database, id: nat, title: Option<string>, description: Option<string>)
    modifies db.cards`title, db.cards`description
    ensures old(FindById(db, id)) != null ==>
      old(FindById(db, id)).title == title && old(FindById(db, id)).description == description
    ensures forall c :: c in db.cards && c != old(FindById(db, id)) ==>
      c.title == old(c.title) && c.description == old(c.description)
  {
    var card := FindById(db, id);
    if card != null {
      card.title := title;
      card.description := description;
    }
  }

  /** Removing the element just added gives the element list back. */
  lemma RemoveUndoesAddElement(es: seq<CommissionCardElement>, e: CommissionCardElement)
    requires e !in es
    ensures RemoveFirst(es + [e], e) == es
  {
    RemoveUndoesAdd(es, e);
  }
}
