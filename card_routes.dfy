/** The card routes (backend/routes/card.js) over the cards collection:
    `POST /` inserts, `PUT /:id` overwrites fields in place, `DELETE /:id`
    removes. The collection is a map from id to card, changed in place. */
module CardRoutes {
  import opened Common
  import opened CardModel

  type CardId = nat

  /** The `:id` route parameter: a well-formed ObjectId, or a string that is
      not one (casting it throws a CastError). */
  datatype IdParam = ObjectId(id: CardId) | Malformed(raw: string)

  const CreateFailed := "Erreur lors de la création de la carte"
  const UpdateFailed := "Erreur lors de la mise à jour de la carte"
  const DeleteFailed := "Erreur lors de la suppression de la carte"
  const CardNotFound := "Carte non trouvée"
  const CardDeleted := "Carte supprimée avec succès"

  datatype CardBody =
    | Document(id: CardId, card: Card)
    | Notice(text: string)

  datatype CardReply = CardReply(status: nat, body: CardBody)

  /** The update document `{ name, category, price }` applied to a stored
      card: a field whose submitted value is missing is left as it was.
      `findByIdAndUpdate` runs no validators, so a present empty string is
      stored as it is. */
  function Patch(c: Card, input: CardInput): (r: Card)
    requires CastPrice(input.price) != Uncastable
    ensures r.name == (if input.name.Some? then input.name.value else c.name)
    ensures r.category == (if input.category.Some? then input.category.value else c.category)
    ensures CastPrice(input.price).Cast? ==> r.price == CastPrice(input.price).value
    ensures CastPrice(input.price) == Absent ==> r.price == c.price
    ensures input == CardInput(None, None, NoPrice) ==> r == c
  {
    Card(if input.name.Some? then input.name.value else c.name,
         if input.category.Some? then input.category.value else c.category,
         if CastPrice(input.price).Cast? then CastPrice(input.price).value else c.price)
  }

  class CardStore {
    var cards: map<CardId, Card>
    var nextId: CardId

    /** Every stored id was handed out before `nextId`. */
    ghost predicate Valid()
      reads this
    {
      forall id :: id in cards ==> id < nextId
    }

    constructor ()
      ensures Valid() && cards == map[]
    {
      cards := map[];
      nextId := 0;
    }

    /** `router.post('/')`: a card that validates is stored under a fresh id
        and sent back with 201; otherwise 500 and nothing is stored. */
    method Create(input: CardInput) returns (reply: CardReply)
      requires Valid()
      modifies this
      ensures Valid()
      ensures match Validate(input)
              case Rejected(_) =>
                && reply == CardReply(500, Notice(CreateFailed))
                && cards == old(cards) && nextId == old(nextId)
              case Accepted(card) =>
                && old(nextId) !in old(cards)
                && cards == old(cards)[old(nextId) := card]
                && reply == CardReply(201, Document(old(nextId), card))
                && nextId == old(nextId) + 1
    {
      var checked := Validate(input);
      if checked.Rejected? {
        return CardReply(500, Notice(CreateFailed));
      }
      var id := nextId;
      cards := cards[id := checked.card];
      nextId := nextId + 1;
      reply := CardReply(201, Document(id, checked.card));
    }

    /** `router.put('/:id')`: casting the id or the price can throw (500);
        a missing id answers 404; otherwise the card is overwritten in place,
        keeps its id, and is sent back. No other card changes. */
    method Update(param: IdParam, input: CardInput) returns (reply: CardReply)
      requires Valid()
      modifies this
      ensures Valid() && nextId == old(nextId)
      ensures param.Malformed? || CastPrice(input.price) == Uncastable ==>
                reply == CardReply(500, Notice(UpdateFailed)) && cards == old(cards)
      ensures param.ObjectId? && CastPrice(input.price) != Uncastable && param.id !in old(cards) ==>
                reply == CardReply(404, Notice(CardNotFound)) && cards == old(cards)
      ensures param.ObjectId? && CastPrice(input.price) != Uncastable && param.id in old(cards) ==>
                var updated := Patch(old(cards)[param.id], input);
                && cards == old(cards)[param.id := updated]
                && reply == CardReply(200, Document(param.id, updated))
      ensures cards.Keys == old(cards.Keys)
    {
      if param.Malformed? || CastPrice(input.price) == Uncastable {
        return CardReply(500, Notice(UpdateFailed));
      }
      var id := param.id;
      if id !in cards {
        return CardReply(404, Notice(CardNotFound));
      }
      var updated := Patch(cards[id], input);
      cards := cards[id := updated];
      reply := CardReply(200, Document(id, updated));
    }

    /** `router.delete('/:id')`: a malformed id answers 500, a missing id 404;
        otherwise the card is removed and the others are untouched. */
    method Delete(param: IdParam) returns (reply: CardReply)
      requires Valid()
      modifies this
      ensures Valid() && nextId == old(nextId)
      ensures param.Malformed? ==> reply == CardReply(500, Notice(DeleteFailed)) && cards == old(cards)
      ensures param.ObjectId? && param.id !in old(cards) ==>
                reply == CardReply(404, Notice(CardNotFound)) && cards == old(cards)
      ensures param.ObjectId? && param.id in old(cards) ==>
                reply == CardReply(200, Notice(CardDeleted)) && cards == old(cards) - {param.id}
    {
      if param.Malformed? {
        return CardReply(500, Notice(DeleteFailed));
      }
      var id := param.id;
      if id !in cards {
        return CardReply(404, Notice(CardNotFound));
      }
      cards := cards - {id};
      reply := CardReply(200, Notice(CardDeleted));
    }
  }

  /** Deleting the same card twice: the first call removes it, the second
      finds nothing and answers 404. */
  method DeleteTwice(store: CardStore, id: CardId) returns (first: CardReply, second: CardReply)
    requires store.Valid() && id in store.cards
    modifies store
    ensures first == CardReply(200, Notice(CardDeleted))
    ensures second == CardReply(404, Notice(CardNotFound))
    ensures id !in store.cards && store.cards == old(store.cards) - {id}
  {
    first := store.Delete(ObjectId(id));
    second := store.Delete(ObjectId(id));
  }

  /** A created card can be updated and then deleted through the id that
      `Create` sent back, and the store ends as it began. */
  method CreateUpdateDelete(store: CardStore, input: CardInput, change: CardInput)
    returns (created: CardReply, updated: CardReply, deleted: CardReply)
    requires store.Valid() && Validate(input).Accepted? && CastPrice(change.price) != Uncastable
    modifies store
    ensures created.status == 201 && created.body.Document?
    ensures updated == CardReply(200, Document(created.body.id, Patch(Validate(input).card, change)))
    ensures deleted == CardReply(200, Notice(CardDeleted))
    ensures store.cards == old(store.cards)
  {
    created := store.Create(input);
    var id := created.body.id;
    updated := store.Update(ObjectId(id), change);
    deleted := store.Delete(ObjectId(id));
    assert store.cards == old(store.cards)[id := Patch(Validate(input).card, change)] - {id};
  }
}
