/**
 * The card handlers of the REST API: create (tail-append key), update (partial,
 * including a move to another list) and delete. `fault` stands for any error the
 * store raises during the call; its message becomes the 500 reply.
 */
module CardController {
  import opened Entities
  import opened Seqs
  import opened Ordering
  import opened Store

  /** The keys of the cards of one list, in table order. */
  function CardOrders(cards: seq<Card>, listId: Id): seq<real>
  {
    Orders(CardsOf(cards, listId), CardKey)
  }

  /** The row `createCard` inserts: the list's largest key plus GAP, or GAP for an empty list. */
  function NewCard(cards: seq<Card>, id: Id, listId: Id, title: string, description: Option<string>): (c: Card)
    ensures c.id == id && c.listId == listId && c.title == title && c.description == description
    ensures c.dueDate == None && c.assigneeId == None
    ensures forall i :: 0 <= i < |cards| && cards[i].listId == listId ==> cards[i].order + GAP <= c.order
    ensures CardsOf(cards, listId) == [] ==> c.order == GAP
    ensures CardsOf(cards, listId) != [] ==>
      exists j :: 0 <= j < |cards| && cards[j].listId == listId && cards[j].order + GAP == c.order
  {
    var k := TailKey(CardOrders(cards, listId));
    forall i | 0 <= i < |cards| && cards[i].listId == listId ensures cards[i].order + GAP <= k {
      ListCardKeyIsSibling(cards, listId, i);
    }
    SiblingKeyIsListCard(cards, listId, k - GAP);
    Card(id, title, description, k, listId, None, None)
  }

  /** Every key `createCard` compares against belongs to a card of the list. */
  lemma SiblingKeyIsListCard(cards: seq<Card>, listId: Id, x: real)
    ensures x in CardOrders(cards, listId) ==>
      exists j :: 0 <= j < |cards| && cards[j].listId == listId && cards[j].order == x
  {
    if x in CardOrders(cards, listId) {
      var i :| 0 <= i < |CardOrders(cards, listId)| && CardOrders(cards, listId)[i] == x;
      var c := CardsOf(cards, listId)[i];
      assert c.order == x && c.listId == listId;
      var j :| 0 <= j < |cards| && cards[j] == c;
    }
  }

  /** The key of every card of the list is among the keys `createCard` compares against. */
  lemma ListCardKeyIsSibling(cards: seq<Card>, listId: Id, i: nat)
    requires i < |cards| && cards[i].listId == listId
    ensures cards[i].order in CardOrders(cards, listId)
  {
    WhereExactly(cards, CardListId, listId, cards[i]);
    assert cards[i] in multiset(CardsOf(cards, listId));
    var j :| 0 <= j < |CardsOf(cards, listId)| && CardsOf(cards, listId)[j] == cards[i];
    assert CardOrders(cards, listId)[j] == cards[i].order;
  }

  /** The body of `PUT /cards/:id`; None is a field the body leaves out. */
  datatype CardPatch = CardPatch(
    title: Option<string>,
    description: Option<string>,
    order: Option<real>,
    listId: Option<Id>,
    dueDate: Option<string>,
    assigneeId: Option<Id>)

  /** The row after an update: every field the body gives is overwritten, every other kept. */
  function ApplyPatch(c: Card, p: CardPatch): (r: Card)
    ensures r.id == c.id
    ensures r.title == (if p.title.Some? then p.title.value else c.title)
    ensures r.description == (if p.description.Some? then p.description else c.description)
    ensures r.order == (if p.order.Some? then p.order.value else c.order)
    ensures r.listId == (if p.listId.Some? then p.listId.value else c.listId)
    ensures r.dueDate == (if p.dueDate.Some? then p.dueDate else c.dueDate)
    ensures r.assigneeId == (if p.assigneeId.Some? then p.assigneeId else c.assigneeId)
  {
    Card(c.id,
         if p.title.Some? then p.title.value else c.title,
         if p.description.Some? then p.description else c.description,
         if p.order.Some? then p.order.value else c.order,
         if p.listId.Some? then p.listId.value else c.listId,
         if p.dueDate.Some? then p.dueDate else c.dueDate,
         if p.assigneeId.Some? then p.assigneeId else c.assigneeId)
  }

  /** The body the client sends after a drop: `{ listId, order }` and nothing else. */
  function MovePatch(listId: Id, order: real): CardPatch
  {
    CardPatch(None, None, Some(order), Some(listId), None, None)
  }

  /** A move writes list and key together and leaves every other field as it was. */
  lemma MoveWritesBoth(c: Card, listId: Id, order: real)
    ensures ApplyPatch(c, MovePatch(listId, order)) == c.(listId := listId, order := order)
  {
  }

  /** Applying the same body twice is the same as applying it once. */
  lemma PatchIdempotent(c: Card, p: CardPatch)
    ensures ApplyPatch(ApplyPatch(c, p), p) == ApplyPatch(c, p)
  {
  }

  /** An empty body leaves the row as it was. */
  lemma EmptyPatchIsIdentity(c: Card)
    ensures ApplyPatch(c, CardPatch(None, None, None, None, None, None)) == c
  {
  }

  /** `POST /cards`: insert one card after the list's last card. */
  method CreateCard(db: Db, listId: Id, title: string, description: Option<string>, freshId: Id, fault: Option<string>)
    returns (reply: Reply<Card>)
    requires db.Valid()
    requires FindIndex(db.cards, freshId, CardId) == -1
    modifies db`cards
    ensures db.Valid()
    ensures fault.Some? ==> reply == Reply(500, Message(fault.value)) && db.cards == old(db.cards)
    ensures fault.None? ==>
      var c := NewCard(old(db.cards), freshId, listId, title, description);
      && reply == Reply(201, Json(c))
      && db.cards == old(db.cards) + [c]
  {
    if fault.Some? {
      return Reply(500, Message(fault.value));
    }
    var card := NewCard(db.cards, freshId, listId, title, description);
    db.cards := db.cards + [card];
    reply := Reply(201, Json(card));
  }

  /** `PUT /cards/:id`: one write of every field the body gives; listId and order change together. */
  method UpdateCard(db: Db, id: Id, patch: CardPatch, fault: Option<string>) returns (reply: Reply<Card>)
    requires db.Valid()
    modifies db`cards
    ensures db.Valid()
    ensures var i := FindIndex(old(db.cards), id, CardId);
      if fault.Some? then
        reply == Reply(500, Message(fault.value)) && db.cards == old(db.cards)
      else if i == -1 then
        reply == Reply(500, Message(UpdateNotFound)) && db.cards == old(db.cards)
      else
        var updated := ApplyPatch(old(db.cards)[i], patch);
        reply == Reply(200, Json(updated)) && db.cards == old(db.cards)[i := updated]
  {
    if fault.Some? {
      return Reply(500, Message(fault.value));
    }
    var i := FindIndex(db.cards, id, CardId);
    if i == -1 {
      return Reply(500, Message(UpdateNotFound));
    }
    var updated := ApplyPatch(db.cards[i], patch);
    db.cards := db.cards[i := updated];
    reply := Reply(200, Json(updated));
  }

  /** `DELETE /cards/:id`: remove the one row with that id. */
  method DeleteCard(db: Db, id: Id, fault: Option<string>) returns (reply: Reply<Card>)
    requires db.Valid()
    modifies db`cards
    ensures db.Valid()
    ensures var i := FindIndex(old(db.cards), id, CardId);
      if fault.Some? then
        reply == Reply(500, Message(fault.value)) && db.cards == old(db.cards)
      else if i == -1 then
        reply == Reply(500, Message(DeleteNotFound)) && db.cards == old(db.cards)
      else
        reply == Reply(200, Message("Card deleted")) && db.cards == RemoveAt(old(db.cards), i)
  {
    if fault.Some? {
      return Reply(500, Message(fault.value));
    }
    var i := FindIndex(db.cards, id, CardId);
    if i == -1 {
      return Reply(500, Message(DeleteNotFound));
    }
    db.cards := RemoveAt(db.cards, i);
    reply := Reply(200, Message("Card deleted"));
  }

  /** After a delete no card with that id is left, and every other card is still there. */
  lemma DeleteRemovesOnlyThatCard(cards: seq<Card>, id: Id)
    requires UniqueIds(cards, CardId)
    requires FindIndex(cards, id, CardId) != -1
    ensures var r := RemoveAt(cards, FindIndex(cards, id, CardId));
      && (forall k :: 0 <= k < |r| ==> r[k].id != id)
      && (forall c :: c in cards && c.id != id ==> c in r)
  {
    var i := FindIndex(cards, id, CardId);
    var r := RemoveAt(cards, i);
    forall c | c in cards && c.id != id ensures c in r {
      var k :| 0 <= k < |cards| && cards[k] == c;
      if k < i { assert r[k] == c; } else { assert k > i; assert r[k - 1] == c; }
    }
  }

  /** A sequence of `createCard` requests for one list: (id, title, description) each. */
  function CreateAll(cards: seq<Card>, listId: Id, requests: seq<(Id, string, Option<string>)>): seq<Card>
    decreases |requests|
  {
    if requests == [] then cards
    else
      var (id, title, description) := requests[0];
      CreateAll(cards + [NewCard(cards, id, listId, title, description)], listId, requests[1..])
  }

  lemma {:induction false} CreateAllIsTailAppends(cards: seq<Card>, listId: Id, requests: seq<(Id, string, Option<string>)>)
    ensures CardOrders(CreateAll(cards, listId, requests), listId) == TailAppends(CardOrders(cards, listId), |requests|)
    decreases |requests|
  {
    if requests != [] {
      var (id, title, description) := requests[0];
      var c := NewCard(cards, id, listId, title, description);
      NewCardAppendsTailKey(cards, id, listId, title, description);
      CreateAllIsTailAppends(cards + [c], listId, requests[1..]);
    }
  }

  /** One `createCard` appends the tail key to the list's keys. */
  lemma NewCardAppendsTailKey(cards: seq<Card>, id: Id, listId: Id, title: string, description: Option<string>)
    ensures CardOrders(cards + [NewCard(cards, id, listId, title, description)], listId)
         == CardOrders(cards, listId) + [TailKey(CardOrders(cards, listId))]
  {
    var c := NewCard(cards, id, listId, title, description);
    assert c.order == TailKey(CardOrders(cards, listId)) && CardListId(c) == listId;
    WhereAppend(cards, c, CardListId, listId);
    OrdersAppend(CardsOf(cards, listId), c, CardKey);
  }

  /** Creating N cards one after another in an empty list gives keys 1024, 2048, ..., 1024 N. */
  lemma CreateIntoEmptyList(cards: seq<Card>, listId: Id, requests: seq<(Id, string, Option<string>)>)
    requires CardsOf(cards, listId) == []
    ensures CardOrders(CreateAll(cards, listId, requests), listId) == Multiples(|requests|)
  {
    CreateAllIsTailAppends(cards, listId, requests);
    assert CardOrders(cards, listId) == [];
    TailAppendsFromEmpty(|requests|);
  }
}
