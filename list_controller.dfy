/**
 * The list handlers of the REST API: create (tail-append key), update (title and
 * key only) and delete. `fault` stands for any error the store raises during the call.
 */
module ListController {
  import opened Entities
  import opened Seqs
  import opened Ordering
  import opened Store

  /** The keys of the lists of one board, in table order. */
  function ListOrders(lists: seq<ListRow>, boardId: Id): seq<real>
  {
    Orders(ListsOf(lists, boardId), ListKey)
  }

  /** The row `createList` inserts: the board's largest list key plus GAP, or GAP for an empty board. */
  function NewList(lists: seq<ListRow>, id: Id, boardId: Id, title: string): (l: ListRow)
    ensures l.id == id && l.boardId == boardId && l.title == title
    ensures forall i :: 0 <= i < |lists| && lists[i].boardId == boardId ==> lists[i].order + GAP <= l.order
    ensures ListsOf(lists, boardId) == [] ==> l.order == GAP
    ensures ListsOf(lists, boardId) != [] ==>
      exists j :: 0 <= j < |lists| && lists[j].boardId == boardId && lists[j].order + GAP == l.order
  {
    var k := TailKey(ListOrders(lists, boardId));
    forall i | 0 <= i < |lists| && lists[i].boardId == boardId ensures lists[i].order + GAP <= k {
      BoardListKeyIsSibling(lists, boardId, i);
    }
    SiblingKeyIsBoardList(lists, boardId, k - GAP);
    ListRow(id, title, boardId, k)
  }

  /** Every key `createList` compares against belongs to a list of the board. */
  lemma SiblingKeyIsBoardList(lists: seq<ListRow>, boardId: Id, x: real)
    ensures x in ListOrders(lists, boardId) ==>
      exists j :: 0 <= j < |lists| && lists[j].boardId == boardId && lists[j].order == x
  {
    if x in ListOrders(lists, boardId) {
      var i :| 0 <= i < |ListOrders(lists, boardId)| && ListOrders(lists, boardId)[i] == x;
      var l := ListsOf(lists, boardId)[i];
      assert l.order == x && l.boardId == boardId;
      var j :| 0 <= j < |lists| && lists[j] == l;
    }
  }

  /** The key of every list of the board is among the keys `createList` compares against. */
  lemma BoardListKeyIsSibling(lists: seq<ListRow>, boardId: Id, i: nat)
    requires i < |lists| && lists[i].boardId == boardId
    ensures lists[i].order in ListOrders(lists, boardId)
  {
    WhereExactly(lists, ListBoardId, boardId, lists[i]);
    assert lists[i] in multiset(ListsOf(lists, boardId));
    var j :| 0 <= j < |ListsOf(lists, boardId)| && ListsOf(lists, boardId)[j] == lists[i];
    assert ListOrders(lists, boardId)[j] == lists[i].order;
  }

  /** The row after `{ title, order }`: given fields overwritten; id and boardId never change. */
  function ApplyListPatch(l: ListRow, title: Option<string>, order: Option<real>): (r: ListRow)
    ensures r.id == l.id && r.boardId == l.boardId
    ensures r.title == (if title.Some? then title.value else l.title)
    ensures r.order == (if order.Some? then order.value else l.order)
  {
    l.(title := if title.Some? then title.value else l.title,
       order := if order.Some? then order.value else l.order)
  }

  /** `POST /lists`: insert one list after the board's last list. */
  method CreateList(db: Db, boardId: Id, title: string, freshId: Id, fault: Option<string>)
    returns (reply: Reply<ListRow>)
    requires db.Valid()
    requires FindIndex(db.lists, freshId, ListRowId) == -1
    modifies db`lists
    ensures db.Valid()
    ensures fault.Some? ==> reply == Reply(500, Message(fault.value)) && db.lists == old(db.lists)
    ensures fault.None? ==>
      var l := NewList(old(db.lists), freshId, boardId, title);
      && reply == Reply(201, Json(l))
      && db.lists == old(db.lists) + [l]
  {
    if fault.Some? {
      return Reply(500, Message(fault.value));
    }
    var list := NewList(db.lists, freshId, boardId, title);
    db.lists := db.lists + [list];
    reply := Reply(201, Json(list));
  }

  /** `PUT /lists/:id`: overwrite the given title and key of that one list. */
  method UpdateList(db: Db, id: Id, title: Option<string>, order: Option<real>, fault: Option<string>)
    returns (reply: Reply<ListRow>)
    requires db.Valid()
    modifies db`lists
    ensures db.Valid()
    ensures var i := FindIndex(old(db.lists), id, ListRowId);
      if fault.Some? then
        reply == Reply(500, Message(fault.value)) && db.lists == old(db.lists)
      else if i == -1 then
        reply == Reply(500, Message(UpdateNotFound)) && db.lists == old(db.lists)
      else
        var updated := ApplyListPatch(old(db.lists)[i], title, order);
        reply == Reply(200, Json(updated)) && db.lists == old(db.lists)[i := updated]
  {
    if fault.Some? {
      return Reply(500, Message(fault.value));
    }
    var i := FindIndex(db.lists, id, ListRowId);
    if i == -1 {
      return Reply(500, Message(UpdateNotFound));
    }
    var updated := ApplyListPatch(db.lists[i], title, order);
    db.lists := db.lists[i := updated];
    reply := Reply(200, Json(updated));
  }

  /** `DELETE /lists/:id`: remove the one row with that id. */
  method DeleteList(db: Db, id: Id, fault: Option<string>) returns (reply: Reply<ListRow>)
    requires db.Valid()
    modifies db`lists
    ensures db.Valid()
    ensures var i := FindIndex(old(db.lists), id, ListRowId);
      if fault.Some? then
        reply == Reply(500, Message(fault.value)) && db.lists == old(db.lists)
      else if i == -1 then
        reply == Reply(500, Message(DeleteNotFound)) && db.lists == old(db.lists)
      else
        reply == Reply(200, Message("List deleted")) && db.lists == RemoveAt(old(db.lists), i)
  {
    if fault.Some? {
      return Reply(500, Message(fault.value));
    }
    var i := FindIndex(db.lists, id, ListRowId);
    if i == -1 {
      return Reply(500, Message(DeleteNotFound));
    }
    db.lists := RemoveAt(db.lists, i);
    reply := Reply(200, Message("List deleted"));
  }

  /** An update keeps every list on the board it was on, and changes no other row. */
  lemma UpdateKeepsBoards(lists: seq<ListRow>, i: nat, title: Option<string>, order: Option<real>)
    requires i < |lists|
    ensures var r := lists[i := ApplyListPatch(lists[i], title, order)];
      forall k :: 0 <= k < |lists| ==>
        r[k].id == lists[k].id && r[k].boardId == lists[k].boardId && (k != i ==> r[k] == lists[k])
  {
  }

  /** A sequence of `createList` requests for one board: (id, title) each. */
  function CreateAll(lists: seq<ListRow>, boardId: Id, requests: seq<(Id, string)>): seq<ListRow>
    decreases |requests|
  {
    if requests == [] then lists
    else
      var (id, title) := requests[0];
      CreateAll(lists + [NewList(lists, id, boardId, title)], boardId, requests[1..])
  }

  lemma {:induction false} CreateAllIsTailAppends(lists: seq<ListRow>, boardId: Id, requests: seq<(Id, string)>)
    ensures ListOrders(CreateAll(lists, boardId, requests), boardId) == TailAppends(ListOrders(lists, boardId), |requests|)
    decreases |requests|
  {
    if requests != [] {
      var (id, title) := requests[0];
      var l := NewList(lists, id, boardId, title);
      NewListAppendsTailKey(lists, id, boardId, title);
      CreateAllIsTailAppends(lists + [l], boardId, requests[1..]);
    }
  }

  /** One `createList` appends the tail key to the board's keys. */
  lemma NewListAppendsTailKey(lists: seq<ListRow>, id: Id, boardId: Id, title: string)
    ensures ListOrders(lists + [NewList(lists, id, boardId, title)], boardId)
         == ListOrders(lists, boardId) + [TailKey(ListOrders(lists, boardId))]
  {
    var l := NewList(lists, id, boardId, title);
    assert l.order == TailKey(ListOrders(lists, boardId)) && ListBoardId(l) == boardId;
    WhereAppend(lists, l, ListBoardId, boardId);
    OrdersAppend(ListsOf(lists, boardId), l, ListKey);
  }

  /** Appending N lists to an empty board gives keys 1024, 2048, ..., 1024 N. */
  lemma CreateIntoEmptyBoard(lists: seq<ListRow>, boardId: Id, requests: seq<(Id, string)>)
    requires ListsOf(lists, boardId) == []
    ensures ListOrders(CreateAll(lists, boardId, requests), boardId) == Multiples(|requests|)
  {
    CreateAllIsTailAppends(lists, boardId, requests);
    assert ListOrders(lists, boardId) == [];
    TailAppendsFromEmpty(|requests|);
  }
}
