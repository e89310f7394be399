/**
 * The board handlers of the REST API: create (membership gate), list a workspace's
 * boards (membership gate, newest first) and read one board with its sorted lists
 * and cards (404 before 403). `fault` stands for any error the store raises.
 */
module BoardController {
  import opened Entities
  import opened Seqs
  import opened Ordering
  import opened Store

  const CreateForbidden := "Not authorized to create boards in this workspace"
  const Forbidden := "Not authorized"
  const BoardNotFound := "Board not found"

  /** `POST /boards`: a member of the workspace inserts one board; anyone else gets 403. */
  method CreateBoard(db: Db, userId: Id, title: string, workspaceId: Id, bgImage: Option<string>,
                     freshId: Id, now: int, fault: Option<string>)
    returns (reply: Reply<BoardRow>)
    requires db.Valid()
    requires FindIndex(db.boards, freshId, BoardRowId) == -1
    modifies db`boards
    ensures db.Valid()
    ensures fault.Some? ==> reply == Reply(500, Message(fault.value)) && db.boards == old(db.boards)
    ensures fault.None? && !db.IsMember(workspaceId, userId) ==>
      reply == Reply(403, Message(CreateForbidden)) && db.boards == old(db.boards)
    ensures fault.None? && db.IsMember(workspaceId, userId) ==>
      var b := BoardRow(freshId, title, workspaceId, bgImage, now);
      reply == Reply(201, Json(b)) && db.boards == old(db.boards) + [b]
  {
    if fault.Some? {
      return Reply(500, Message(fault.value));
    }
    if !db.IsMember(workspaceId, userId) {
      return Reply(403, Message(CreateForbidden));
    }
    var board := BoardRow(freshId, title, workspaceId, bgImage, now);
    db.boards := db.boards + [board];
    reply := Reply(201, Json(board));
  }

  /** Sort key for `orderBy: { createdAt: 'desc' }`: ascending in it is newest first. */
  function NewestFirst(b: BoardRow): real { -(b.createdAt as real) }

  /** `GET /boards?workspaceId=`: the workspace's boards, newest first, for members only. */
  function GetBoards(db: Db, userId: Id, workspaceId: Id, fault: Option<string>): (r: Reply<seq<BoardRow>>)
    reads db
    ensures fault.Some? ==> r == Reply(500, Message(fault.value))
    ensures fault.None? && !db.IsMember(workspaceId, userId) ==> r == Reply(403, Message(Forbidden))
    ensures fault.None? && db.IsMember(workspaceId, userId) ==>
      && r.status == 200 && r.body.Json?
      && multiset(r.body.value) == multiset(BoardsOf(db.boards, workspaceId))
      && (forall i, j :: 0 <= i < j < |r.body.value| ==> r.body.value[i].createdAt >= r.body.value[j].createdAt)
  {
    if fault.Some? then Reply(500, Message(fault.value))
    else if !db.IsMember(workspaceId, userId) then Reply(403, Message(Forbidden))
    else
      var boards := SortBy(BoardsOf(db.boards, workspaceId), NewestFirst);
      assert forall i, j :: 0 <= i < j < |boards| ==> NewestFirst(boards[i]) <= NewestFirst(boards[j]);
      Reply(200, Json(boards))
  }

  /** Each returned board belongs to the requested workspace. */
  lemma GetBoardsOnlyThatWorkspace(db: Db, userId: Id, workspaceId: Id, b: BoardRow)
    requires GetBoards(db, userId, workspaceId, None).body.Json?
    requires b in GetBoards(db, userId, workspaceId, None).body.value
    ensures b.workspaceId == workspaceId && b in db.boards
  {
    var r := GetBoards(db, userId, workspaceId, None).body.value;
    assert b in multiset(r);
    assert b in multiset(BoardsOf(db.boards, workspaceId));
    WhereExactly(db.boards, BoardWorkspaceId, workspaceId, b);
  }

  /** Each list row paired with its cards ascending by key (`include: { cards: { orderBy } }`). */
  function WithCards(lists: seq<ListRow>, cards: seq<Card>): (r: seq<ListView>)
    ensures |r| == |lists|
    ensures forall i :: 0 <= i < |r| ==> r[i].row == lists[i]
    ensures forall i :: 0 <= i < |r| ==> SortedBy(r[i].cards, CardKey)
    ensures forall i :: 0 <= i < |r| ==> multiset(r[i].cards) == multiset(CardsOf(cards, lists[i].id))
  {
    seq(|lists|, i requires 0 <= i < |lists| => ListView(lists[i], SortBy(CardsOf(cards, lists[i].id), CardKey)))
  }

  /** The rows of the lists a board read embeds. */
  function Rows(ls: seq<ListView>): (r: seq<ListRow>)
    ensures |r| == |ls| && forall i :: 0 <= i < |ls| ==> r[i] == ls[i].row
  {
    seq(|ls|, i requires 0 <= i < |ls| => ls[i].row)
  }

  /** The board with its lists ascending by key, each with its cards ascending by key. */
  function BoardWithLists(db: Db, board: BoardRow): (doc: BoardDoc)
    reads db
    ensures doc.row == board
    ensures SortedBy(doc.lists, ListViewKey)
    ensures multiset(Rows(doc.lists)) == multiset(ListsOf(db.lists, board.id))
    ensures forall i :: 0 <= i < |doc.lists| ==> SortedBy(doc.lists[i].cards, CardKey)
    ensures forall i :: 0 <= i < |doc.lists| ==>
      multiset(doc.lists[i].cards) == multiset(CardsOf(db.cards, doc.lists[i].row.id))
  {
    var rows := SortBy(ListsOf(db.lists, board.id), ListKey);
    WithCardsKeepsRows(rows, db.cards);
    BoardDoc(board, WithCards(rows, db.cards))
  }

  /** Pairing rows with their cards keeps the rows and so their order. */
  lemma WithCardsKeepsRows(rows: seq<ListRow>, cards: seq<Card>)
    requires SortedBy(rows, ListKey)
    ensures Rows(WithCards(rows, cards)) == rows
    ensures SortedBy(WithCards(rows, cards), ListViewKey)
  {
    var lists := WithCards(rows, cards);
    assert Rows(lists) == rows;
    assert forall i, j :: 0 <= i < j < |lists| ==> ListKey(rows[i]) <= ListKey(rows[j]);
  }

  /** `GET /boards/:id`: 404 for a missing board, checked first; then 403 for a non-member. */
  function GetBoard(db: Db, userId: Id, id: Id, fault: Option<string>): (r: Reply<BoardDoc>)
    reads db
    ensures fault.Some? ==> r == Reply(500, Message(fault.value))
    ensures fault.None? && FindIndex(db.boards, id, BoardRowId) == -1 ==> r == Reply(404, Message(BoardNotFound))
    ensures fault.None? && FindIndex(db.boards, id, BoardRowId) != -1 ==>
      var board := db.boards[FindIndex(db.boards, id, BoardRowId)];
      && (!db.IsMember(board.workspaceId, userId) ==> r == Reply(403, Message(Forbidden)))
      && (db.IsMember(board.workspaceId, userId) ==> r == Reply(200, Json(BoardWithLists(db, board))))
  {
    if fault.Some? then Reply(500, Message(fault.value))
    else
      var i := FindIndex(db.boards, id, BoardRowId);
      if i == -1 then Reply(404, Message(BoardNotFound))
      else
        var board := db.boards[i];
        if !db.IsMember(board.workspaceId, userId) then Reply(403, Message(Forbidden))
        else Reply(200, Json(BoardWithLists(db, board)))
  }

  /**
   * What the client's key computation relies on: a successful read returns the
   * requested board, its lists ascending by key and every list's cards ascending by key.
   */
  lemma GetBoardIsSorted(db: Db, userId: Id, id: Id)
    requires GetBoard(db, userId, id, None).status == 200
    ensures var r := GetBoard(db, userId, id, None);
      && r.body.Json?
      && r.body.value.row.id == id
      && SortedBy(r.body.value.lists, ListViewKey)
      && forall i :: 0 <= i < |r.body.value.lists| ==> SortedBy(r.body.value.lists[i].cards, CardKey)
  {
  }

  /** Every card a successful read embeds is in the table and belongs to the list it is shown in. */
  lemma GetBoardCardsBelong(db: Db, board: BoardRow, i: nat, c: Card)
    requires i < |BoardWithLists(db, board).lists|
    requires c in BoardWithLists(db, board).lists[i].cards
    ensures c in db.cards && c.listId == BoardWithLists(db, board).lists[i].row.id
  {
    var doc := BoardWithLists(db, board);
    assert c in multiset(doc.lists[i].cards);
    WhereExactly(db.cards, CardListId, doc.lists[i].row.id, c);
  }

  /** A non-member is refused whether or not the board has lists and cards: no data leaks. */
  lemma GetBoardRefusesOutsiders(db: Db, userId: Id, id: Id)
    requires FindIndex(db.boards, id, BoardRowId) != -1
    requires !db.IsMember(db.boards[FindIndex(db.boards, id, BoardRowId)].workspaceId, userId)
    ensures GetBoard(db, userId, id, None).status == 403
    ensures !GetBoard(db, userId, id, None).body.Json?
  {
  }
}
