/** The records the Kanban server stores and the shapes the client holds. */
module Entities {

  type Id = string

  datatype Option<T> = None | Some(value: T)

  /** A row of the card table; the client holds the same JSON object. */
  datatype Card = Card(
    id: Id,
    title: string,
    description: Option<string>,
    order: real,
    listId: Id,
    dueDate: Option<string>,
    assigneeId: Option<Id>)

  /** A row of the list table. */
  datatype ListRow = ListRow(id: Id, title: string, boardId: Id, order: real)

  /** A row of the board table; `createdAt` is the creation time stamp. */
  datatype BoardRow = BoardRow(id: Id, title: string, workspaceId: Id, bgImage: Option<string>, createdAt: int)

  /** A list as a board read embeds it: the row together with its cards. */
  datatype ListView = ListView(row: ListRow, cards: seq<Card>)

  /** A board as a board read returns it: the row together with its lists. */
  datatype BoardDoc = BoardDoc(row: BoardRow, lists: seq<ListView>)

  /** A row of the activity log; `boardId` is None for the null column value. */
  datatype LogEntry = LogEntry(
    id: Id,
    workspaceId: Id,
    userId: Id,
    action: string,
    entityType: string,
    entityTitle: string,
    boardId: Option<Id>,
    createdAt: int)

  /** An HTTP response: a status code and either a JSON entity or `{ message }`. */
  datatype Body<T> = Json(value: T) | Message(text: string)
  datatype Reply<T> = Reply(status: nat, body: Body<T>)

  /** JavaScript truthiness of an optional string: absent, null and "" are falsy. */
  predicate Truthy(s: Option<string>)
  {
    s.Some? && s.value != ""
  }

  // Projections handed to the generic sequence and ordering functions.
  function CardId(c: Card): Id { c.id }
  function CardKey(c: Card): real { c.order }
  function ListRowId(l: ListRow): Id { l.id }
  function ListKey(l: ListRow): real { l.order }
  function ListViewId(l: ListView): Id { l.row.id }
  function ListViewKey(l: ListView): real { l.row.order }
  function BoardRowId(b: BoardRow): Id { b.id }
  function CardListId(c: Card): Id { c.listId }
  function ListBoardId(l: ListRow): Id { l.boardId }
  function BoardWorkspaceId(b: BoardRow): Id { b.workspaceId }

  /** The ids of a sequence of cards, with multiplicity. */
  function CardIds(cs: seq<Card>): (m: multiset<Id>)
    ensures |m| == |cs|
  {
    if cs == [] then multiset{} else multiset{cs[0].id} + CardIds(cs[1..])
  }

  /** The ids of every card of every list of a board, with multiplicity. */
  function BoardCardIds(ls: seq<ListView>): multiset<Id>
  {
    if ls == [] then multiset{} else CardIds(ls[0].cards) + BoardCardIds(ls[1..])
  }

  lemma {:induction false} CardIdsAppend(a: seq<Card>, b: seq<Card>)
    ensures CardIds(a + b) == CardIds(a) + CardIds(b)
  {
    if a == [] {
      assert a + b == b;
    } else {
      assert (a + b)[1..] == a[1..] + b;
      CardIdsAppend(a[1..], b);
    }
  }

  lemma CardIdsSingle(c: Card)
    ensures CardIds([c]) == multiset{c.id}
  {
    assert [c][1..] == [];
  }

  /** One card between two runs contributes exactly its own id. */
  lemma CardIdsSplit(a: seq<Card>, x: Card, b: seq<Card>)
    ensures CardIds(a + [x] + b) == CardIds(a + b) + multiset{x.id}
  {
    CardIdsAppend(a + [x], b);
    CardIdsAppend(a, [x]);
    CardIdsAppend(a, b);
    CardIdsSingle(x);
  }

  lemma CardIdsDropOne(cs: seq<Card>, i: nat)
    requires i < |cs|
    ensures CardIds(cs[..i] + cs[i + 1..]) + multiset{cs[i].id} == CardIds(cs)
  {
    var a, b, x := cs[..i], cs[i + 1..], cs[i];
    assert cs[i..] == [x] + b;
    assert cs == a + cs[i..];
    assert a + [x] + b == a + ([x] + b);
    CardIdsSplit(a, x, b);
  }

  /** Replacing one list changes the board's card ids by exactly that list's difference. */
  lemma {:induction false} BoardCardIdsUpdate(ls: seq<ListView>, k: nat, v: ListView)
    requires k < |ls|
    ensures BoardCardIds(ls[k := v]) + CardIds(ls[k].cards) == BoardCardIds(ls) + CardIds(v.cards)
  {
    if k > 0 {
      assert ls[k := v][1..] == ls[1..][k - 1 := v];
      assert ls[k := v][0] == ls[0] && ls[1..][k - 1] == ls[k];
      BoardCardIdsUpdate(ls[1..], k - 1, v);
      assert BoardCardIds(ls[k := v]) == CardIds(ls[0].cards) + BoardCardIds(ls[1..][k - 1 := v]);
      assert BoardCardIds(ls) == CardIds(ls[0].cards) + BoardCardIds(ls[1..]);
      calc {
        BoardCardIds(ls[k := v]) + CardIds(ls[k].cards);
        CardIds(ls[0].cards) + (BoardCardIds(ls[1..][k - 1 := v]) + CardIds(ls[1..][k - 1].cards));
        CardIds(ls[0].cards) + (BoardCardIds(ls[1..]) + CardIds(v.cards));
      }
    } else {
      assert ls[k := v][1..] == ls[1..];
    }
  }

  lemma MultisetCancel(a: multiset<Id>, b: multiset<Id>, c: multiset<Id>)
    requires a + c == b + c
    ensures a == b
  {
    forall e ensures a[e] == b[e] {
      assert (a + c)[e] == (b + c)[e];
    }
  }

  /** Replacing a list by one holding the same card ids keeps the board's card ids. */
  lemma BoardCardIdsReplace(ls: seq<ListView>, k: nat, v: ListView)
    requires k < |ls| && CardIds(v.cards) == CardIds(ls[k].cards)
    ensures BoardCardIds(ls[k := v]) == BoardCardIds(ls)
  {
    BoardCardIdsUpdate(ls, k, v);
    MultisetCancel(BoardCardIds(ls[k := v]), BoardCardIds(ls), CardIds(v.cards));
  }

  /** Taking card `x` out of list `s` and putting it into list `d` keeps the board's card ids. */
  lemma BoardCardIdsTransfer(ls: seq<ListView>, s: nat, d: nat, vs: ListView, vd: ListView, x: Id)
    requires s < |ls| && d < |ls| && s != d
    requires CardIds(vs.cards) + multiset{x} == CardIds(ls[s].cards)
    requires CardIds(vd.cards) == CardIds(ls[d].cards) + multiset{x}
    ensures BoardCardIds(ls[s := vs][d := vd]) == BoardCardIds(ls)
  {
    var mid := ls[s := vs];
    BoardCardIdsUpdate(ls, s, vs);
    BoardCardIdsUpdate(mid, d, vd);
    assert mid[d] == ls[d];
    var b0, b1, b2 := BoardCardIds(ls), BoardCardIds(mid), BoardCardIds(mid[d := vd]);
    var cs, cd := CardIds(vs.cards), CardIds(ls[d].cards);
    assert b1 + multiset{x} == b0 by {
      MultisetCancel(b1 + multiset{x}, b0, cs);
    }
    MultisetCancel(b2, b1 + multiset{x}, cd);
  }

  lemma {:induction false} BoardCardIdsAppend(ls: seq<ListView>, v: ListView)
    ensures BoardCardIds(ls + [v]) == BoardCardIds(ls) + CardIds(v.cards)
  {
    if ls == [] {
      assert ls + [v] == [v];
      assert [v][1..] == [];
    } else {
      assert (ls + [v])[1..] == ls[1..] + [v];
      BoardCardIdsAppend(ls[1..], v);
    }
  }
}
