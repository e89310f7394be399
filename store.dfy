/**
 * The relational store the controllers read and write: one sequence of rows per
 * table, plus the workspace membership relation and the append-only activity log.
 */
module Store {
  import opened Entities
  import opened Seqs

  /** The message of the store's error when an update finds no row with the id. */
  const UpdateNotFound := "Record to update not found."
  /** The message of the store's error when a delete finds no row with the id. */
  const DeleteNotFound := "Record to delete does not exist."

  /**
   * The rows whose parent column holds `parent`, in table order: the store's
   * `where: { <parent column>: parent }` on one table.
   */
  function Where<T>(rows: seq<T>, parentOf: T -> Id, parent: Id): (r: seq<T>)
    ensures |r| <= |rows|
    ensures forall i :: 0 <= i < |r| ==> parentOf(r[i]) == parent && r[i] in rows
  {
    if rows == [] then []
    else
      assert rows == [rows[0]] + rows[1..];
      (if parentOf(rows[0]) == parent then [rows[0]] else []) + Where(rows[1..], parentOf, parent)
  }

  /** The cards of one list (`where: { listId }`). */
  function CardsOf(cards: seq<Card>, listId: Id): seq<Card>
  {
    Where(cards, CardListId, listId)
  }

  /** The lists of one board (`where: { boardId }`). */
  function ListsOf(lists: seq<ListRow>, boardId: Id): seq<ListRow>
  {
    Where(lists, ListBoardId, boardId)
  }

  /** The boards of one workspace (`where: { workspaceId }`). */
  function BoardsOf(boards: seq<BoardRow>, workspaceId: Id): seq<BoardRow>
  {
    Where(boards, BoardWorkspaceId, workspaceId)
  }

  /** The filter keeps each row of that parent, as often as the table holds it, and nothing else. */
  lemma {:induction false} WhereExactly<T>(rows: seq<T>, parentOf: T -> Id, parent: Id, x: T)
    ensures multiset(Where(rows, parentOf, parent))[x] == if parentOf(x) == parent then multiset(rows)[x] else 0
  {
    if rows != [] {
      assert rows == [rows[0]] + rows[1..];
      WhereExactly(rows[1..], parentOf, parent, x);
    }
  }

  /** Appending a row to the table appends it to the filter exactly when it has that parent. */
  lemma {:induction false} WhereAppend<T>(rows: seq<T>, x: T, parentOf: T -> Id, parent: Id)
    ensures Where(rows + [x], parentOf, parent) == Where(rows, parentOf, parent) + (if parentOf(x) == parent then [x] else [])
  {
    if rows == [] {
      assert rows + [x] == [x];
      assert [x][1..] == [];
    } else {
      var head := if parentOf(rows[0]) == parent then [rows[0]] else [];
      var tail := if parentOf(x) == parent then [x] else [];
      assert (rows + [x])[0] == rows[0];
      assert (rows + [x])[1..] == rows[1..] + [x];
      WhereAppend(rows[1..], x, parentOf, parent);
      calc {
        Where(rows + [x], parentOf, parent);
        head + Where(rows[1..] + [x], parentOf, parent);
        head + (Where(rows[1..], parentOf, parent) + tail);
        (head + Where(rows[1..], parentOf, parent)) + tail;
      }
    }
  }

  /** The database. The controllers receive it and change only the tables they write. */
  class Db {
    var cards: seq<Card>
    var lists: seq<ListRow>
    var boards: seq<BoardRow>
    /** Pairs (workspaceId, userId) of the workspace membership table. */
    var members: set<(Id, Id)>
    var activity: seq<LogEntry>

    /** The primary-key constraints of the three entity tables. */
    ghost predicate Valid()
      reads this
    {
      && UniqueIds(cards, CardId)
      && UniqueIds(lists, ListRowId)
      && UniqueIds(boards, BoardRowId)
    }

    constructor (members: set<(Id, Id)>)
      ensures Valid()
      ensures cards == [] && lists == [] && boards == [] && activity == []
      ensures this.members == members
    {
      cards, lists, boards, activity := [], [], [], [];
      this.members := members;
    }

    predicate IsMember(workspaceId: Id, userId: Id)
      reads this
    {
      (workspaceId, userId) in members
    }
  }
}
