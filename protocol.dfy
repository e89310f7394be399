/** The socket messages exchanged between the board page and the server. */
module Protocol {
  import opened Entities

  /** What a client emits on its connection. */
  datatype ClientEvent =
    | JoinWorkspace(workspaceId: Id)
    | JoinBoard(boardId: Id)
    | MoveCard(boardId: Id, newList: ListView, oldList: ListView)
    | AddList(boardId: Id, list: ListView)
    | AddCard(boardId: Id, card: Card)
    | DeleteList(boardId: Id, listId: Id)
    | Disconnect

  /** What the server delivers to the members of a room. */
  datatype ServerEvent =
    | CardMoved(newList: ListView, oldList: ListView)
    | ListAdded(list: ListView)
    | CardAdded(card: Card)
    | ListDeleted(listId: Id)
    | NewActivity(entry: LogEntry)
}
