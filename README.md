# task-sync Kanban core in Dafny

This project models the ordering and live-sync core of task-sync, a collaborative Kanban board. It covers four parts:

- **The board page of the client** (`BoardView`). On a drop, the page moves the card in place on copies of the lists. It then emits `move_card` with the two lists it touched and sends the card's new list and order key. The key comes from the card's new neighbours: 1000 when the card is alone in its list, half the next key at the head, the previous key plus 1024 at the tail, and the midpoint of both neighbours in between. The page applies its peers' `card_moved`, `list_added` and `card_added`, and appends what it creates itself.
- **The REST handlers for cards, lists and boards** (`CardController`, `ListController`, `BoardController`).
  - Create appends with the key "largest sibling key + 1024", or 1024 when there are no siblings.
  - Update writes only the fields the body gives. For a card, `listId` and `order` are written in the same call.
  - Delete removes one row.
  - All board handlers check workspace membership (403). A board read returns 404 before 403. It also returns the lists ascending by key, and each list's cards ascending by key.
  - Every store error becomes a 500 reply that carries the error's message.
- **The socket server** (`SocketRelay`). A connection joins rooms named by a workspace id or a board id. Each Kanban event is relayed under its outgoing name to every other member of the board's room.
- **The activity recorder** (`Logger`). It stores one log entry, using `'Unknown'` and null in place of a falsy title or board id. It then pushes the entry to the workspace room. Every failure is swallowed.

Shared modules:

| module | what it holds |
|---|---|
| `Entities` | the rows (`Card`, `ListRow`, `BoardRow`, `LogEntry`), the documents a board read returns (`ListView`, `BoardDoc`) and HTTP replies |
| `Protocol` | the socket events |
| `Seqs` | `splice` (remove and insert by index) and `findIndex` |
| `Ordering` | keys, sorting by key, the largest key, and the tail-append key |
| `Store` | the database, as a class `Db` whose tables are sequence fields with unique ids, and the `where` filter on a parent column |

The HTTP handlers change `Db` in place, so they are methods with `modifies` clauses on single tables. The socket server's rooms and delivery record are fields of the class `SocketServer`. An open board page is the class `BoardPage`, with fields for its board state, its socket emits and its HTTP requests. Each method is tied to a pure function of the old state: `Moved`, `ReplaceMoved`, `AppendCard`, `NewCard`, `ApplyPatch` or `Step`. The properties are proved about those functions.

Three points where the code does less than a Kanban server is usually expected to do; the model follows the code:

- Updating or deleting a missing card or list answers 500, because the not-found error is caught like every other store error. It is not a distinct client error.
- No handler checks a role.
- A move is one `PUT` that writes `listId` and `order` together. The server stores the key the client sends as it is: it does not check that the key lies between the neighbours, it does not log the move, and it does not relay it. The dragging client emits `move_card` itself.

## Model

| member | source | states |
|---|---|---|
| BoardView.BoardPage.OnDragEnd | client/src/pages/BoardView.jsx:77-139 | An ignored drop (no destination, or the drag's start position) changes nothing. Any other drop sets the board's lists to `Moved`, emits `move_card` with the new destination and source lists, and requests `PUT {listId, order}` with `NewKey` of the new destination cards; a failed PUT is followed by a refetch |
| BoardView.MoveOnCopies | client/src/pages/BoardView.jsx:87-106 | The splice on copies yields exactly `Moved`: new source list, new destination list and the new lists; the destination keeps the dropped-on list id |
| BoardView.MovePlacesCard | client/src/pages/BoardView.jsx:95-103 | The moved card sits at the destination index. The others keep their relative order: removing the card again gives the source cards without it. A same-list move keeps the length; a cross-list move changes the lengths by -1 and +1 |
| BoardView.MoveKeepsOtherLists | client/src/pages/BoardView.jsx:87-106 | The number and the rows of the lists are unchanged, and every list other than source and destination is unchanged |
| BoardView.MovePreservesCardIds | client/src/pages/BoardView.jsx:95-106 | The multiset of card ids on the whole board is the same after the move: no card lost or duplicated |
| BoardView.RemoveKeepsKeys | client/src/pages/BoardView.jsx:98 | Taking a card out of a list keeps the remaining keys positive and strictly increasing |
| BoardView.NewKeyReadsOnlyNeighbours | client/src/pages/BoardView.jsx:119-128 | The key depends only on the keys at index-1 and index+1, never on the dropped card's stale key |
| BoardView.NewKeyBetweenNeighbours | client/src/pages/BoardView.jsx:119-128 | For positive, strictly increasing other keys, the new key is positive and strictly between its neighbours. Giving it to the card keeps the list strictly increasing |
| BoardView.DropKeyKeepsDisplayedOrder | client/src/pages/BoardView.jsx:95-128 | If the destination list was positive and strictly increasing, then the list after the drop, with the new key on the moved card, is strictly increasing. So the server's key order matches the order the page shows |
| BoardView.MoveToHeadScenario | client/src/pages/BoardView.jsx:98-122 | In a list [X 1024, Y 2048], dropping Y at index 0 gives [Y, X] and key 512 |
| BoardView.ReplaceMoved | client/src/pages/BoardView.jsx:23-38 | `card_moved`: position by position, the list with the new list's id becomes the new list, else the one with the old list's id becomes the old list, else it stays; the length is kept |
| BoardView.ReplaceMovedKeepsListIds | client/src/pages/BoardView.jsx:31-35 | `card_moved` never changes which list id is at which position |
| BoardView.ReplaceMovedIgnoresUnknown | client/src/pages/BoardView.jsx:31-35 | Lists whose ids the board does not have leave the board unchanged |
| BoardView.PeerMoveConverges | client/src/pages/BoardView.jsx:26-37 | A peer applying the two lists of a move ends with the mover's own lists |
| BoardView.AppendCard | client/src/pages/BoardView.jsx:46-56 | Every list whose id is the card's list gets the card at the end; every other list and every row are unchanged |
| BoardView.AppendCardTouchesOneList | client/src/pages/BoardView.jsx:48-53 | With unique list ids, only the list `findIndex` finds changes, or none |
| BoardView.AppendCardAddsOne | client/src/pages/BoardView.jsx:48-53 | With unique list ids, the board's card ids grow by exactly the new card's id, or not at all when its list is absent |
| BoardView.BoardPage.Mount | client/src/pages/BoardView.jsx:16-20 | Mounting requests the board, then emits `join_board` with the route's board id |
| BoardView.BoardPage.BoardFetched | client/src/pages/BoardView.jsx:66-75 | A successful fetch replaces the board state; a failed one keeps it |
| BoardView.BoardPage.OnCardMoved | client/src/pages/BoardView.jsx:23-39 | No board yet: stays None; otherwise the lists become `ReplaceMoved` of the two carried lists |
| BoardView.BoardPage.OnListAdded | client/src/pages/BoardView.jsx:42-44 | The peer's list is appended at the end |
| BoardView.BoardPage.OnCardAdded | client/src/pages/BoardView.jsx:46-56 | The lists become `AppendCard` with the card's own `listId` |
| BoardView.BoardPage.CreateList | client/src/pages/BoardView.jsx:141-155 | A falsy title does nothing. Otherwise the page POSTs; on success it appends the new list with no cards and emits `add_list` with it; on failure nothing else happens |
| BoardView.BoardPage.CreateCard | client/src/pages/BoardView.jsx:157-179 | A falsy title does nothing. Otherwise the page POSTs; on success `AppendCard` to that list and emit `add_card`; on failure nothing else happens |
| BoardView.AppendPostedAsWritten | client/src/pages/BoardView.jsx:145-148 | As written, the POST answer is appended as is, and it has no `cards` |
| BoardView.PostedListLacksCards | client/src/pages/BoardView.jsx:148 | As written, the board then holds a list without `cards` |
| BoardView.ListAddedAddsItsCards | client/src/pages/BoardView.jsx:42-44 | A peer's list is appended after the existing lists, which stay as they were, and the board gains exactly that list's cards |
| BoardView.CreatedListAddsNoCards | client/src/pages/BoardView.jsx:148 | The list a successful create appends, with empty cards, leaves the board's multiset of card ids unchanged |
| BoardView.CreatedListTakesCards | client/src/pages/BoardView.jsx:148-167 | With the list appended with empty cards, a following `AppendCard` for it leaves earlier lists unchanged and gives it exactly that card |
| CardController.NewCard | server/src/controllers/cardController.js:10-24 | The new card has the given list, title and description, no due date or assignee, and a key at least 1024 above every card of that list; it is 1024 when the list is empty, and otherwise exactly 1024 above some card of that list, so it is the largest key plus 1024 |
| CardController.ApplyPatch | server/src/controllers/cardController.js:39-50 | Each field the body gives is overwritten and each absent one is kept; the id never changes |
| CardController.MoveWritesBoth | server/src/controllers/cardController.js:39-50 | The `{listId, order}` body a drop sends writes list and key together and nothing else |
| CardController.PatchIdempotent | server/src/controllers/cardController.js:39-50 | Applying the same update twice equals applying it once |
| CardController.EmptyPatchIsIdentity | server/src/controllers/cardController.js:39-50 | An empty body leaves the card unchanged |
| CardController.CreateCard | server/src/controllers/cardController.js:6-30 | A store error answers 500 with its message and writes nothing; otherwise 201 with `NewCard`, which is appended to the table; ids stay unique |
| CardController.UpdateCard | server/src/controllers/cardController.js:34-56 | Store error: 500 and no write. Missing id: 500 and no write. Otherwise 200 with the updated card, which replaces that one row |
| CardController.DeleteCard | server/src/controllers/cardController.js:60-69 | Store error or missing id: 500 and no write. Otherwise `{message: 'Card deleted'}` and exactly that row removed |
| CardController.DeleteRemovesOnlyThatCard | server/src/controllers/cardController.js:64 | After the delete no card carries that id, and every other card is still in the table |
| CardController.CreateAllIsTailAppends | server/src/controllers/cardController.js:10-24 | Successive creates in one list produce the tail-append sequence of keys |
| CardController.CreateIntoEmptyList | server/src/controllers/cardController.js:15 | N creates into an empty list give keys 1024, 2048, ..., 1024 N |
| ListController.NewList | server/src/controllers/listController.js:11-24 | The new list has the given board and title and a key at least 1024 above every list of that board; it is 1024 for an empty board, and otherwise exactly 1024 above some list of that board, so it is the largest key plus 1024 |
| ListController.ApplyListPatch | server/src/controllers/listController.js:39-42 | The given title and key are overwritten and an absent one is kept; id and board never change |
| ListController.CreateList | server/src/controllers/listController.js:6-30 | Store error: 500 and no write; otherwise 201 with `NewList`, appended to the table; ids stay unique |
| ListController.UpdateList | server/src/controllers/listController.js:34-48 | Store error or missing id: 500 and no write; otherwise 200 with the updated row, which replaces that one row |
| ListController.DeleteList | server/src/controllers/listController.js:52-61 | Store error or missing id: 500 and no write; otherwise `{message: 'List deleted'}` and exactly that row removed |
| ListController.UpdateKeepsBoards | server/src/controllers/listController.js:39-42 | An update keeps every list's id and board, and changes no other row |
| ListController.CreateAllIsTailAppends | server/src/controllers/listController.js:11-24 | Successive creates on one board produce the tail-append sequence of keys |
| ListController.CreateIntoEmptyBoard | server/src/controllers/listController.js:16 | N creates on an empty board give keys 1024, 2048, ..., 1024 N |
| BoardController.CreateBoard | server/src/controllers/boardController.js:6-36 | Store error: 500. A non-member: 403 with 'Not authorized to create boards in this workspace' and no write. Otherwise 201 with the new board, appended to the table |
| BoardController.GetBoards | server/src/controllers/boardController.js:40-60 | Store error: 500; non-member: 403. Otherwise 200 with exactly the workspace's boards (as a multiset), newest first |
| BoardController.GetBoardsOnlyThatWorkspace | server/src/controllers/boardController.js:51-54 | Every board returned belongs to the requested workspace and is in the table |
| BoardController.WithCards | server/src/controllers/boardController.js:73-77 | Each list row is paired with exactly its cards, ascending by key |
| BoardController.BoardWithLists | server/src/controllers/boardController.js:68-80 | The board read holds exactly the board's lists ascending by key, each with exactly its cards ascending by key |
| BoardController.GetBoard | server/src/controllers/boardController.js:64-95 | Store error: 500. Missing board: 404 'Board not found', checked before membership. Non-member: 403. Otherwise 200 with `BoardWithLists` |
| BoardController.GetBoardIsSorted | server/src/controllers/boardController.js:68-91 | A 200 read is of the requested board, with lists and every list's cards ascending by key |
| BoardController.GetBoardCardsBelong | server/src/controllers/boardController.js:73-77 | Every card a read embeds is in the table and belongs to the list it is shown in |
| BoardController.GetBoardRefusesOutsiders | server/src/controllers/boardController.js:86-89 | A non-member gets 403 and no board data |
| Store.Where | server/src/controllers/cardController.js:10-13 | The filtered rows all have the requested parent and come from the table, and there are no more of them than rows |
| Store.WhereExactly | server/src/controllers/cardController.js:10-13 | `where: { listId }` (and likewise `boardId` for lists and `workspaceId` for boards) keeps each row of that parent as often as the table holds it, and no other row |
| Store.WhereAppend | server/src/controllers/cardController.js:10-13 | A row appended to the table is appended to the filter exactly when it has that parent, and the filter is otherwise unchanged |
| Ordering.SortBy | server/src/controllers/boardController.js:72-75 | `orderBy: 'asc'` yields the rows ascending by key, as a permutation of the input |
| Ordering.MaxOf | server/src/controllers/cardController.js:10-13 | The `orderBy: desc` first row's key: None exactly for no rows, otherwise a key that is present and bounds every other |
| Ordering.TailKey | server/src/controllers/cardController.js:15 | The appended key is at least 1024 above every sibling key; it is 1024 without siblings, and otherwise exactly 1024 above one of them, so it is the largest sibling key plus 1024 |
| Ordering.TailAppendsFromEmpty | server/src/controllers/listController.js:16 | Tail appends from nothing give 1024, 2048, ..., strictly increasing |
| Seqs.RemoveAt | client/src/pages/BoardView.jsx:98 | `splice(i, 1)` shortens by one, keeps the elements before i, and shifts the ones after |
| Seqs.InsertAt | client/src/pages/BoardView.jsx:99 | `splice(i, 0, x)` puts x at i, keeps the elements before, shifts the ones after; removing at i gives back the input |
| Seqs.InsertAfterRemove | client/src/pages/BoardView.jsx:98-99 | Putting the removed element back at its index restores the sequence |
| Seqs.FindIndex | client/src/pages/BoardView.jsx:88-89 | -1 exactly when no element has the id; otherwise the first position holding it |
| SocketRelay.Join | server/src/index.js:43-50 | The connection is added to that room and to no other |
| SocketRelay.LeaveAll | server/src/index.js:71-73 | The `disconnect` handler itself is empty; socket.io's own teardown then removes the connection from every room. After it the connection is in no room, and every other connection keeps its rooms |
| SocketRelay.Step | server/src/index.js:39-74 | A handled event appends at most one delivery and never rewrites earlier ones. A new delivery reaches only members of its room and never the sender |
| SocketRelay.RelayReachesOthersInRoom | server/src/index.js:53-69 | `move_card`, `add_list`, `add_card` and `delete_list` are delivered as `card_moved`, `list_added`, `card_added` and `list_deleted`, with their payload, to exactly the room's members minus the sender; the rooms are unchanged |
| SocketRelay.JoinAddsMember | server/src/index.js:43-50 | `join_workspace` and `join_board` add the connection to that room only, and deliver nothing |
| SocketRelay.JoinIdempotent | server/src/index.js:43-50 | Joining twice is the same as joining once |
| SocketRelay.SharedNamespace | server/src/index.js:43-56 | A connection that joined a workspace receives board events relayed to a board with the same id |
| SocketRelay.SenderExcluded | server/src/index.js:53-69 | No event adds anything to the sender's own inbox |
| SocketRelay.NeverJoinedReceivesNothing | server/src/index.js:39-74 | A connection that never joins a room receives nothing published to it, over any trace of events |
| SocketRelay.DisconnectLeavesEveryRoom | server/src/index.js:71-73 | After disconnect the connection is in no room, and nothing is delivered |
| SocketRelay.SocketServer.On | server/src/index.js:39-74 | Each handler updates the server state exactly as `Step` does |
| SocketRelay.SocketServer.ToRoomExcept | server/src/index.js:55 | `socket.to(room).emit` appends one delivery to the room's members minus the sender |
| SocketRelay.SocketServer.ToRoom | server/src/utils/logger.js:26 | `io.to(room).emit` appends one delivery to every member of the room |
| Logger.EntryFor | server/src/utils/logger.js:8-16 | The entry has the given ids, action and type. Its title is the given one if truthy, else 'Unknown'. Its board id is the given one if truthy, else null |
| Logger.StoredFieldsAreClean | server/src/utils/logger.js:14-15 | A stored entry never has an empty title, nor an empty board id |
| Logger.DefaultsAreStable | server/src/utils/logger.js:14-15 | Applying the defaults to a stored entry changes nothing |
| Logger.LogActivity | server/src/utils/logger.js:5-34 | Rooms are unchanged. If the insert succeeds, exactly one entry is appended. If the insert and the socket both succeed, exactly one `new_activity` delivery goes to every member of the workspace room. A failed insert stores and delivers nothing; a failed emit keeps the stored entry; neither failure surfaces |

## Left out

- Floating point: keys are exact reals, so the model does not capture the precision lost by repeated halving. There is also no renormalisation, because the source has none.
- OnDragEnd: the drag library's guarantees are its precondition: both lists exist, and the source index is in range. The destination index may be at most the end of the list.
- OnDragEnd: the PUT's outcome is a parameter. Later reads of the refetched board erase the optimistic state; the model covers this only through `BoardFetched`.
- BoardView.BoardPage.OnListAdded and OnCardAdded: before the first fetch the board is null, so the state updater throws on `prev.lists` when React runs it, and the page's render then fails. The model leaves the board at None and does not model the crash.
- BoardView.BoardPage.CreateList: when no board is loaded (the fetch failed, and the "Add another list" button at BoardView.jsx:244-249 is still shown), the updater passed to `setBoard` at BoardView.jsx:148 throws on `prev.lists` of null when React runs it. `setBoard` itself does not throw, so `add_list` is still emitted at BoardView.jsx:151, as in the model. The page's render then fails. The model keeps the board at None and does not model the crash.
- BoardView.BoardPage.CreateList: appends the new list with empty `cards`. This is the corrected behaviour of the finding below.
- Concurrency: each handler call is one atomic step. The model does not interleave awaits between requests.
- Fresh ids and time stamps: both are parameters. The store's id generator and clock are not part of this model.
- Store errors: any error in a handler is modelled as one up-front `fault` from which nothing is written. This is exact for single-write handlers. The message texts stand in for the ORM's texts (`UpdateNotFound`, `DeleteNotFound`).
- Referential integrity: foreign keys and cascades are not modelled. This covers cards of a deleted list, a list on a board that does not exist, and an `assigneeId` that is not a user.
- CardController.ApplyPatch: a field sent as JSON `null` (which clears it) is not distinguished from an absent field (which keeps it). `Option` has room only for given and absent.
- Logger.EntryFor: the included user name and board title are left out. Their values come from other tables, and this model does not hold users.
- Logger.LogActivity: the storage and socket failures are parameters. Console output is left out.
- SocketRelay: the socket.io transport is abstracted as an ordered delivery record: no latency, loss or reconnection.
- `list_deleted`: it is relayed by the server, but the board page has no handler for it, so it has no client effect.
- Authentication: the user id is taken as given. The middleware that derives it from a token is not part of this model.
- The activity log's derivation rules for each mutation: no handler in these files calls the recorder. The model covers only the recorder itself.

## Findings

| source | as written | input that shows it | evidently intended | confidence | as-written member | corrected member |
|---|---|---|---|---|---|---|
| client/src/pages/BoardView.jsx:145-151 | After `POST /lists`, the answer is appended to the board's lists and sent to peers as it is. It is the bare list row, with no `cards` property | Create list "Todo". The next render's `list.cards.map`, and any `card_added` or `createCard` for that list (`[...list.cards, c]`), throw a TypeError | The new list is shown and held with an empty card array | medium, not executed | BoardView.PostedListLacksCards | BoardView.CreatedListTakesCards |
