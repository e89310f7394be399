/**
 * The board page of the client: the optimistic move on drop, the order key it
 * sends to the server, the handlers that apply peers' deltas, and the local
 * updates after creating a list or a card.
 */
module BoardView {
  import opened Entities
  import opened Seqs
  import opened Ordering
  import opened Protocol

  /** The key a card gets when it is dropped into an otherwise empty list. */
  const LoneKey: real := 1000.0

  /** A position reported by the drag-and-drop library: a list id and an index in it. */
  datatype Location = Location(droppableId: Id, index: nat)

  /** The HTTP requests the page sends. */
  datatype Request =
    | FetchBoard(boardId: Id)
    | PutCard(cardId: Id, listId: Id, order: real)
    | PostList(boardId: Id, title: string)
    | PostCard(listId: Id, title: string)

  // ---------------------------------------------------------------------------
  // The order key of a dropped card
  // ---------------------------------------------------------------------------

  /**
   * The key for the card now at `index` of `destCards`, computed from its new
   * neighbours only: 1000 alone, half the next key at the head, the previous key
   * plus GAP at the tail, the midpoint of both neighbours in between.
   */
  function NewKey(destCards: seq<Card>, index: nat): real
    requires index < |destCards|
  {
    if |destCards| == 1 then LoneKey
    else if index == 0 then destCards[1].order / 2.0
    else if index == |destCards| - 1 then destCards[|destCards| - 2].order + GAP
    else (destCards[index - 1].order + destCards[index + 1].order) / 2.0
  }

  /** The cards with the one at `i` given key `k`. */
  function Rekeyed(cards: seq<Card>, i: nat, k: real): seq<Card>
    requires i < |cards|
  {
    cards[i := cards[i].(order := k)]
  }

  /** Every key is positive, as every key the server and this page hand out is. */
  ghost predicate PositiveKeys(cs: seq<Card>)
  {
    forall k :: 0 <= k < |cs| ==> cs[k].order > 0.0
  }

  /** Taking a card out keeps the remaining keys positive and strictly increasing. */
  lemma RemoveKeepsKeys(cs: seq<Card>, i: nat)
    requires i < |cs|
    requires StrictlyIncreasing(Orders(cs, CardKey)) && PositiveKeys(cs)
    ensures StrictlyIncreasing(Orders(RemoveAt(cs, i), CardKey)) && PositiveKeys(RemoveAt(cs, i))
  {
    var r := RemoveAt(cs, i);
    var o := Orders(cs, CardKey);
    forall a, b | 0 <= a < b < |r| ensures r[a].order < r[b].order {
      var a' := if a < i then a else a + 1;
      var b' := if b < i then b else b + 1;
      assert o[a'] == r[a].order && o[b'] == r[b].order;
    }
  }

  /** The key depends on the neighbours at index-1 and index+1 only, never on the moved card's own stale key. */
  lemma NewKeyReadsOnlyNeighbours(a: seq<Card>, b: seq<Card>, i: nat)
    requires |a| == |b| && i < |a|
    requires i > 0 ==> a[i - 1].order == b[i - 1].order
    requires i + 1 < |a| ==> a[i + 1].order == b[i + 1].order
    ensures NewKey(a, i) == NewKey(b, i)
  {
  }

  /**
   * When the other cards' keys are positive and strictly increasing, the new key is
   * positive and lies strictly between its neighbours, so sorting by key shows the
   * cards in the order in which they were dropped.
   */
  lemma NewKeyBetweenNeighbours(cards: seq<Card>, i: nat)
    requires i < |cards|
    requires StrictlyIncreasing(Orders(RemoveAt(cards, i), CardKey))
    requires PositiveKeys(RemoveAt(cards, i))
    ensures NewKey(cards, i) > 0.0
    ensures i > 0 ==> cards[i - 1].order < NewKey(cards, i)
    ensures i + 1 < |cards| ==> NewKey(cards, i) < cards[i + 1].order
    ensures StrictlyIncreasing(Orders(Rekeyed(cards, i, NewKey(cards, i)), CardKey))
  {
    var key := NewKey(cards, i);
    var others := Orders(RemoveAt(cards, i), CardKey);
    assert forall k :: 0 <= k < |cards| && k != i ==> cards[k].order > 0.0 by {
      forall k | 0 <= k < |cards| && k != i ensures cards[k].order > 0.0 {
        var k' := if k < i then k else k - 1;
        assert RemoveAt(cards, i)[k'] == cards[k];
      }
    }
    // Any two cards other than the dropped one are in increasing key order.
    assert forall a, b :: 0 <= a < b < |cards| && a != i && b != i ==> cards[a].order < cards[b].order by {
      forall a, b | 0 <= a < b < |cards| && a != i && b != i ensures cards[a].order < cards[b].order {
        var a' := if a < i then a else a - 1;
        var b' := if b < i then b else b - 1;
        assert others[a'] == cards[a].order && others[b'] == cards[b].order;
      }
    }
    if 0 < i < |cards| - 1 {
      assert cards[i - 1].order < cards[i + 1].order;
    }
    var r := Rekeyed(cards, i, key);
    forall a, b | 0 <= a < b < |r| ensures r[a].order < r[b].order {
      if b == i {
        assert a <= i - 1;
        if a < i - 1 { assert cards[a].order < cards[i - 1].order; }
      } else if a == i {
        assert b >= i + 1;
        if b > i + 1 { assert cards[i + 1].order < cards[b].order; }
      }
    }
  }

  // ---------------------------------------------------------------------------
  // The optimistic move
  // ---------------------------------------------------------------------------

  /** What the drag-and-drop library guarantees about a drop it reports. */
  predicate ValidDrop(lists: seq<ListView>, source: Location, destination: Location)
  {
    var s := FindIndex(lists, source.droppableId, ListViewId);
    var d := FindIndex(lists, destination.droppableId, ListViewId);
    && s != -1 && d != -1
    && source.index < |lists[s].cards|
    && destination.index <= |lists[d].cards| - (if s == d then 1 else 0)
  }

  /** A drop that `onDragEnd` ignores: no destination, or the place the card came from. */
  predicate Ignored(destination: Option<Location>, source: Location)
  {
    destination.None? || (destination.value.droppableId == source.droppableId && destination.value.index == source.index)
  }

  /** The source and destination lists after the move, and the board's new lists. */
  datatype Move = Move(source: ListView, dest: ListView, lists: seq<ListView>)

  /**
   * The move as `onDragEnd` performs it on copies: remove by index from the source
   * cards, insert at the destination index (into the same array when both are one list).
   */
  function Moved(lists: seq<ListView>, source: Location, destination: Location): Move
    requires ValidDrop(lists, source, destination)
  {
    var s := FindIndex(lists, source.droppableId, ListViewId);
    var d := FindIndex(lists, destination.droppableId, ListViewId);
    var moved := lists[s].cards[source.index];
    var sourceCards := RemoveAt(lists[s].cards, source.index);
    var destCards := InsertAt(if s == d then sourceCards else lists[d].cards, destination.index, moved);
    var newSource := lists[s].(cards := if s == d then destCards else sourceCards);
    var newDest := lists[d].(cards := destCards);
    Move(newSource, newDest, lists[s := newSource][d := newDest])
  }

  /**
   * The optimistic update of `onDragEnd` on a copy of the lists: the moved card is
   * spliced out of the source cards and into the destination cards (the same copy
   * when both are one list), and both lists are written back into the copy.
   */
  method MoveOnCopies(lists: seq<ListView>, source: Location, destination: Location)
    returns (newSourceList: ListView, newDestList: ListView, newLists: seq<ListView>)
    requires ValidDrop(lists, source, destination)
    ensures Move(newSourceList, newDestList, newLists) == Moved(lists, source, destination)
    ensures newDestList.row.id == destination.droppableId
  {
    ghost var m := Moved(lists, source, destination);
    var copy := new ListView[|lists|](k requires 0 <= k < |lists| => lists[k]);
    assert copy[..] == lists;
    var sourceListIndex := FindIndex(lists, source.droppableId, ListViewId);
    var destListIndex := FindIndex(lists, destination.droppableId, ListViewId);
    var sourceList := copy[sourceListIndex];
    var destList := copy[destListIndex];

    // Copies of the card arrays; one shared copy when source and destination are one list.
    var newSourceCards := sourceList.cards;
    var movedCard := newSourceCards[source.index];
    newSourceCards := RemoveAt(newSourceCards, source.index);
    var newDestCards;
    if sourceListIndex == destListIndex {
      newSourceCards := InsertAt(newSourceCards, destination.index, movedCard);
      newDestCards := newSourceCards;
    } else {
      newDestCards := InsertAt(destList.cards, destination.index, movedCard);
    }

    newSourceList := sourceList.(cards := newSourceCards);
    newDestList := destList.(cards := newDestCards);
    assert newSourceList == m.source && newDestList == m.dest;
    copy[sourceListIndex] := newSourceList;
    assert copy[..] == lists[sourceListIndex := newSourceList];
    copy[destListIndex] := newDestList;
    newLists := copy[..];
  }

  /**
   * The moved card lands at the destination index; the other cards keep their
   * relative order; a cross-list move shrinks the source by one and grows the
   * destination by one, a same-list move keeps the length.
   */
  lemma MovePlacesCard(lists: seq<ListView>, source: Location, destination: Location)
    requires ValidDrop(lists, source, destination)
    ensures var s := FindIndex(lists, source.droppableId, ListViewId);
      var d := FindIndex(lists, destination.droppableId, ListViewId);
      var m := Moved(lists, source, destination);
      && destination.index < |m.dest.cards|
      && m.dest.cards[destination.index] == lists[s].cards[source.index]
      && (s == d ==>
            && m.source == m.dest
            && |m.dest.cards| == |lists[s].cards|
            && RemoveAt(m.dest.cards, destination.index) == RemoveAt(lists[s].cards, source.index))
      && (s != d ==>
            && m.source.cards == RemoveAt(lists[s].cards, source.index)
            && RemoveAt(m.dest.cards, destination.index) == lists[d].cards
            && |m.source.cards| == |lists[s].cards| - 1
            && |m.dest.cards| == |lists[d].cards| + 1)
  {
  }

  /** Only the source and destination lists change, and only in their cards: the list order stays. */
  lemma MoveKeepsOtherLists(lists: seq<ListView>, source: Location, destination: Location)
    requires ValidDrop(lists, source, destination)
    ensures var s := FindIndex(lists, source.droppableId, ListViewId);
      var d := FindIndex(lists, destination.droppableId, ListViewId);
      var m := Moved(lists, source, destination);
      && |m.lists| == |lists|
      && m.lists[s] == m.source && m.lists[d] == m.dest
      && (forall k :: 0 <= k < |lists| ==> m.lists[k].row == lists[k].row)
      && (forall k :: 0 <= k < |lists| && k != s && k != d ==> m.lists[k] == lists[k])
  {
    var s := FindIndex(lists, source.droppableId, ListViewId);
    var d := FindIndex(lists, destination.droppableId, ListViewId);
    var m := Moved(lists, source, destination);
    TwoUpdatesKeepRows(lists, s, m.source, d, m.dest);
  }

  lemma TwoUpdatesKeepRows(ls: seq<ListView>, s: nat, vs: ListView, d: nat, vd: ListView)
    requires s < |ls| && d < |ls|
    requires vs.row == ls[s].row && vd.row == ls[d].row
    ensures var r := ls[s := vs][d := vd];
      && |r| == |ls| && r[d] == vd && (s != d ==> r[s] == vs)
      && (forall k :: 0 <= k < |ls| ==> r[k].row == ls[k].row)
      && (forall k :: 0 <= k < |ls| && k != s && k != d ==> r[k] == ls[k])
  {
  }

  lemma CardIdsRemoveAt(cs: seq<Card>, i: nat)
    requires i < |cs|
    ensures CardIds(RemoveAt(cs, i)) + multiset{cs[i].id} == CardIds(cs)
  {
    CardIdsDropOne(cs, i);
  }

  lemma CardIdsInsertAt(cs: seq<Card>, i: nat, x: Card)
    requires i <= |cs|
    ensures CardIds(InsertAt(cs, i, x)) == CardIds(cs) + multiset{x.id}
  {
    CardIdsRemoveAt(InsertAt(cs, i, x), i);
  }

  /** A move neither loses nor duplicates a card: the board's multiset of card ids stays. */
  lemma MovePreservesCardIds(lists: seq<ListView>, source: Location, destination: Location)
    requires ValidDrop(lists, source, destination)
    ensures BoardCardIds(Moved(lists, source, destination).lists) == BoardCardIds(lists)
  {
    var s := FindIndex(lists, source.droppableId, ListViewId);
    var d := FindIndex(lists, destination.droppableId, ListViewId);
    var m := Moved(lists, source, destination);
    var moved := lists[s].cards[source.index];
    var rest := RemoveAt(lists[s].cards, source.index);
    CardIdsRemoveAt(lists[s].cards, source.index);
    if s == d {
      CardIdsInsertAt(rest, destination.index, moved);
      assert m.lists == lists[s := m.dest];
      BoardCardIdsReplace(lists, s, m.dest);
    } else {
      CardIdsInsertAt(lists[d].cards, destination.index, moved);
      BoardCardIdsTransfer(lists, s, d, m.source, m.dest, moved.id);
    }
  }

  /**
   * The key sent for a drop keeps the displayed order: if the destination list's keys
   * were positive and strictly increasing before the drop, then giving the moved card
   * its new key makes the destination list strictly increasing again.
   */
  lemma DropKeyKeepsDisplayedOrder(lists: seq<ListView>, source: Location, destination: Location)
    requires ValidDrop(lists, source, destination)
    requires var d := FindIndex(lists, destination.droppableId, ListViewId);
      StrictlyIncreasing(Orders(lists[d].cards, CardKey)) && PositiveKeys(lists[d].cards)
    ensures var m := Moved(lists, source, destination);
      && destination.index < |m.dest.cards|
      && StrictlyIncreasing(Orders(Rekeyed(m.dest.cards, destination.index, NewKey(m.dest.cards, destination.index)), CardKey))
  {
    var s := FindIndex(lists, source.droppableId, ListViewId);
    var d := FindIndex(lists, destination.droppableId, ListViewId);
    var m := Moved(lists, source, destination);
    MovePlacesCard(lists, source, destination);
    if s == d {
      RemoveKeepsKeys(lists[s].cards, source.index);
    }
    NewKeyBetweenNeighbours(m.dest.cards, destination.index);
  }

  /** With cards X (1024) and Y (2048) in one list, dropping Y at the head gives [Y, X] and key 512. */
  lemma MoveToHeadScenario(a: ListRow, x: Card, y: Card)
    requires x.order == 1024.0 && y.order == 2048.0 && x.id != y.id
    ensures var lists := [ListView(a, [x, y])];
      var m := Moved(lists, Location(a.id, 1), Location(a.id, 0));
      && m.lists == [ListView(a, [y, x])]
      && NewKey(m.dest.cards, 0) == 512.0
  {
    var lists := [ListView(a, [x, y])];
    assert FindIndex(lists, a.id, ListViewId) == 0;
    assert RemoveAt([x, y], 1) == [x];
    assert InsertAt([x], 0, y) == [y, x];
  }

  // ---------------------------------------------------------------------------
  // Deltas from peers and local creations
  // ---------------------------------------------------------------------------

  /**
   * `card_moved`: the lists whose ids are `oldList`'s and `newList`'s are replaced
   * (the new list last, so it wins when both ids are one list); other positions and
   * absent ids are left alone.
   */
  function ReplaceMoved(lists: seq<ListView>, oldList: ListView, newList: ListView): (r: seq<ListView>)
    ensures |r| == |lists|
    ensures var s := FindIndex(lists, oldList.row.id, ListViewId);
      var d := FindIndex(lists, newList.row.id, ListViewId);
      forall k :: 0 <= k < |r| ==>
        r[k] == (if k == d then newList else if k == s then oldList else lists[k])
  {
    var s := FindIndex(lists, oldList.row.id, ListViewId);
    var d := FindIndex(lists, newList.row.id, ListViewId);
    var afterSource := if s != -1 then lists[s := oldList] else lists;
    if d != -1 then afterSource[d := newList] else afterSource
  }

  /** `card_moved` never changes which list is at which position. */
  lemma ReplaceMovedKeepsListIds(lists: seq<ListView>, oldList: ListView, newList: ListView)
    ensures var r := ReplaceMoved(lists, oldList, newList);
      forall k :: 0 <= k < |r| ==> r[k].row.id == lists[k].row.id
  {
  }

  /** `card_moved` for lists this board does not have is ignored. */
  lemma ReplaceMovedIgnoresUnknown(lists: seq<ListView>, oldList: ListView, newList: ListView)
    requires forall k :: 0 <= k < |lists| ==> lists[k].row.id != oldList.row.id && lists[k].row.id != newList.row.id
    ensures ReplaceMoved(lists, oldList, newList) == lists
  {
  }

  /** Receiving the lists a peer's move produced reproduces the peer's board. */
  lemma PeerMoveConverges(lists: seq<ListView>, source: Location, destination: Location)
    requires ValidDrop(lists, source, destination)
    ensures var m := Moved(lists, source, destination);
      ReplaceMoved(lists, m.source, m.dest) == m.lists
  {
    var m := Moved(lists, source, destination);
    MoveKeepsOtherLists(lists, source, destination);
    var s := FindIndex(lists, source.droppableId, ListViewId);
    var d := FindIndex(lists, destination.droppableId, ListViewId);
    assert FindIndex(lists, m.source.row.id, ListViewId) == s;
    assert FindIndex(lists, m.dest.row.id, ListViewId) == d;
  }

  /**
   * `card_added`, and the local update after `createCard`: the card is appended
   * to the end of every list whose id is `listId`; all other lists are unchanged.
   */
  function AppendCard(lists: seq<ListView>, listId: Id, card: Card): (r: seq<ListView>)
    ensures |r| == |lists|
    ensures forall k :: 0 <= k < |r| ==> r[k].row == lists[k].row
    ensures forall k :: 0 <= k < |r| ==>
      r[k].cards == if lists[k].row.id == listId then lists[k].cards + [card] else lists[k].cards
  {
    seq(|lists|, k requires 0 <= k < |lists| =>
      if lists[k].row.id == listId then lists[k].(cards := lists[k].cards + [card]) else lists[k])
  }

  /** With unique list ids, `card_added` touches exactly the list `FindIndex` finds, or nothing. */
  lemma AppendCardTouchesOneList(lists: seq<ListView>, listId: Id, card: Card)
    requires UniqueIds(lists, ListViewId)
    ensures var j := FindIndex(lists, listId, ListViewId);
      AppendCard(lists, listId, card) ==
        if j == -1 then lists else lists[j := lists[j].(cards := lists[j].cards + [card])]
  {
    var j := FindIndex(lists, listId, ListViewId);
    if j != -1 {
      forall k | 0 <= k < |lists| && k != j ensures lists[k].row.id != listId {
        assert ListViewId(lists[j]) == listId;
        if k < j {
          assert ListViewId(lists[k]) != listId;
        } else {
          assert ListViewId(lists[j]) != ListViewId(lists[k]);
        }
      }
    }
  }

  /** With unique list ids, `card_added` adds exactly one card to the board, or none if its list is absent. */
  lemma AppendCardAddsOne(lists: seq<ListView>, listId: Id, card: Card)
    requires UniqueIds(lists, ListViewId)
    ensures BoardCardIds(AppendCard(lists, listId, card)) ==
      BoardCardIds(lists) + (if FindIndex(lists, listId, ListViewId) == -1 then multiset{} else multiset{card.id})
  {
    AppendCardTouchesOneList(lists, listId, card);
    var j := FindIndex(lists, listId, ListViewId);
    if j != -1 {
      var v := lists[j].(cards := lists[j].cards + [card]);
      BoardCardIdsUpdate(lists, j, v);
      CardIdsAppend(lists[j].cards, [card]);
      CardIdsSingle(card);
      MultisetCancel(BoardCardIds(lists[j := v]), BoardCardIds(lists) + multiset{card.id}, CardIds(lists[j].cards));
    }
  }

  // ---------------------------------------------------------------------------
  // The list object `createList` appends
  // ---------------------------------------------------------------------------

  /**
   * A list as the page's JSON holds it, with `cards` possibly missing: the list
   * creation endpoint answers with the bare row, which has no `cards` property.
   */
  datatype ListJson = ListJson(row: ListRow, cards: Option<seq<Card>>)

  /** Every list has `cards`: rendering (`list.cards.map`) and `card_added` (`[...list.cards, c]`) need it. */
  predicate AllHaveCards(lists: seq<ListJson>)
  {
    forall k :: 0 <= k < |lists| ==> lists[k].cards.Some?
  }

  /** `createList` as written: the POST answer is appended to the lists unchanged. */
  function AppendPostedAsWritten(lists: seq<ListJson>, row: ListRow): (r: seq<ListJson>)
    ensures |r| == |lists| + 1 && r[..|lists|] == lists
    ensures r[|lists|].row == row && r[|lists|].cards.None?
  {
    lists + [ListJson(row, None)]
  }

  /** As written, the appended list has no `cards`, so the next render or `card_added` for it throws. */
  lemma PostedListLacksCards(lists: seq<ListJson>, row: ListRow)
    ensures !AllHaveCards(AppendPostedAsWritten(lists, row))
  {
    var r := AppendPostedAsWritten(lists, row);
    assert r[|lists|].cards.None?;
  }

  /** The corrected append (the one `CreateList` below uses): the new list starts with no cards and takes the next one. */
  lemma CreatedListTakesCards(lists: seq<ListView>, row: ListRow, card: Card)
    requires forall k :: 0 <= k < |lists| ==> lists[k].row.id != row.id
    ensures var r := AppendCard(lists + [ListView(row, [])], row.id, card);
      && r[..|lists|] == lists
      && r[|lists|] == ListView(row, [card])
  {
    var r := AppendCard(lists + [ListView(row, [])], row.id, card);
    forall k | 0 <= k < |lists| ensures r[k] == lists[k] {
      assert (lists + [ListView(row, [])])[k] == lists[k];
    }
  }

  /** A peer's `list_added` adds exactly the cards that list arrives with. */
  lemma ListAddedAddsItsCards(lists: seq<ListView>, list: ListView)
    ensures BoardCardIds(lists + [list]) == BoardCardIds(lists) + CardIds(list.cards)
    ensures |lists + [list]| == |lists| + 1 && (lists + [list])[..|lists|] == lists
  {
    BoardCardIdsAppend(lists, list);
  }

  /** The list a successful `createList` appends holds no cards, so the board's cards stay the same. */
  lemma CreatedListAddsNoCards(lists: seq<ListView>, row: ListRow)
    ensures BoardCardIds(lists + [ListView(row, [])]) == BoardCardIds(lists)
  {
    BoardCardIdsAppend(lists, ListView(row, []));
    assert CardIds([]) == multiset{};
  }

  // ---------------------------------------------------------------------------
  // The page's state
  // ---------------------------------------------------------------------------

  /** One open board page: the board state, and everything it has emitted and requested. */
  class BoardPage {
    /** The board id from the route. */
    const boardId: Id
    /** The board state; None until the first successful fetch. */
    var board: Option<BoardDoc>
    /** Socket emits, in order. */
    var emitted: seq<ClientEvent>
    /** HTTP requests, in order. */
    var requests: seq<Request>

    constructor (boardId: Id)
      ensures this.boardId == boardId && board == None && emitted == [] && requests == []
    {
      this.boardId := boardId;
      board, emitted, requests := None, [], [];
    }

    /** On mount: request the board, then join its room. */
    method Mount()
      modifies this`emitted, this`requests
      ensures requests == old(requests) + [FetchBoard(boardId)]
      ensures emitted == old(emitted) + [JoinBoard(boardId)]
    {
      requests := requests + [FetchBoard(boardId)];
      emitted := emitted + [JoinBoard(boardId)];
    }

    /** The board request's outcome: the returned board, or None when it failed. */
    method BoardFetched(response: Option<BoardDoc>)
      modifies this`board
      ensures board == if response.Some? then response else old(board)
    {
      if response.Some? {
        board := response;
      }
    }

    /**
     * `onDragEnd`: an ignored drop changes nothing; any other drop moves the card
     * on copies of the lists, emits `move_card` with both lists, and sends
     * `{ listId, order }` for the card, the key computed from its new neighbours.
     * `putFails` is the outcome of that request; a failed one is followed by a refetch.
     */
    method OnDragEnd(destination: Option<Location>, source: Location, draggableId: Id, putFails: bool)
      requires board.Some?
      requires !Ignored(destination, source) ==> ValidDrop(board.value.lists, source, destination.value)
      modifies this`board, this`emitted, this`requests
      ensures Ignored(destination, source) ==>
        board == old(board) && emitted == old(emitted) && requests == old(requests)
      ensures !Ignored(destination, source) ==>
        var m := Moved(old(board).value.lists, source, destination.value);
        && destination.value.index < |m.dest.cards|
        && board == Some(old(board).value.(lists := m.lists))
        && emitted == old(emitted) + [MoveCard(boardId, m.dest, m.source)]
        && requests == old(requests) +
             [PutCard(draggableId, destination.value.droppableId, NewKey(m.dest.cards, destination.value.index))] +
             (if putFails then [FetchBoard(boardId)] else [])
    {
      if destination.None? {
        return;
      }
      var dest := destination.value;
      if dest.droppableId == source.droppableId && dest.index == source.index {
        return;
      }
      var current := board.value;
      ghost var m := Moved(current.lists, source, dest);

      var newSourceList, newDestList, newLists := MoveOnCopies(current.lists, source, dest);
      board := Some(current.(lists := newLists));

      emitted := emitted + [MoveCard(boardId, newDestList, newSourceList)];

      MovePlacesCard(current.lists, source, dest);
      var destCards := newDestList.cards;
      var newOrder := NewKey(destCards, dest.index);
      var refetch := if putFails then [FetchBoard(boardId)] else [];
      requests := requests + [PutCard(draggableId, newDestList.row.id, newOrder)] + refetch;
    }

    /** `card_moved` from a peer: replace the two lists it carries, if the board has loaded. */
    method OnCardMoved(oldList: ListView, newList: ListView)
      modifies this`board
      ensures board == if old(board).None? then None
                       else Some(old(board).value.(lists := ReplaceMoved(old(board).value.lists, oldList, newList)))
    {
      if board.None? {
        return;
      }
      var current := board.value;
      var newLists := new ListView[|current.lists|](k requires 0 <= k < |current.lists| => current.lists[k]);
      var sIndex := FindIndex(current.lists, oldList.row.id, ListViewId);
      var dIndex := FindIndex(current.lists, newList.row.id, ListViewId);
      if sIndex != -1 {
        newLists[sIndex] := oldList;
      }
      if dIndex != -1 {
        newLists[dIndex] := newList;
      }
      assert newLists[..] == ReplaceMoved(current.lists, oldList, newList);
      board := Some(current.(lists := newLists[..]));
    }

    /** `list_added` from a peer: append the list at the end. */
    method OnListAdded(list: ListView)
      modifies this`board
      ensures board == if old(board).None? then None
                       else Some(old(board).value.(lists := old(board).value.lists + [list]))
    {
      if board.Some? {
        board := Some(board.value.(lists := board.value.lists + [list]));
      }
    }

    /** `card_added` from a peer: append the card to the list its `listId` names. */
    method OnCardAdded(card: Card)
      modifies this`board
      ensures board == if old(board).None? then None
                       else Some(old(board).value.(lists := AppendCard(old(board).value.lists, card.listId, card)))
    {
      if board.Some? {
        board := Some(board.value.(lists := AppendCard(board.value.lists, card.listId, card)));
      }
    }

    /**
     * `createList`, given the prompt's answer and the POST's outcome: nothing for a
     * falsy title; otherwise the request, and on success the local append and `add_list`.
     */
    method CreateList(title: Option<string>, response: Option<ListRow>)
      modifies this`board, this`emitted, this`requests
      ensures !Truthy(title) ==> board == old(board) && emitted == old(emitted) && requests == old(requests)
      ensures Truthy(title) ==> requests == old(requests) + [PostList(boardId, title.value)]
      ensures Truthy(title) && response.None? ==> board == old(board) && emitted == old(emitted)
      ensures Truthy(title) && response.Some? ==>
        var created := ListView(response.value, []);
        && board == (if old(board).None? then None else Some(old(board).value.(lists := old(board).value.lists + [created])))
        && emitted == old(emitted) + [AddList(boardId, created)]
    {
      if !Truthy(title) {
        return;
      }
      requests := requests + [PostList(boardId, title.value)];
      if response.None? {
        return;
      }
      var created := ListView(response.value, []);
      if board.Some? {
        board := Some(board.value.(lists := board.value.lists + [created]));
      }
      emitted := emitted + [AddList(boardId, created)];
    }

    /**
     * `createCard`, given the prompt's answer and the POST's outcome: nothing for a
     * falsy title; otherwise the request, and on success the local append and `add_card`.
     */
    method CreateCard(listId: Id, title: Option<string>, response: Option<Card>)
      modifies this`board, this`emitted, this`requests
      ensures !Truthy(title) ==> board == old(board) && emitted == old(emitted) && requests == old(requests)
      ensures Truthy(title) ==> requests == old(requests) + [PostCard(listId, title.value)]
      ensures Truthy(title) && response.None? ==> board == old(board) && emitted == old(emitted)
      ensures Truthy(title) && response.Some? ==>
        && board == (if old(board).None? then None
                     else Some(old(board).value.(lists := AppendCard(old(board).value.lists, listId, response.value))))
        && emitted == old(emitted) + [AddCard(boardId, response.value)]
    {
      if !Truthy(title) {
        return;
      }
      requests := requests + [PostCard(listId, title.value)];
      if response.None? {
        return;
      }
      if board.Some? {
        board := Some(board.value.(lists := AppendCard(board.value.lists, listId, response.value)));
      }
      emitted := emitted + [AddCard(boardId, response.value)];
    }
  }
}
