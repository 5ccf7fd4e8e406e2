/**
 * The entities of the shared board domain (common/src/domain.ts): items, boards,
 * the application events and the pure classifiers and constructors over them.
 */
module Domain {
  import opened Wrappers

  type Id = string
  type Color = string

  /** The four values of an item's `type` tag. */
  datatype ItemType = Note | Text | Image | Container

  /**
   * An item as it is stored, in the union of the shapes of notes, texts, images and
   * containers. A field that a stored (possibly legacy) item may lack is an `Option`;
   * `legacyItems` is the `items: string[]` list that old containers carried.
   */
  datatype Item = Item(
    id: Id,
    kind: Option<ItemType>,
    x: int,
    y: int,
    width: Option<int>,
    height: Option<int>,
    text: Option<string>,
    color: Option<Color>,
    assetId: Option<string>,
    src: Option<string>,
    containerId: Option<Id>,
    legacyItems: Option<seq<Id>>)

  /** A fully formed board. */
  datatype Board = Board(id: Id, name: string, width: int, height: int, items: seq<Item>)

  /**
   * A board document as it arrives: a stub carries only `id` and `name`, and a
   * legacy board may lack its dimensions.
   */
  datatype BoardDoc = BoardDoc(
    id: Id,
    name: string,
    width: Option<int>,
    height: Option<int>,
    items: Option<seq<Item>>)

  /** The document form of a fully formed board: every property present. */
  function ToDoc(b: Board): BoardDoc {
    BoardDoc(b.id, b.name, Some(b.width), Some(b.height), Some(b.items))
  }

  const DefaultBoardWidth: int := 100
  const DefaultBoardHeight: int := 80

  /** The properties whose presence makes a board fully formed, besides a non-empty id and name. */
  const FullBoardProps: seq<string> := ["width", "height", "items"]

  /** The JavaScript `prop in b` test on a board document. */
  predicate HasProp(b: BoardDoc, prop: string) {
    if prop == "width" then b.width.Some?
    else if prop == "height" then b.height.Some?
    else if prop == "items" then b.items.Some?
    else prop == "id" || prop == "name"
  }

  /** `isFullyFormedBoard`: truthy id and name, and every one of `FullBoardProps` present. */
  function IsFullyFormedBoard(b: BoardDoc): (r: bool)
    ensures r <==> b.id != "" && b.name != "" && b.width.Some? && b.height.Some? && b.items.Some?
  {
    assert "height"[0] != "width"[0] && "items"[0] != "width"[0] && "items"[0] != "height"[0];
    assert HasProp(b, "width") == b.width.Some? && HasProp(b, "height") == b.height.Some?;
    assert HasProp(b, "items") == b.items.Some?;
    b.id != "" && b.name != "" && forall p :: p in FullBoardProps ==> HasProp(b, p)
  }

  datatype ItemMove = ItemMove(id: Id, x: int, y: int)
  datatype CursorPosition = CursorPosition(x: int, y: int)
  datatype UserCursorPosition = UserCursorPosition(x: int, y: int, userId: Id)

  /** The union `AppEvent`, one constructor per `action` value. */
  datatype AppEvent =
    | AddItem(boardId: Id, items: seq<Item>)
    | UpdateItem(boardId: Id, items: seq<Item>)
    | MoveItem(boardId: Id, moves: seq<ItemMove>)
    | BringItemToFront(boardId: Id, itemIds: seq<Id>)
    | DeleteItem(boardId: Id, itemIds: seq<Id>)
    | LockItem(boardId: Id, itemId: Id)
    | UnlockItem(boardId: Id, itemId: Id)
    | GotBoardLocks(boardId: Id, locks: map<Id, Id>)
    | AddBoard(payload: BoardDoc)
    | JoinBoard(boardId: Id)
    | AckJoinBoard(boardId: Id, userId: Id, nickname: string)
    | JoinedBoard(boardId: Id, userId: Id, nickname: string)
    | InitBoard(board: Board)
    | CursorMove(position: CursorPosition, boardId: Id)
    | SetNickname(nickname: string, userId: Id)
    | CursorPositions(positions: map<Id, UserCursorPosition>)
    | AssetPutUrlRequest(assetId: string)
    | AssetPutUrlResponse(assetId: string, signedUrl: string)
    | Undo
    | Redo

  /** The `action` discriminant each event carries on the wire. */
  function Action(e: AppEvent): string {
    match e
    case AddItem(_, _) => "item.add"
    case UpdateItem(_, _) => "item.update"
    case MoveItem(_, _) => "item.move"
    case BringItemToFront(_, _) => "item.front"
    case DeleteItem(_, _) => "item.delete"
    case LockItem(_, _) => "item.lock"
    case UnlockItem(_, _) => "item.unlock"
    case GotBoardLocks(_, _) => "board.locks"
    case AddBoard(_) => "board.add"
    case JoinBoard(_) => "board.join"
    case AckJoinBoard(_, _, _) => "board.join.ack"
    case JoinedBoard(_, _, _) => "board.joined"
    case InitBoard(_) => "board.init"
    case CursorMove(_, _) => "cursor.move"
    case SetNickname(_, _) => "nickname.set"
    case CursorPositions(_) => "c"
    case AssetPutUrlRequest(_) => "asset.put.request"
    case AssetPutUrlResponse(_, _) => "asset.put.response"
    case Undo => "undo"
    case Redo => "redo"
  }

  /**
   * `isBoardItemEvent`: the action starts with "item.", which of all the events holds
   * exactly for the seven item events.
   */
  predicate IsBoardItemEvent(e: AppEvent)
    ensures IsBoardItemEvent(e) <==>
      (e.AddItem? || e.UpdateItem? || e.MoveItem? || e.BringItemToFront? || e.DeleteItem? ||
       e.LockItem? || e.UnlockItem?)
  {
    var a := Action(e);
    var itemEvent := e.AddItem? || e.UpdateItem? || e.MoveItem? || e.BringItemToFront? ||
                     e.DeleteItem? || e.LockItem? || e.UnlockItem?;
    assert !itemEvent ==> |a| < 5 || a[0] != 'i';
    "item." <= a
  }

  type BoardItemEvent = e: AppEvent | IsBoardItemEvent(e) witness LockItem("", "")

  /**
   * `isPersistableBoardItemEvent`: anything but a lock or an unlock, so of the item events
   * exactly add, update, move, delete and bring-to-front.
   */
  predicate IsPersistableBoardItemEvent(e: BoardItemEvent)
    ensures IsPersistableBoardItemEvent(e) <==>
      (e.AddItem? || e.UpdateItem? || e.MoveItem? || e.DeleteItem? || e.BringItemToFront?)
    ensures !IsPersistableBoardItemEvent(e) <==> (e.LockItem? || e.UnlockItem?)
  {
    Action(e) !in ["item.lock", "item.unlock"]
  }

  type PersistableBoardItemEvent = e: BoardItemEvent | IsPersistableBoardItemEvent(e) witness AddItem("", [])

  /**
   * What a migrated item satisfies: a type, a non-zero width and height, and for a
   * container a text and no legacy `items` list.
   */
  predicate IsNormalized(i: Item) {
    i.kind.Some? && i.width.Some? && i.width.value != 0 && i.height.Some? && i.height.value != 0 &&
    (i.kind == Some(Container) ==> i.text.Some? && i.legacyItems.None?)
  }

  /** `newNote`; the identifier, generated by `uuid.v4()` in the source, is a parameter. */
  function NewNote(id: Id, text: string, color: Color := "yellow", x: int := 20, y: int := 20,
                   width: int := 5, height: int := 5): (r: Item)
    ensures r.id == id && r.kind == Some(Note) && r.text == Some(text) && r.color == Some(color)
    ensures r.x == x && r.y == y && r.width == Some(width) && r.height == Some(height)
    ensures r.containerId.None? && r.assetId.None?
    ensures width != 0 && height != 0 ==> IsNormalized(r)
  {
    Item(id, Some(Note), x, y, Some(width), Some(height), Some(text), Some(color), None, None, None, None)
  }

  /** `newText`. */
  function NewText(id: Id, text: string, x: int := 20, y: int := 20, width: int := 5, height: int := 2): (r: Item)
    ensures r.id == id && r.kind == Some(Text) && r.text == Some(text) && r.color.None?
    ensures r.x == x && r.y == y && r.width == Some(width) && r.height == Some(height)
    ensures r.containerId.None? && r.assetId.None?
    ensures width != 0 && height != 0 ==> IsNormalized(r)
  {
    Item(id, Some(Text), x, y, Some(width), Some(height), Some(text), None, None, None, None, None)
  }

  /** `newContainer`. */
  function NewContainer(id: Id, x: int := 20, y: int := 20, width: int := 30, height: int := 20): (r: Item)
    ensures r.id == id && r.kind == Some(Container) && r.text == Some("Unnamed area")
    ensures r.x == x && r.y == y && r.width == Some(width) && r.height == Some(height)
    ensures r.containerId.None? && r.legacyItems.None?
    ensures width != 0 && height != 0 ==> IsNormalized(r)
  {
    Item(id, Some(Container), x, y, Some(width), Some(height), Some("Unnamed area"), None, None, None, None, None)
  }

  /** `newImage`. */
  function NewImage(id: Id, assetId: string, x: int := 20, y: int := 20, width: int := 5, height: int := 5): (r: Item)
    ensures r.id == id && r.kind == Some(Image) && r.assetId == Some(assetId) && r.src.None?
    ensures r.x == x && r.y == y && r.width == Some(width) && r.height == Some(height)
    ensures r.containerId.None? && r.text.None?
    ensures width != 0 && height != 0 ==> IsNormalized(r)
  {
    Item(id, Some(Image), x, y, Some(width), Some(height), None, None, Some(assetId), None, None, None)
  }

  /** `createBoard`, with the generated identifier as a parameter: an empty board of the default size. */
  function CreateBoard(id: Id, name: string): (r: Board)
    ensures r.id == id && r.name == name && r.items == []
    ensures r.width == DefaultBoardWidth == 100 && r.height == DefaultBoardHeight == 80
    ensures IsFullyFormedBoard(ToDoc(r)) <==> id != "" && name != ""
  {
    Board(id, name, DefaultBoardWidth, DefaultBoardHeight, [])
  }
}
