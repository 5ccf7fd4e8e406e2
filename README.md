# ourboard `common/` core in Dafny

A model of two parts of the shared code of the ourboard collaborative whiteboard:

- the **history-aware reducer** (`common/src/board-history-reducer.ts`): one board event goes
  through the board reducer; the board and undo action it returns are passed on unchanged, and the
  history log changes only when the board changed and the event persists (anything but
  `item.lock`/`item.unlock`), either by folding the event into the latest entry or by appending it;
- the **domain helpers and legacy-board migration** (`common/src/domain.ts`): the event classifiers,
  `isFullyFormedBoard`, the item and board constructors, and `migrateBoard`, which drops later items
  with a repeated id, forces `type`/`width`/`height` on every item and `text` on containers, and turns
  a container's legacy `items` id list into `containerId` back-references on the items it names.

Files (all modules are top-level, imported by name):

- `wrappers.dfy` — `Wrappers.Option`, for absent properties and `T | null` results.
- `domain.dfy` — `Domain`: `Item`, `Board`, `BoardDoc` (a board document whose properties may be
  absent), the `AppEvent` union with its `action` strings, the subset types `BoardItemEvent` and
  `PersistableBoardItemEvent`, the classifiers and the `new*`/`createBoard` constructors.
- `migration.dfy` — `Migration`: the specification of migration as functions (`Normalize`,
  `FirstOccurrences`, `Owner`, `Attach`, `MigratedBoard`), lemmas about it, and `migrateBoard` itself
  as the methods `FindById`, `AttachContainees`, `MigrateItem` and `MigrateBoard`, proved equal to it.
- `board_history.dfy` — `BoardHistory`: `AddToHistory`, `BoardHistoryReducer`, a replay of an event
  stream through it, and lemmas over such runs.

Modelling choices:

- `boardReducer` and `foldActions` are defined in files that are not part of this model. They are
  function parameters (`BoardReducer`, `Folder`), so every result holds whatever they do.
- The source decides "the board changed" by JavaScript reference inequality (`updatedBoard !==
  board.board`). The board reducer here returns that answer as an explicit `changed` flag; it is not
  value inequality (a reducer may build an equal but new board, and the history then changes).
- `common/src/board-history-reducer.ts:3` imports `EventFromServer`, `BoardHistoryEntry` and
  `BoardWithHistory` from `./domain`, but `common/src/domain.ts` declares none of them, so their
  definitions are not part of this model. Because the source passes the event to
  `isPersistableBoardItemEvent(bie: BoardItemEvent)`, the reducer's event is a `BoardItemEvent` here.
  `BoardHistoryEntry = PersistableBoardItemEvent` is this model's reading of two things: the narrowing
  that the guard at lines 13-14 gives before an event is stored or folded, and the
  `as null | BoardHistoryEntry` cast of the folder's answer at line 16.
- A property a stored item or board may lack is an `Option`. A JavaScript falsy value is `None` or
  the zero value: `width || 5` gives 5 for an absent or zero width, `type || "note"` gives `Note` for
  an absent type, `container.text || ""` gives `""` for an absent or empty text. A legacy `items` list
  that is present but empty is still truthy, so it is dropped as well.
- `migrateItem` updates objects in place: the output entry already pushed, or, when the named item has
  not been reached yet, the caller's input item, which the loop later copies. The method keeps both
  arrays as local sequences and updates the element in place; `find` answers the first match.
  The specification function states the outcome: each kept item's `containerId` is the id of the LAST kept
  container whose legacy list names it (`Owner`), or its own previous value when none does; containers
  are never given one. The source's comment speaks of one container; the order rule is what the code
  does when several name the same item.
- The source's `migrateBoard` iterates `board.items`, which its `Board` type requires, so
  `MigrateBoard` requires the items to be present.
- Two properties one might expect of the whole system are not established by this code, and the model
  does not claim them: migration keeps an item's existing `containerId` even when no container with
  that id exists, so it does not rule out dangling back-references; and the history is "maximally
  folded" (no two adjacent entries fold) is proved for a folder meeting `KeepsBoundaries`
  (`ReplayKeepsFolded`) and not claimed for any other. `KeepsBoundaries` quantifies its third event
  over persisting events only, since `addToHistory` never passes a lock or unlock to the folder.

## Model

| member | source | states |
|---|---|---|
| `Domain.IsFullyFormedBoard` | common/src/domain.ts:19-21 | true exactly when id and name are non-empty and width, height and items are all present |
| `Domain.IsBoardItemEvent` | common/src/domain.ts:123 | the `"item."` prefix test holds exactly for the seven item events among all twenty `AppEvent` kinds |
| `Domain.IsPersistableBoardItemEvent` | common/src/domain.ts:125 | an item event persists exactly when it is add, update, move, delete or front, and does not exactly when it is lock or unlock |
| `Domain.CreateBoard` | common/src/domain.ts:98-101 | an empty board with the given id and name and the default size 100 x 80, fully formed exactly when id and name are non-empty |
| `Domain.NewNote` | common/src/domain.ts:103-105 | a note with the id, text and colour (default `"yellow"`), position (default 20, 20) and size (default 5 x 5), in no container; normalized when the size is non-zero |
| `Domain.NewText` | common/src/domain.ts:107-109 | a text with the id and text, no colour, position (default 20, 20) and size (default 5 x 2), in no container; normalized when the size is non-zero |
| `Domain.NewContainer` | common/src/domain.ts:111-113 | a container with the id, the text `"Unnamed area"`, position (default 20, 20) and size (default 30 x 20), with no back-reference and no legacy list; normalized when the size is non-zero |
| `Domain.NewImage` | common/src/domain.ts:115-117 | an image with the id and asset id, no `src` and no text, position (default 20, 20) and size (default 5 x 5), in no container; normalized when the size is non-zero |
| `Migration.Normalize` | common/src/domain.ts:139-150 | the fixed item is normalized (type present, width and height present and non-zero, a container has text and no legacy list); each default (`note`, 5, `""`) applies exactly where the input was absent or falsy; the other fields are kept; a normalized item is left as it is |
| `Migration.Owner` | common/src/domain.ts:148-154 | the back-reference is the id of the last kept container whose legacy list names the item, and the item's previous value when no container names it |
| `Migration.FindById` | common/src/domain.ts:130 | the search answers the position of the first item with the id, and nothing exactly when no item has it |
| `Migration.AttachContainees` | common/src/domain.ts:151-154 | after the `forEach`, the first already-migrated item with each listed id gets the container's id unless it is a container; an id no migrated item has reaches the first input item with it, again unless that is a container |
| `Migration.MigrateItem` | common/src/domain.ts:138-159 | the returned item is `Normalize` of the input; only a container with a legacy list touches the two lists, as `AttachContainees` states |
| `Migration.MigrateBoard` | common/src/domain.ts:127-136 | the loop returns exactly `MigratedBoard` of its input |
| `Migration.FirstOccurrencesIds` | common/src/domain.ts:129-134 | the kept items carry exactly the ids of the input, and are no more than the input |
| `Migration.FirstOccurrencesDistinct` | common/src/domain.ts:130-133 | no id is kept twice |
| `Migration.FirstOccurrencesAreFirst` | common/src/domain.ts:129-134 | every kept item is the first input item with its id, and kept items are in input order |
| `Migration.MigrationKeepsFirstOccurrences` | common/src/domain.ts:128-135 | migrated ids are pairwise distinct and are those of the input; each migrated item is the first input item with its id, normalized and attached; migrated items keep their relative input order |
| `Migration.MigratedItemsAreNormalized` | common/src/domain.ts:139-150 | every migrated item is normalized, with type, width, height and container text defaulted from its first occurrence as `Normalize` does |
| `Migration.MigratedBackReferences` | common/src/domain.ts:143-154 | a non-container whose id a kept container's legacy list names ends up with that container's id (the last such container wins); an item no kept container names, and every container, keeps its `containerId` |
| `Migration.MigratedBoardFields` | common/src/domain.ts:23 | the migrated board keeps id and name, takes width and height from the input when present and 100 x 80 otherwise, and is fully formed exactly when id and name are non-empty |
| `Migration.MigrationFixesNormalBoards` | common/src/domain.ts:127-160 | a board whose ids are distinct and whose items are normalized is returned unchanged |
| `Migration.MigrationIsIdempotent` | common/src/domain.ts:127-160 | migrating a migrated board changes nothing |
| `Migration.NewItemsNeedNoMigration` | common/src/domain.ts:98-117 | notes, texts, containers and images built by the constructors (with their defaults or any non-zero size) are already normalized, and a new board is already migrated and fully formed exactly when id and name are non-empty |
| `BoardHistory.AddToHistory` | common/src/board-history-reducer.ts:12-21 | a lock or unlock leaves the history unchanged; on an empty history the result is exactly `[event]`; a successful fold keeps the length and every earlier entry and puts the folded entry last; a refused fold appends the event; the length grows by at most one and never shrinks |
| `BoardHistory.BoardHistoryReducer` | common/src/board-history-reducer.ts:5-10 | the board and the undo action are the board reducer's, unchanged; an unchanged board leaves the history as it was; the history changes only when the board changed and the event persists; it grows by at most one entry |
| `BoardHistory.HistoryIsOrthogonal` | common/src/board-history-reducer.ts:6-9 | over any event stream, the boards and undo actions are those of the board reducer run alone, whatever the starting history and whatever the folder |
| `BoardHistory.ReplayKeepsHistory` | common/src/board-history-reducer.ts:12-21 | over any stream the history never shrinks, grows by at most one entry per persisting event, and no entry before the latest is rewritten |
| `BoardHistory.LocksNeverReachHistory` | common/src/board-history-reducer.ts:13 | a stream of locks and unlocks leaves the history as it was, whatever the board reducer reports |
| `BoardHistory.AddToHistoryKeepsFolded` | common/src/board-history-reducer.ts:14-20 | with a folder that keeps boundaries, one addition keeps a history in which no two adjacent entries fold |
| `BoardHistory.ReplayKeepsFolded` | common/src/board-history-reducer.ts:5-21 | with such a folder, every run from a maximally folded history stays maximally folded |
| `BoardHistory.TwoEdits` | common/src/board-history-reducer.ts:14-20 | two changing persistent events on an empty history give one entry when the folder merges them and the two events when it refuses |

## Left out

- The internals of `boardReducer` and `foldActions` (`common/src/board-reducer.ts`,
  `common/src/action-folding.ts`) are not part of this model: they are parameters, so the lock map
  bookkeeping, the inverse events and the fold rules are not modelled.
- Identifier generation (`uuid.v4()` in `createBoard` and the `new*` constructors) is replaced by an id
  parameter; `createBoard` draws one identifier it never uses and stores a second, and the parameter
  stands for the stored one. `exampleBoard`, which only calls the constructors with generated ids,
  is not modelled.
- `getCurrentTime` reads the clock and is not modelled; the `console.warn` for a duplicate item is
  dropped (the duplicate is still skipped).
- JavaScript numbers are modelled as integers: fractional values and `NaN` (which `width || 5` would
  also replace by 5) are not modelled.
- An item `type` other than the four kinds, and stored properties beyond the fields of `Item`, are not
  modelled (`...rest` would carry them along unchanged).
- A property present with the value `undefined` is not told apart from an absent one (for the board,
  the spread `{ ...defaultBoardSize, ...board }` would copy such an `undefined` over the default).
- `MigrateBoard` does not show that the caller's input item objects are themselves updated in place
  (a containee not yet reached gains its `containerId` on the input board too), nor the same object
  appearing twice in the input array; parsed documents have no such sharing.
- The payloads of the non-item events (`board.*`, `cursor.*`, `nickname.set`, `asset.put.*`, `undo`,
  `redo`) are given only as far as `domain.ts` declares them; nothing here operates on them.
- `frontend/src/board/ContextMenuView.tsx`, `frontend/src/board/contextmenu/shapes.tsx` and
  `frontend/src/store/state-store.ts` are UI and stream wiring (floating-point layout, `dispatch`,
  `localStorage`); they are not modelled. `Replay` stands for the store feeding events one at a time.
