/**
 * Loading a legacy board (`migrateBoard` and its local `migrateItem` in
 * common/src/domain.ts): the specification as functions, the lemmas that say what
 * it guarantees, and the loop itself as methods proved against it.
 */
module Migration {
  import opened Wrappers
  import opened Domain

  const DefaultItemSize: int := 5

  /** `width || 5`: an absent or zero dimension becomes 5. */
  function SizeOrDefault(v: Option<int>): int {
    if v.None? || v.value == 0 then DefaultItemSize else v.value
  }

  /**
   * `migrateItem` without its back-reference step: type, width and height forced,
   * and a container's text forced and its legacy list dropped.
   */
  function Normalize(item: Item): (r: Item)
    ensures IsNormalized(r)
    ensures r.id == item.id && r.x == item.x && r.y == item.y && r.color == item.color &&
            r.assetId == item.assetId && r.src == item.src && r.containerId == item.containerId
    ensures item.kind.None? ==> r.kind == Some(Note)
    ensures item.kind.Some? ==> r.kind == item.kind
    ensures item.width.None? || item.width == Some(0) ==> r.width == Some(DefaultItemSize)
    ensures item.width.Some? && item.width.value != 0 ==> r.width == item.width
    ensures item.height.None? || item.height == Some(0) ==> r.height == Some(DefaultItemSize)
    ensures item.height.Some? && item.height.value != 0 ==> r.height == item.height
    ensures r.kind != Some(Container) ==> r.text == item.text && r.legacyItems == item.legacyItems
    ensures r.kind == Some(Container) && (item.text.None? || item.text == Some("")) ==> r.text == Some("")
    ensures r.kind == Some(Container) && item.text.Some? ==> r.text == item.text
    ensures IsNormalized(item) ==> r == item
  {
    var fixed := item.(kind := Some(item.kind.GetOr(Note)),
                       width := Some(SizeOrDefault(item.width)),
                       height := Some(SizeOrDefault(item.height)));
    if fixed.kind == Some(Container) then fixed.(text := Some(fixed.text.GetOr("")), legacyItems := None)
    else fixed
  }

  /** Some item of `s` has identifier `id`. */
  predicate HasId(s: seq<Item>, id: Id) {
    exists k :: 0 <= k < |s| && s[k].id == id
  }

  /** No two items of `s` share an identifier. */
  predicate DistinctIds(s: seq<Item>) {
    forall j, k :: 0 <= j < k < |s| ==> s[j].id != s[k].id
  }

  /** `s[k]` is the first item of `s` with its identifier. */
  predicate IsFirst(s: seq<Item>, k: int) {
    0 <= k < |s| && forall j :: 0 <= j < k ==> s[j].id != s[k].id
  }

  /** `a` and `b` list the same identifiers and types, position by position. */
  predicate SameShape(a: seq<Item>, b: seq<Item>) {
    |a| == |b| && forall k :: 0 <= k < |a| ==> a[k].id == b[k].id && a[k].kind == b[k].kind
  }

  /** The position of the first item of `s` with identifier `id`. */
  function FirstIndexOf(s: seq<Item>, id: Id): (k: nat)
    requires HasId(s, id)
    ensures k < |s| && s[k].id == id && IsFirst(s, k)
  {
    if s[0].id == id then 0
    else
      assert HasId(s[1..], id) by {
        var j :| 0 <= j < |s| && s[j].id == id;
        assert s[1..][j - 1].id == id;
      }
      1 + FirstIndexOf(s[1..], id)
  }

  /** The items of `s` that are the first with their identifier, in their order in `s`. */
  function FirstOccurrences(s: seq<Item>): seq<Item>
  {
    if s == [] then []
    else
      var d := FirstOccurrences(s[..|s| - 1]);
      if HasId(d, s[|s| - 1].id) then d else d + [s[|s| - 1]]
  }

  /** `c` is a container whose legacy `items` list names `id`. */
  predicate Claims(c: Item, id: Id) {
    c.kind == Some(Container) && c.legacyItems.Some? && id in c.legacyItems.value
  }

  /** `c` is a container with a legacy `items` list. */
  predicate HasLegacyList(c: Item) {
    c.kind == Some(Container) && c.legacyItems.Some?
  }

  /**
   * The `containerId` an item with identifier `id` ends up with once the containers of
   * `kept` have run in order: the LAST of them whose legacy list names `id`, or
   * `current` when none does.
   */
  function Owner(kept: seq<Item>, id: Id, current: Option<Id>): (r: Option<Id>)
    ensures (forall j :: 0 <= j < |kept| ==> !Claims(kept[j], id)) ==> r == current
    ensures forall j :: (0 <= j < |kept| && Claims(kept[j], id) &&
                         (forall l :: j < l < |kept| ==> !Claims(kept[l], id))) ==> r == Some(kept[j].id)
  {
    if kept == [] then current
    else if Claims(kept[|kept| - 1], id) then Some(kept[|kept| - 1].id)
    else
      var rest := kept[..|kept| - 1];
      assert forall j :: 0 <= j < |rest| ==> rest[j] == kept[j];
      Owner(rest, id, current)
  }

  /** An item with the back-reference the legacy lists of `kept` give it; a container gets none. */
  function Attach(kept: seq<Item>, item: Item): Item {
    if item.kind == Some(Container) then item
    else item.(containerId := Owner(kept, item.id, item.containerId))
  }

  /** Every kept item, normalized and with its back-reference. */
  function MigrateKept(kept: seq<Item>): (r: seq<Item>)
  {
    seq(|kept|, k requires 0 <= k < |kept| => Normalize(Attach(kept, kept[k])))
  }

  /** The items of a migrated board. */
  function MigratedItems(s: seq<Item>): seq<Item> {
    MigrateKept(FirstOccurrences(s))
  }

  /** The board `migrateBoard` returns: `{ ...defaultBoardSize, ...board, items }`. */
  function MigratedBoard(b: BoardDoc): Board
    requires b.items.Some?
  {
    Board(b.id, b.name, b.width.GetOr(DefaultBoardWidth), b.height.GetOr(DefaultBoardHeight),
          MigratedItems(b.items.value))
  }

  /**
   * The effect of one container's `forEach` on a list: the first item of `s` with each
   * listed identifier gets `containerId := cid`, unless it is a container or its
   * identifier is already among `shadow` (whose `find` is tried first).
   */
  function Claimed(s: seq<Item>, cid: Id, ids: seq<Id>, shadow: seq<Item>): seq<Item>
  {
    seq(|s|, k requires 0 <= k < |s| =>
      if IsFirst(s, k) && s[k].id in ids && !HasId(shadow, s[k].id) && s[k].kind != Some(Container)
      then s[k].(containerId := Some(cid))
      else s[k])
  }

  // ---------------------------------------------------------------------------
  // What migration guarantees

  lemma FirstIndexOfAppend(p: seq<Item>, x: Item, id: Id)
    requires HasId(p + [x], id)
    ensures HasId(p, id) ==> FirstIndexOf(p + [x], id) == FirstIndexOf(p, id)
    ensures !HasId(p, id) ==> x.id == id && FirstIndexOf(p + [x], id) == |p|
  {
    var s := p + [x];
    var k := FirstIndexOf(s, id);
    if HasId(p, id) {
      var k0 := FirstIndexOf(p, id);
      assert s[k0] == p[k0];
    }
  }

  lemma HasIdAppend(p: seq<Item>, x: Item, id: Id)
    ensures HasId(p + [x], id) <==> HasId(p, id) || x.id == id
  {
    var s := p + [x];
    assert forall j :: 0 <= j < |p| ==> s[j] == p[j];
    if HasId(p, id) {
      var j :| 0 <= j < |p| && p[j].id == id;
      assert s[j].id == id;
    }
    if x.id == id { assert s[|s| - 1].id == id; }
  }

  /** One step of `FirstOccurrences`: the last item is kept exactly when its identifier is new. */
  lemma FirstOccurrencesStep(p: seq<Item>, x: Item)
    ensures FirstOccurrences(p + [x]) ==
            if HasId(FirstOccurrences(p), x.id) then FirstOccurrences(p) else FirstOccurrences(p) + [x]
  {
    assert (p + [x])[..|p + [x]| - 1] == p;
  }

  /** The kept items carry exactly the identifiers of the input. */
  lemma {:induction false} FirstOccurrencesIds(s: seq<Item>)
    ensures |FirstOccurrences(s)| <= |s|
    ensures forall id :: HasId(FirstOccurrences(s), id) <==> HasId(s, id)
  {
    if s != [] {
      var p, x := s[..|s| - 1], s[|s| - 1];
      assert s == p + [x];
      FirstOccurrencesIds(p);
      FirstOccurrencesStep(p, x);
      var d := FirstOccurrences(p);
      forall id ensures HasId(FirstOccurrences(s), id) <==> HasId(s, id) {
        HasIdAppend(p, x, id);
        HasIdAppend(d, x, id);
      }
    }
  }

  /** No identifier is kept twice. */
  lemma {:induction false} FirstOccurrencesDistinct(s: seq<Item>)
    ensures DistinctIds(FirstOccurrences(s))
  {
    if s != [] {
      var p, x := s[..|s| - 1], s[|s| - 1];
      assert s == p + [x];
      FirstOccurrencesDistinct(p);
      FirstOccurrencesStep(p, x);
      var d := FirstOccurrences(p);
      if !HasId(d, x.id) {
        forall k | 0 <= k < |d| ensures d[k].id != x.id { }
      }
    }
  }

  /** Each kept item is the first input item with its identifier, and the kept items are in input order. */
  lemma {:induction false} FirstOccurrencesAreFirst(s: seq<Item>)
    ensures forall k :: 0 <= k < |FirstOccurrences(s)| ==>
              HasId(s, FirstOccurrences(s)[k].id) &&
              FirstOccurrences(s)[k] == s[FirstIndexOf(s, FirstOccurrences(s)[k].id)]
    ensures forall j, k :: 0 <= j < k < |FirstOccurrences(s)| ==>
              HasId(s, FirstOccurrences(s)[j].id) && HasId(s, FirstOccurrences(s)[k].id) &&
              FirstIndexOf(s, FirstOccurrences(s)[j].id) < FirstIndexOf(s, FirstOccurrences(s)[k].id)
  {
    if s != [] {
      var p, x := s[..|s| - 1], s[|s| - 1];
      assert s == p + [x];
      FirstOccurrencesAreFirst(p);
      FirstOccurrencesIds(p);
      FirstOccurrencesStep(p, x);
      var d := FirstOccurrences(p);
      var r := FirstOccurrences(s);
      forall id | HasId(p, id) ensures HasId(s, id) && FirstIndexOf(s, id) == FirstIndexOf(p, id) {
        HasIdAppend(p, x, id);
        FirstIndexOfAppend(p, x, id);
      }
      forall k | 0 <= k < |d| ensures HasId(p, d[k].id) {
        assert HasId(d, d[k].id);
      }
      if !HasId(d, x.id) {
        HasIdAppend(p, x, x.id);
        FirstIndexOfAppend(p, x, x.id);
        assert r[|d|] == x;
      }
    }
  }

  lemma MigrateKeptShape(kept: seq<Item>)
    ensures |MigrateKept(kept)| == |kept|
    ensures forall k :: 0 <= k < |kept| ==> MigrateKept(kept)[k].id == kept[k].id
    ensures forall k :: 0 <= k < |kept| ==>
              (MigrateKept(kept)[k].kind == Some(Container) <==> kept[k].kind == Some(Container))
    ensures forall id :: HasId(MigrateKept(kept), id) <==> HasId(kept, id)
  {
    var r := MigrateKept(kept);
    forall id ensures HasId(r, id) <==> HasId(kept, id) {
      if HasId(r, id) { var j :| 0 <= j < |r| && r[j].id == id; assert kept[j].id == id; }
      if HasId(kept, id) { var j :| 0 <= j < |kept| && kept[j].id == id; assert r[j].id == id; }
    }
  }

  /**
   * After migration identifiers are pairwise distinct, every identifier of the input
   * survives, each survivor is the first input item with its identifier (normalized and
   * attached) and survivors keep their relative input order.
   */
  lemma MigrationKeepsFirstOccurrences(s: seq<Item>)
    ensures |MigratedItems(s)| <= |s|
    ensures DistinctIds(MigratedItems(s))
    ensures forall id :: HasId(MigratedItems(s), id) <==> HasId(s, id)
    ensures forall k :: 0 <= k < |MigratedItems(s)| ==>
              HasId(s, MigratedItems(s)[k].id) &&
              MigratedItems(s)[k] ==
                Normalize(Attach(FirstOccurrences(s), s[FirstIndexOf(s, MigratedItems(s)[k].id)]))
    ensures forall j, k :: 0 <= j < k < |MigratedItems(s)| ==>
              HasId(s, MigratedItems(s)[j].id) && HasId(s, MigratedItems(s)[k].id) &&
              FirstIndexOf(s, MigratedItems(s)[j].id) < FirstIndexOf(s, MigratedItems(s)[k].id)
  {
    FirstOccurrencesIds(s);
    FirstOccurrencesDistinct(s);
    FirstOccurrencesAreFirst(s);
    MigrateKeptShape(FirstOccurrences(s));
  }

  /**
   * Every migrated item has a type, a non-zero width and height, and as a container a
   * text and no legacy list; each default applies exactly where the input was absent or
   * zero (or, for the text, absent or empty).
   */
  lemma MigratedItemsAreNormalized(s: seq<Item>)
    ensures forall k :: 0 <= k < |MigratedItems(s)| ==> IsNormalized(MigratedItems(s)[k])
    ensures forall k :: 0 <= k < |MigratedItems(s)| ==>
              var (m, o) := (MigratedItems(s)[k], FirstOccurrences(s)[k]);
              m.id == o.id && m.kind == Some(o.kind.GetOr(Note)) &&
              m.width == Some(SizeOrDefault(o.width)) && m.height == Some(SizeOrDefault(o.height)) &&
              (m.kind == Some(Container) ==> m.text == Some(o.text.GetOr("")) && m.legacyItems.None?)
  {
    MigrateKeptShape(FirstOccurrences(s));
  }

  /**
   * Back-references: a non-container item whose identifier the legacy list of a kept
   * container names takes that container's identifier as `containerId`, the last such
   * container winning; an item no kept container names, and every container, keeps
   * the `containerId` it came with.
   */
  lemma MigratedBackReferences(s: seq<Item>)
    ensures |MigratedItems(s)| == |FirstOccurrences(s)|
    ensures forall j, k :: 0 <= j < |FirstOccurrences(s)| && 0 <= k < |MigratedItems(s)| &&
              Claims(FirstOccurrences(s)[j], MigratedItems(s)[k].id) &&
              MigratedItems(s)[k].kind != Some(Container) &&
              (forall l :: j < l < |FirstOccurrences(s)| ==> !Claims(FirstOccurrences(s)[l], MigratedItems(s)[k].id))
              ==> MigratedItems(s)[k].containerId == Some(MigratedItems(s)[j].id)
    ensures forall k :: 0 <= k < |MigratedItems(s)| &&
              (MigratedItems(s)[k].kind == Some(Container) ||
               forall l :: 0 <= l < |FirstOccurrences(s)| ==> !Claims(FirstOccurrences(s)[l], MigratedItems(s)[k].id))
              ==> MigratedItems(s)[k].containerId == FirstOccurrences(s)[k].containerId
  {
    MigrateKeptShape(FirstOccurrences(s));
  }

  /** A migrated board: dimensions from the input where present, else 100 x 80; id and name kept; fully formed exactly when id and name are non-empty. */
  lemma MigratedBoardFields(b: BoardDoc)
    requires b.items.Some?
    ensures MigratedBoard(b).id == b.id && MigratedBoard(b).name == b.name
    ensures b.width.Some? ==> MigratedBoard(b).width == b.width.value
    ensures b.width.None? ==> MigratedBoard(b).width == 100
    ensures b.height.Some? ==> MigratedBoard(b).height == b.height.value
    ensures b.height.None? ==> MigratedBoard(b).height == 80
    ensures IsFullyFormedBoard(ToDoc(MigratedBoard(b))) <==> b.id != "" && b.name != ""
  {
  }

  lemma {:induction false} FirstOccurrencesOfDistinct(s: seq<Item>)
    requires DistinctIds(s)
    ensures FirstOccurrences(s) == s
  {
    if s != [] {
      var p, x := s[..|s| - 1], s[|s| - 1];
      assert s == p + [x];
      assert DistinctIds(p) by {
        forall j, k | 0 <= j < k < |p| ensures p[j].id != p[k].id {
          assert p[j] == s[j] && p[k] == s[k];
        }
      }
      FirstOccurrencesOfDistinct(p);
      assert !HasId(p, x.id) by {
        forall j | 0 <= j < |p| ensures p[j].id != x.id {
          assert p[j] == s[j];
        }
      }
      FirstOccurrencesStep(p, x);
    }
  }

  /** Migration is the identity on a board whose items have distinct identifiers and are already normalized. */
  lemma MigrationFixesNormalBoards(b: Board)
    requires DistinctIds(b.items)
    requires forall k :: 0 <= k < |b.items| ==> IsNormalized(b.items[k])
    ensures MigratedBoard(ToDoc(b)) == b
  {
    FirstOccurrencesOfDistinct(b.items);
    var m := MigratedItems(b.items);
    assert |m| == |b.items|;
    forall k | 0 <= k < |b.items| ensures m[k] == b.items[k] {
      var it := b.items[k];
      if it.kind != Some(Container) {
        assert forall j :: 0 <= j < |b.items| ==> !Claims(b.items[j], it.id);
      }
    }
  }

  /** Migrating a migrated board changes nothing. */
  lemma MigrationIsIdempotent(b: BoardDoc)
    requires b.items.Some?
    ensures MigratedBoard(ToDoc(MigratedBoard(b))) == MigratedBoard(b)
  {
    MigrationKeepsFirstOccurrences(b.items.value);
    MigratedItemsAreNormalized(b.items.value);
    MigrationFixesNormalBoards(MigratedBoard(b));
  }

  /** Items made by the constructors, with non-zero sizes, and a new board need no migration. */
  lemma NewItemsNeedNoMigration(id: Id, text: string, color: Color, assetId: string, name: string,
                                x: int, y: int, w: int, h: int)
    requires w != 0 && h != 0
    ensures Normalize(NewNote(id, text)) == NewNote(id, text)
    ensures Normalize(NewNote(id, text, color, x, y, w, h)) == NewNote(id, text, color, x, y, w, h)
    ensures Normalize(NewText(id, text)) == NewText(id, text)
    ensures Normalize(NewText(id, text, x, y, w, h)) == NewText(id, text, x, y, w, h)
    ensures Normalize(NewContainer(id)) == NewContainer(id)
    ensures Normalize(NewContainer(id, x, y, w, h)) == NewContainer(id, x, y, w, h)
    ensures Normalize(NewImage(id, assetId)) == NewImage(id, assetId)
    ensures Normalize(NewImage(id, assetId, x, y, w, h)) == NewImage(id, assetId, x, y, w, h)
    ensures MigratedBoard(ToDoc(CreateBoard(id, name))) == CreateBoard(id, name)
    ensures IsFullyFormedBoard(ToDoc(CreateBoard(id, name))) <==> id != "" && name != ""
  {
    MigrationFixesNormalBoards(CreateBoard(id, name));
  }

  // ---------------------------------------------------------------------------
  // The loop of `migrateBoard`, proved against `MigratedBoard`

  /** `s.find(i => i.id === id)`, answering the position of the item found. */
  method FindById(s: seq<Item>, id: Id) returns (r: Option<nat>)
    ensures r == if HasId(s, id) then Some(FirstIndexOf(s, id)) else None
  {
    var k := 0;
    while k < |s|
      invariant 0 <= k <= |s|
      invariant forall j :: 0 <= j < k ==> s[j].id != id
    {
      if s[k].id == id {
        return Some(k);
      }
      k := k + 1;
    }
    return None;
  }

  lemma SameShapeFind(a: seq<Item>, b: seq<Item>)
    requires SameShape(a, b)
    ensures forall id :: HasId(a, id) <==> HasId(b, id)
    ensures forall id :: HasId(a, id) ==> FirstIndexOf(a, id) == FirstIndexOf(b, id)
    ensures forall k :: IsFirst(a, k) <==> IsFirst(b, k)
  {
    forall id ensures HasId(a, id) <==> HasId(b, id) {
      if HasId(a, id) { var j :| 0 <= j < |a| && a[j].id == id; assert b[j].id == id; }
      if HasId(b, id) { var j :| 0 <= j < |b| && b[j].id == id; assert a[j].id == id; }
    }
    forall id | HasId(a, id) ensures FirstIndexOf(a, id) == FirstIndexOf(b, id) {
      var ka, kb := FirstIndexOf(a, id), FirstIndexOf(b, id);
      assert a[kb].id == id && b[ka].id == id;
    }
  }

  lemma ClaimedShape(s: seq<Item>, cid: Id, ids: seq<Id>, shadow: seq<Item>)
    ensures SameShape(Claimed(s, cid, ids, shadow), s)
  {
  }

  /** Claiming one more identifier changes at most the first item carrying it. */
  lemma ClaimedStep(s: seq<Item>, cid: Id, ids: seq<Id>, t: nat, shadow: seq<Item>)
    requires t < |ids|
    ensures
      var cur := Claimed(s, cid, ids[..t], shadow);
      Claimed(s, cid, ids[..t + 1], shadow) ==
        if HasId(s, ids[t]) && !HasId(shadow, ids[t]) && s[FirstIndexOf(s, ids[t])].kind != Some(Container)
        then cur[FirstIndexOf(s, ids[t]) := cur[FirstIndexOf(s, ids[t])].(containerId := Some(cid))]
        else cur
  {
    var id := ids[t];
    assert ids[..t + 1] == ids[..t] + [id];
    var cur := Claimed(s, cid, ids[..t], shadow);
    var next := Claimed(s, cid, ids[..t + 1], shadow);
    forall k | 0 <= k < |s| && s[k].id != id ensures next[k] == cur[k] { }
    if HasId(s, id) {
      var f := FirstIndexOf(s, id);
      forall k | 0 <= k < |s| && k != f && s[k].id == id ensures next[k] == cur[k] && next[k] == s[k] {
        if k > f { assert s[f].id == s[k].id; }
      }
    }
  }

  /** The `forEach` over a container's legacy identifiers. */
  method AttachContainees(cid: Id, ids: seq<Id>, migrated: seq<Item>, boardItems: seq<Item>)
    returns (migratedOut: seq<Item>, boardItemsOut: seq<Item>)
    ensures migratedOut == Claimed(migrated, cid, ids, [])
    ensures boardItemsOut == Claimed(boardItems, cid, ids, migrated)
  {
    migratedOut, boardItemsOut := migrated, boardItems;
    assert ids[..0] == [];
    for t := 0 to |ids|
      invariant migratedOut == Claimed(migrated, cid, ids[..t], [])
      invariant boardItemsOut == Claimed(boardItems, cid, ids[..t], migrated)
    {
      var i := ids[t];
      ClaimedShape(migrated, cid, ids[..t], []);
      ClaimedShape(boardItems, cid, ids[..t], migrated);
      SameShapeFind(migratedOut, migrated);
      SameShapeFind(boardItemsOut, boardItems);
      ClaimedStep(migrated, cid, ids, t, []);
      ClaimedStep(boardItems, cid, ids, t, migrated);
      assert !HasId([], i);
      var found := FindById(migratedOut, i);
      if found.Some? {
        var k := found.value;
        if migratedOut[k].kind != Some(Container) {
          migratedOut := migratedOut[k := migratedOut[k].(containerId := Some(cid))];
        }
      } else {
        var q := FindById(boardItemsOut, i);
        if q.Some? && boardItemsOut[q.value].kind != Some(Container) {
          boardItemsOut := boardItemsOut[q.value := boardItemsOut[q.value].(containerId := Some(cid))];
        }
      }
    }
    assert ids[..|ids|] == ids;
  }

  /**
   * `migrateItem(item, migratedItems, boardItems)`: the fixed item, and both lists as the
   * container's `forEach` leaves them.
   */
  method MigrateItem(item: Item, migrated: seq<Item>, boardItems: seq<Item>)
    returns (fixed: Item, migratedOut: seq<Item>, boardItemsOut: seq<Item>)
    ensures fixed == Normalize(item)
    ensures HasLegacyList(item) ==>
              migratedOut == Claimed(migrated, item.id, item.legacyItems.value, []) &&
              boardItemsOut == Claimed(boardItems, item.id, item.legacyItems.value, migrated)
    ensures !HasLegacyList(item) ==> migratedOut == migrated && boardItemsOut == boardItems
  {
    fixed := item.(kind := Some(item.kind.GetOr(Note)),
                   width := Some(SizeOrDefault(item.width)),
                   height := Some(SizeOrDefault(item.height)));
    migratedOut, boardItemsOut := migrated, boardItems;
    if fixed.kind == Some(Container) {
      fixed := fixed.(text := Some(fixed.text.GetOr("")));
      if fixed.legacyItems.Some? {
        var ids := fixed.legacyItems.value;
        fixed := fixed.(legacyItems := None);
        migratedOut, boardItemsOut := AttachContainees(fixed.id, ids, migrated, boardItems);
      }
    }
  }

  /** The state of the loop of `migrateBoard` once the first `i` input items are done. */
  ghost predicate Progress(input: seq<Item>, i: int, items: seq<Item>, boardItems: seq<Item>)
  {
    0 <= i <= |input| && SameShape(boardItems, input) &&
    items == MigrateKept(FirstOccurrences(input[..i])) &&
    forall k :: i <= k < |input| ==>
      boardItems[k] == if IsFirst(input, k) then Attach(FirstOccurrences(input[..i]), input[k]) else input[k]
  }

  /** A container appended to the kept items only changes the owners of the identifiers it lists. */
  lemma OwnerAppend(kept: seq<Item>, x: Item, id: Id, current: Option<Id>)
    ensures Owner(kept + [x], id, current) ==
            if Claims(x, id) then Some(x.id) else Owner(kept, id, current)
  {
    assert (kept + [x])[..|kept|] == kept;
  }

  lemma NormalizeSetsContainer(y: Item, v: Option<Id>)
    ensures Normalize(y.(containerId := v)) == Normalize(y).(containerId := v)
  {
  }

  /** An input item at `k >= i` that is the first with its identifier has no identifier among the first `i`. */
  lemma FreshAfter(input: seq<Item>, i: nat, k: nat)
    requires i <= k && IsFirst(input, k)
    ensures !HasId(FirstOccurrences(input[..i]), input[k].id)
  {
    FirstOccurrencesIds(input[..i]);
  }

  lemma ProgressStart(input: seq<Item>)
    ensures Progress(input, 0, [], input)
  {
    assert input[..0] == [];
  }

  lemma ProgressDuplicate(input: seq<Item>, i: nat, items: seq<Item>, boardItems: seq<Item>)
    requires Progress(input, i, items, boardItems) && i < |input|
    requires HasId(items, input[i].id)
    ensures Progress(input, i + 1, items, boardItems)
  {
    assert input[..i + 1] == input[..i] + [input[i]];
    DuplicateKeepsKept(input[..i], input[i]);
    ProgressSameKept(input, i, items, boardItems);
  }

  /** An item whose identifier the migrated kept items already carry is dropped. */
  lemma DuplicateKeepsKept(p: seq<Item>, x: Item)
    requires HasId(MigrateKept(FirstOccurrences(p)), x.id)
    ensures FirstOccurrences(p + [x]) == FirstOccurrences(p)
  {
    MigrateKeptShape(FirstOccurrences(p));
    FirstOccurrencesStep(p, x);
  }

  /** Progress moves past an item that leaves the kept items as they were. */
  lemma ProgressSameKept(input: seq<Item>, i: nat, items: seq<Item>, boardItems: seq<Item>)
    requires Progress(input, i, items, boardItems) && i < |input|
    requires FirstOccurrences(input[..i + 1]) == FirstOccurrences(input[..i])
    ensures Progress(input, i + 1, items, boardItems)
  {
  }

  lemma ProgressNew(input: seq<Item>, i: nat, items: seq<Item>, boardItems: seq<Item>)
    requires Progress(input, i, items, boardItems) && i < |input|
    requires !HasId(items, input[i].id)
    ensures boardItems[i] == Attach(FirstOccurrences(input[..i]), input[i])
    ensures FirstOccurrences(input[..i + 1]) == FirstOccurrences(input[..i]) + [input[i]]
  {
    var k := FirstOccurrences(input[..i]);
    MigrateKeptShape(k);
    FirstOccurrencesIds(input[..i]);
    assert input[..i + 1] == input[..i] + [input[i]];
    FirstOccurrencesStep(input[..i], input[i]);
    forall j | 0 <= j < i ensures input[j].id != input[i].id {
      assert input[..i][j] == input[j];
    }
  }

  lemma ProgressPlain(input: seq<Item>, i: nat, items: seq<Item>, boardItems: seq<Item>)
    requires Progress(input, i, items, boardItems) && i < |input|
    requires !HasId(items, input[i].id) && !HasLegacyList(input[i])
    ensures Progress(input, i + 1, items + [Normalize(boardItems[i])], boardItems)
  {
    ProgressNew(input, i, items, boardItems);
    var k, x := FirstOccurrences(input[..i]), input[i];
    forall y ensures Attach(k + [x], y) == Attach(k, y) {
      OwnerAppend(k, x, y.id, y.containerId);
    }
    var m := items + [Normalize(boardItems[i])];
    var target := MigrateKept(k + [x]);
    assert |m| == |target|;
    forall j | 0 <= j < |m| ensures m[j] == target[j] {
      if j < |k| { assert (k + [x])[j] == k[j]; }
    }
  }

  /** A kept container with a legacy list: the migrated items so far gain its back-references. */
  lemma ContainerKeptItems(kept: seq<Item>, x: Item)
    requires DistinctIds(kept) && !HasId(kept, x.id) && HasLegacyList(x)
    ensures MigrateKept(kept + [x]) == Claimed(MigrateKept(kept), x.id, x.legacyItems.value, []) + [Normalize(x)]
  {
    var items := MigrateKept(kept);
    MigrateKeptShape(kept);
    assert !HasId([], x.id);
    var m := Claimed(items, x.id, x.legacyItems.value, []) + [Normalize(x)];
    var target := MigrateKept(kept + [x]);
    assert |m| == |target|;
    forall j | 0 <= j < |m| ensures m[j] == target[j] {
      if j < |kept| {
        assert (kept + [x])[j] == kept[j];
        assert IsFirst(items, j);
        assert !HasId([], items[j].id);
        OwnerAppend(kept, x, kept[j].id, kept[j].containerId);
        NormalizeSetsContainer(Attach(kept, kept[j]), Some(x.id));
      }
    }
  }

  /** A kept container with a legacy list: the input items still to come gain its back-references. */
  lemma ContainerPendingItems(input: seq<Item>, i: nat, items: seq<Item>, boardItems: seq<Item>)
    requires Progress(input, i, items, boardItems) && i < |input|
    requires !HasId(items, input[i].id) && HasLegacyList(input[i])
    ensures
      var (x, k) := (input[i], FirstOccurrences(input[..i]));
      var b := Claimed(boardItems, x.id, x.legacyItems.value, items);
      SameShape(b, input) &&
      forall q :: i + 1 <= q < |input| ==>
        b[q] == if IsFirst(input, q) then Attach(k + [x], input[q]) else input[q]
  {
    var k, x := FirstOccurrences(input[..i]), input[i];
    var l := x.legacyItems.value;
    MigrateKeptShape(k);
    var b := Claimed(boardItems, x.id, l, items);
    ClaimedShape(boardItems, x.id, l, items);
    SameShapeFind(boardItems, input);
    forall q | i + 1 <= q < |input|
      ensures b[q] == if IsFirst(input, q) then Attach(k + [x], input[q]) else input[q]
    {
      if IsFirst(input, q) {
        FreshAfter(input, i, q);
        OwnerAppend(k, x, input[q].id, input[q].containerId);
      }
    }
  }

  lemma ProgressContainer(input: seq<Item>, i: nat, items: seq<Item>, boardItems: seq<Item>)
    requires Progress(input, i, items, boardItems) && i < |input|
    requires !HasId(items, input[i].id) && HasLegacyList(input[i])
    ensures boardItems[i] == input[i]
    ensures
      var (x, l) := (input[i], input[i].legacyItems.value);
      Progress(input, i + 1, Claimed(items, x.id, l, []) + [Normalize(x)], Claimed(boardItems, x.id, l, items))
  {
    ProgressNew(input, i, items, boardItems);
    var k := FirstOccurrences(input[..i]);
    MigrateKeptShape(k);
    FirstOccurrencesDistinct(input[..i]);
    ContainerKeptItems(k, input[i]);
    ContainerPendingItems(input, i, items, boardItems);
  }

  /** `migrateBoard`: drop later duplicates, migrate each kept item, default the board's size. */
  method MigrateBoard(board: BoardDoc) returns (r: Board)
    requires board.items.Some?
    ensures r == MigratedBoard(board)
  {
    ghost var input := board.items.value;
    var boardItems := board.items.value;
    var items: seq<Item> := [];
    ProgressStart(input);
    for i := 0 to |boardItems|
      invariant Progress(input, i, items, boardItems)
    {
      var item := boardItems[i];
      var dup := FindById(items, item.id);
      if dup.Some? {
        ProgressDuplicate(input, i, items, boardItems);
      } else {
        ProgressNew(input, i, items, boardItems);
        if HasLegacyList(item) {
          ProgressContainer(input, i, items, boardItems);
        } else {
          ProgressPlain(input, i, items, boardItems);
        }
        var fixed, migrated, rest := MigrateItem(item, items, boardItems);
        items, boardItems := migrated + [fixed], rest;
      }
    }
    assert input[..|input|] == input;
    r := Board(board.id, board.name, board.width.GetOr(DefaultBoardWidth),
               board.height.GetOr(DefaultBoardHeight), items);
  }
}
