/** Files and folders of a Drive tree: names need not be unique there, which storage keys rely on. */
module DriveFiles {
  import opened Wrappers
  import opened ChunkManifests

  /** Drive's opaque ids. */
  type Id = nat

  datatype Item = Item(parent: Id, name: string, isFolder: bool, content: Bytes)

  type Items = map<Id, Item>

  /** A storage key: the folders on the way and the name of the object. */
  datatype ObjectKey = ObjectKey(folder: seq<string>, name: string)

  predicate Matches(item: Item, parent: Id, name: string, isFolder: bool) {
    item.parent == parent && item.name == name && item.isFolder == isFolder
  }

  function Children(items: Items, parent: Id, name: string, isFolder: bool): set<Id> {
    set id | id in items && Matches(items[id], parent, name, isFolder)
  }

  /** `id` is the folder at this path below the root. */
  predicate FolderAt(items: Items, root: Id, path: seq<string>, id: Id)
    decreases |path|
  {
    if path == [] then id == root
    else id in items && items[id].isFolder && items[id].name == path[|path| - 1]
         && FolderAt(items, root, path[..|path| - 1], items[id].parent)
  }

  predicate FileAt(items: Items, root: Id, key: ObjectKey, id: Id) {
    id in items && !items[id].isFolder && items[id].name == key.name
      && FolderAt(items, root, key.folder, items[id].parent)
  }

  /** At most one folder and one file per name in each folder. */
  ghost predicate Unique(items: Items) {
    forall a, b | a in items && b in items && a != b ::
      !Matches(items[a], items[b].parent, items[b].name, items[b].isFolder)
  }

  lemma {:induction false} FolderUnique(items: Items, root: Id, path: seq<string>, a: Id, b: Id)
    requires Unique(items) && FolderAt(items, root, path, a) && FolderAt(items, root, path, b)
    ensures a == b
    decreases |path|
  {
    if path != [] { FolderUnique(items, root, path[..|path| - 1], items[a].parent, items[b].parent); }
  }

  /** A logical key names at most one file. */
  lemma FileUnique(items: Items, root: Id, key: ObjectKey, a: Id, b: Id)
    requires Unique(items) && FileAt(items, root, key, a) && FileAt(items, root, key, b)
    ensures a == b
  {
    FolderUnique(items, root, key.folder, items[a].parent, items[b].parent);
  }

  /** Items stay where they are; only contents may change and items may be added. */
  ghost predicate Grown(a: Items, b: Items) {
    forall id | id in a :: id in b && Matches(b[id], a[id].parent, a[id].name, a[id].isFolder)
  }

  lemma {:induction false} FolderStays(a: Items, b: Items, root: Id, path: seq<string>, id: Id)
    requires Grown(a, b) && FolderAt(a, root, path, id)
    ensures FolderAt(b, root, path, id)
    decreases |path|
  {
    if path != [] { FolderStays(a, b, root, path[..|path| - 1], a[id].parent); }
  }

  lemma FileStays(a: Items, b: Items, root: Id, key: ObjectKey, id: Id)
    requires Grown(a, b) && FileAt(a, root, key, id)
    ensures FileAt(b, root, key, id)
  {
    FolderStays(a, b, root, key.folder, a[id].parent);
  }

  /** An added item is a folder on the way to the key, or the key's own file with these bytes. */
  ghost predicate Belongs(items: Items, root: Id, key: ObjectKey, data: Bytes, id: Id) {
    id in items &&
    if items[id].isFolder then exists k :: 0 <= k <= |key.folder| && FolderAt(items, root, key.folder[..k], id)
    else FileAt(items, root, key, id) && items[id].content == data
  }

  /**
   What a put may do, whatever fails on the way: nothing is removed or moved, an existing
   object keeps its bytes unless it is the key's own and gets the new ones, and nothing is
   added but missing folders of the key and its file with the new bytes.
   */
  ghost predicate PutEffect(a: Items, b: Items, root: Id, key: ObjectKey, data: Bytes) {
    && Grown(a, b)
    && (forall id | id in a && b[id] != a[id] :: FileAt(b, root, key, id) && b[id].content == data)
    && (forall id | id in b && id !in a :: Belongs(b, root, key, data, id))
  }

  lemma EffectNothing(a: Items, root: Id, key: ObjectKey, data: Bytes)
    ensures PutEffect(a, a, root, key, data)
  {
  }

  lemma BelongsStays(b: Items, c: Items, root: Id, key: ObjectKey, data: Bytes, id: Id)
    requires Grown(b, c) && Belongs(b, root, key, data, id)
    requires c[id].content == b[id].content || (FileAt(c, root, key, id) && c[id].content == data)
    ensures Belongs(c, root, key, data, id)
  {
    if b[id].isFolder {
      var k :| 0 <= k <= |key.folder| && FolderAt(b, root, key.folder[..k], id);
      FolderStays(b, c, root, key.folder[..k], id);
    } else {
      FileStays(b, c, root, key, id);
    }
  }

  lemma EffectTransitive(a: Items, b: Items, c: Items, root: Id, key: ObjectKey, data: Bytes)
    requires PutEffect(a, b, root, key, data) && PutEffect(b, c, root, key, data)
    ensures PutEffect(a, c, root, key, data)
  {
    forall id | id in a ensures id in c && Matches(c[id], a[id].parent, a[id].name, a[id].isFolder) {
      assert Matches(b[id], a[id].parent, a[id].name, a[id].isFolder);
    }
    forall id | id in a && c[id] != a[id] ensures FileAt(c, root, key, id) && c[id].content == data {
      if c[id] == b[id] { FileStays(b, c, root, key, id); }
    }
    forall id | id in c && id !in a ensures Belongs(c, root, key, data, id) {
      if id in b { BelongsStays(b, c, root, key, data, id); }
    }
  }

  lemma FolderAdded(a: Items, root: Id, key: ObjectKey, data: Bytes, k: nat, parent: Id, id: Id, content: Bytes)
    requires Unique(a) && id !in a && id != root && k < |key.folder| && FolderAt(a, root, key.folder[..k], parent)
    requires Children(a, parent, key.folder[k], true) == {}
    ensures var b := a[id := Item(parent, key.folder[k], true, content)];
      Unique(b) && PutEffect(a, b, root, key, data) && FolderAt(b, root, key.folder[..k + 1], id)
  {
    var b := a[id := Item(parent, key.folder[k], true, content)];
    assert forall other | other in a :: other !in Children(a, parent, key.folder[k], true);
    assert Grown(a, b);
    FolderStays(a, b, root, key.folder[..k], parent);
    assert key.folder[..k + 1][..k] == key.folder[..k];
    assert FolderAt(b, root, key.folder[..k + 1], id);
  }

  lemma FileAdded(a: Items, root: Id, key: ObjectKey, data: Bytes, parent: Id, id: Id)
    requires Unique(a) && id !in a && FolderAt(a, root, key.folder, parent)
    requires Children(a, parent, key.name, false) == {}
    ensures var b := a[id := Item(parent, key.name, false, data)];
      Unique(b) && PutEffect(a, b, root, key, data) && FileAt(b, root, key, id)
  {
    var b := a[id := Item(parent, key.name, false, data)];
    assert forall other | other in a :: other !in Children(a, parent, key.name, false);
    assert Grown(a, b);
    FolderStays(a, b, root, key.folder, parent);
  }

  lemma FileUpdated(a: Items, root: Id, key: ObjectKey, data: Bytes, id: Id)
    requires Unique(a) && FileAt(a, root, key, id)
    ensures var b := a[id := a[id].(content := data)];
      Unique(b) && PutEffect(a, b, root, key, data) && FileAt(b, root, key, id)
  {
    var b := a[id := a[id].(content := data)];
    assert Grown(a, b);
    FileStays(a, b, root, key, id);
    forall x, y | x in b && y in b && x != y ensures !Matches(b[x], b[y].parent, b[y].name, b[y].isFolder) {
      assert !Matches(a[x], a[y].parent, a[y].name, a[y].isFolder);
    }
  }

  /**
   After a put, successful or not, the key names at most one file: the one it named before,
   if any, with its old bytes or the new ones.
   */
  lemma OldOrNewBytes(a: Items, b: Items, root: Id, key: ObjectKey, data: Bytes, id: Id)
    requires PutEffect(a, b, root, key, data) && Unique(b) && FileAt(b, root, key, id)
    ensures b[id].content == data || (id in a && b[id] == a[id])
    ensures forall other | FileAt(a, root, key, other) || FileAt(b, root, key, other) :: other == id
  {
    forall other | FileAt(a, root, key, other) || FileAt(b, root, key, other) ensures other == id {
      if FileAt(a, root, key, other) { FileStays(a, b, root, key, other); }
      FileUnique(b, root, key, other, id);
    }
  }
}
