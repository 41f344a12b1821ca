/**
 The Drive backend's put: it looks names up before every attempt, so that an upload or a
 folder whose confirmation was lost is found again and not made twice.
 */
module DriveBackends {
  import opened Wrappers
  import opened ChunkManifests
  import opened DriveFiles

  /** A raised request: whether `_is_retryable` accepts it. */
  datatype DriveError = DriveError(retryable: bool)

  class DriveStorageBackend {
    const root: Id
    const retryAttempts: nat
    /** No request raises. */
    const reliable: bool
    /** The remote tree. */
    var items: Items
    var nextId: Id
    var folderCache: map<seq<string>, Id>
    var fileCache: map<ObjectKey, Id>

    ghost predicate Valid()
      reads this
    {
      && retryAttempts > 0 && root !in items && root < nextId && Unique(items)
      && (forall id | id in items :: id < nextId)
      && (forall p | p in folderCache :: FolderAt(items, root, p, folderCache[p]))
      && (forall k | k in fileCache :: FileAt(items, root, k, fileCache[k]))
    }

    constructor (root: Id, retryAttempts: nat, reliable: bool, items: Items, nextId: Id)
      requires retryAttempts > 0 && root !in items && root < nextId && Unique(items)
      requires forall id | id in items :: id < nextId
      ensures Valid() && this.items == items && this.root == root
      ensures this.retryAttempts == retryAttempts && this.reliable == reliable
    {
      this.root, this.retryAttempts, this.reliable := root, retryAttempts, reliable;
      this.items, this.nextId := items, nextId;
      folderCache, fileCache := map[[] := root], map[];
    }

    // ---------- Single requests, each of which may raise ----------

    /** `_find_children` by name and kind, its own retries included. */
    method FindChildren(parent: Id, name: string, isFolder: bool) returns (r: Result<set<Id>, DriveError>)
      ensures r.Ok? ==> r.value == Children(items, parent, name, isFolder)
      ensures reliable ==> r.Ok?
    {
      var raises: bool, retryable: bool := *, *;
      raises := raises && !reliable;
      return if raises then Err(DriveError(retryable)) else Ok(Children(items, parent, name, isFolder));
    }

    /** A create request: it may raise before or after the server commits it. */
    method Create(parent: Id, name: string, isFolder: bool, content: Bytes) returns (r: Result<Id, DriveError>)
      requires forall id | id in items :: id < nextId
      modifies `items, `nextId
      ensures if nextId == old(nextId) then r.Err? && items == old(items)
              else nextId == old(nextId) + 1
                      && items == old(items)[old(nextId) := Item(parent, name, isFolder, content)]
      ensures r.Ok? ==> r.value == old(nextId) && nextId != old(nextId)
      ensures reliable ==> r.Ok?
    {
      var commits: bool, raises: bool, retryable: bool := *, *, *;
      raises := raises && !reliable;
      if !commits && raises {
        return Err(DriveError(retryable));
      }
      var id := nextId;
      items, nextId := items[id := Item(parent, name, isFolder, content)], id + 1;
      return if raises then Err(DriveError(retryable)) else Ok(id);
    }

    /** An update request. */
    method Update(id: Id, content: Bytes) returns (r: Result<(), DriveError>)
      requires id in items
      modifies `items
      ensures items == old(items) || items == old(items)[id := old(items)[id].(content := content)]
      ensures r.Ok? ==> items == old(items)[id := old(items)[id].(content := content)]
      ensures reliable ==> r.Ok?
    {
      var commits: bool, raises: bool, retryable: bool := *, *, *;
      raises := raises && !reliable;
      if commits || !raises {
        items := items[id := items[id].(content := content)];
      }
      return if raises then Err(DriveError(retryable)) else Ok(());
    }

    // ---------- Folders ----------

    /** One attempt of `ensure_folder`. */
    method EnsureFolderOnce(ghost key: ObjectKey, ghost data: Bytes, ghost k: nat, parent: Id, name: string)
      returns (r: Result<Id, DriveError>)
      requires Valid() && k < |key.folder| && name == key.folder[k] && FolderAt(items, root, key.folder[..k], parent)
      modifies `items, `nextId
      ensures Valid() && PutEffect(old(items), items, root, key, data)
      ensures FolderAt(items, root, key.folder[..k], parent)
      ensures r.Ok? ==> FolderAt(items, root, key.folder[..k + 1], r.value)
      ensures reliable ==> r.Ok?
    {
      hide FolderAt, FileAt, PutEffect, Unique;
      EffectNothing(items, root, key, data);
      var existing :- FindChildren(parent, name, true);
      if existing != {} {
        var id :| id in existing;
        ChildIsFolder(items, root, key.folder, k, parent, id);
        return Ok(id);
      }
      ghost var before, id := items, nextId;
      r := Create(parent, name, true, []);
      if nextId != id {
        FolderAdded(before, root, key, data, k, parent, id, []);
        CachesStay(before, items, root, key, data, folderCache, fileCache);
        Stays(before, items, root, key, data, key.folder[..k], parent);
      }
    }

    /** `_retry` around `ensure_folder`; it gives up on an error that is not retryable or after all attempts. */
    method EnsureFolder(ghost key: ObjectKey, ghost data: Bytes, ghost k: nat, parent: Id, name: string)
      returns (r: Result<Id, DriveError>, ghost attempts: nat)
      requires Valid() && k < |key.folder| && name == key.folder[k] && FolderAt(items, root, key.folder[..k], parent)
      modifies `items, `nextId
      ensures Valid() && PutEffect(old(items), items, root, key, data)
      ensures r.Ok? ==> FolderAt(items, root, key.folder[..k + 1], r.value)
      ensures reliable ==> r.Ok?
      ensures r.Err? ==> attempts == retryAttempts || !r.error.retryable
      ensures 1 <= attempts <= retryAttempts
    {
      hide FolderAt, FileAt, PutEffect, Unique;
      EffectNothing(items, root, key, data);
      var attempt := 0;
      attempts := 0;
      while true
        invariant Valid() && attempts == attempt < retryAttempts && PutEffect(old(items), items, root, key, data)
        invariant FolderAt(items, root, key.folder[..k], parent)
        decreases retryAttempts - attempt
      {
        ghost var before := items;
        r := EnsureFolderOnce(key, data, k, parent, name);
        attempts := attempts + 1;
        EffectTransitive(old(items), before, items, root, key, data);
        if r.Ok? || attempt + 1 >= retryAttempts || !r.error.retryable {
          return;
        }
        attempt := attempt + 1;
      }
    }

    /** `_resolve_folder_id`; with `create` it makes the folders that are missing. */
    method ResolveFolder(ghost key: ObjectKey, ghost data: Bytes, path: seq<string>, create: bool)
      returns (r: Result<Option<Id>, DriveError>)
      requires Valid() && path == key.folder
      modifies this
      ensures Valid() && PutEffect(old(items), items, root, key, data) && (!create ==> items == old(items))
      ensures r.Ok? && r.value.Some? ==> FolderAt(items, root, path, r.value.value)
      ensures r.Ok? && r.value.None? ==> !create && forall id :: !FolderAt(items, root, path, id)
      ensures reliable ==> r.Ok?
    {
      hide FolderAt, FileAt, PutEffect, Unique;
      EffectNothing(items, root, key, data);
      if path in folderCache {
        return Ok(Some(folderCache[path]));
      }
      var current := root;
      RootAt(items, root, path);
      for k := 0 to |path|
        invariant Valid() && PutEffect(old(items), items, root, key, data) && (!create ==> items == old(items))
        invariant FolderAt(items, root, path[..k], current)
      {
        ghost var before := items;
        if path[..k + 1] in folderCache {
          current := folderCache[path[..k + 1]];
          continue;
        }
        var matches :- FindChildren(current, path[k], true);
        if matches != {} {
          var id :| id in matches;
          ChildIsFolder(items, root, path, k, current, id);
          current := id;
        } else if create {
          var made, _ := EnsureFolder(key, data, k, current, path[k]);
          EffectTransitive(old(items), before, items, root, key, data);
          if made.Err? {
            return Err(made.error);
          }
          current := made.value;
        } else {
          NoFolder(items, root, path, k, current);
          return Ok(None);
        }
        folderCache := folderCache[path[..k + 1] := current];
      }
      assert path[..|path|] == path;
      return Ok(Some(current));
    }

    /** `_resolve_file_id` of a key that is not cached. */
    method ResolveFile(key: ObjectKey, ghost data: Bytes) returns (r: Result<Option<Id>, DriveError>)
      requires Valid()
      modifies this
      ensures Valid() && items == old(items)
      ensures r.Ok? && r.value.Some? ==> FileAt(items, root, key, r.value.value)
      ensures r.Ok? && r.value.None? ==> forall id :: !FileAt(items, root, key, id)
      ensures reliable ==> r.Ok?
    {
      hide FolderAt, FileAt, PutEffect, Unique;
      if key in fileCache {
        return Ok(Some(fileCache[key]));
      }
      var parent :- ResolveFolder(key, data, key.folder, false);
      if parent.None? {
        NoFolderNoFile(items, root, key);
        return Ok(None);
      }
      var matches :- FindChildren(parent.value, key.name, false);
      FilesAre(items, root, key, parent.value);
      if matches == {} {
        return Ok(None);
      }
      var id :| id in matches;
      fileCache := fileCache[key := id];
      return Ok(Some(id));
    }

    /** One attempt of `put_logical_object`: what is there is looked up anew. */
    method PutOnce(key: ObjectKey, data: Bytes, parent: Id) returns (r: Result<(), DriveError>)
      requires Valid() && FolderAt(items, root, key.folder, parent)
      modifies this
      ensures Valid() && PutEffect(old(items), items, root, key, data) && FolderAt(items, root, key.folder, parent)
      ensures r.Ok? ==> exists id :: FileAt(items, root, key, id) && items[id].content == data
      ensures reliable ==> r.Ok?
    {
      hide FolderAt, FileAt, PutEffect, Unique;
      EffectNothing(items, root, key, data);
      fileCache := fileCache - {key};
      var existing :- ResolveFile(key, data);
      ghost var before, newId := items, nextId;
      if existing.None? {
        NoChildren(items, root, key, parent);
        var created := Create(parent, key.name, false, data);
        if nextId != newId {
          FileAdded(before, root, key, data, parent, newId);
          CachesStay(before, items, root, key, data, folderCache, fileCache);
          Stays(before, items, root, key, data, key.folder, parent);
        }
        if created.Err? {
          return Err(created.error);
        }
        fileCache := fileCache[key := created.value];
      } else {
        var id := existing.value;
        IsItem(items, root, key, id);
        var updated := Update(id, data);
        if items != before || updated.Ok? {
          FileUpdated(before, root, key, data, id);
          CachesStay(before, items, root, key, data, folderCache, fileCache);
          Stays(before, items, root, key, data, key.folder, parent);
        }
        if updated.Err? {
          return Err(updated.error);
        }
        fileCache := fileCache[key := id];
      }
      return Ok(());
    }

    /**
     `put_bytes` and `put_file`.  Under any pattern of lost requests and lost responses names
     stay unique; success means the key's file holds the given bytes.
     */
    method Put(key: ObjectKey, data: Bytes) returns (r: Result<Digest, DriveError>, ghost attempts: nat)
      requires Valid()
      modifies this
      ensures Valid() && PutEffect(old(items), items, root, key, data)
      ensures r.Ok? ==>
        r.value == Sha256(data) && exists id :: FileAt(items, root, key, id) && items[id].content == data
      ensures reliable ==> r.Ok?
      ensures attempts <= retryAttempts && (r.Ok? ==> attempts > 0)
      ensures r.Err? && attempts > 0 ==> attempts == retryAttempts || !r.error.retryable
    {
      hide FolderAt, FileAt, PutEffect, Unique;
      attempts := 0;
      var parent := ResolveFolder(key, data, key.folder, true);
      if parent.Err? {
        return Err(parent.error), attempts;
      }
      var folder, attempt := parent.value.value, 0;
      while true
        invariant Valid() && attempts == attempt < retryAttempts && PutEffect(old(items), items, root, key, data)
        invariant FolderAt(items, root, key.folder, folder)
        decreases retryAttempts - attempt
      {
        ghost var before := items;
        var put := PutOnce(key, data, folder);
        attempts := attempts + 1;
        EffectTransitive(old(items), before, items, root, key, data);
        if put.Ok? {
          return Ok(Sha256(data)), attempts;
        }
        if attempt + 1 >= retryAttempts || !put.error.retryable {
          return Err(put.error), attempts;
        }
        attempt := attempt + 1;
      }
    }
  }

  // ---------- Facts about the tree ----------

  lemma RootAt(items: Items, root: Id, path: seq<string>)
    ensures FolderAt(items, root, path[..0], root)
  {
  }

  lemma ChildIsFolder(items: Items, root: Id, path: seq<string>, k: nat, parent: Id, id: Id)
    requires k < |path| && FolderAt(items, root, path[..k], parent) && id in Children(items, parent, path[k], true)
    ensures FolderAt(items, root, path[..k + 1], id)
  {
    assert path[..k + 1][..k] == path[..k];
  }

  lemma IsItem(items: Items, root: Id, key: ObjectKey, id: Id)
    requires FileAt(items, root, key, id)
    ensures id in items
  {
  }

  lemma Stays(a: Items, b: Items, root: Id, key: ObjectKey, data: Bytes, path: seq<string>, id: Id)
    requires PutEffect(a, b, root, key, data) && FolderAt(a, root, path, id)
    ensures FolderAt(b, root, path, id)
  {
    FolderStays(a, b, root, path, id);
  }

  lemma CachesStay(a: Items, b: Items, root: Id, key: ObjectKey, data: Bytes,
                   folders: map<seq<string>, Id>, files: map<ObjectKey, Id>)
    requires PutEffect(a, b, root, key, data)
    requires forall p | p in folders :: FolderAt(a, root, p, folders[p])
    requires forall k | k in files :: FileAt(a, root, k, files[k])
    ensures forall p | p in folders :: FolderAt(b, root, p, folders[p])
    ensures forall k | k in files :: FileAt(b, root, k, files[k])
  {
    forall p | p in folders ensures FolderAt(b, root, p, folders[p]) {
      FolderStays(a, b, root, p, folders[p]);
    }
    forall k | k in files ensures FileAt(b, root, k, files[k]) {
      FileStays(a, b, root, k, files[k]);
    }
  }

  lemma IsChild(items: Items, root: Id, path: seq<string>, parent: Id, id: Id)
    requires Unique(items) && path != [] && FolderAt(items, root, path[..|path| - 1], parent)
            && FolderAt(items, root, path, id)
    ensures id in Children(items, parent, path[|path| - 1], true)
  {
    FolderUnique(items, root, path[..|path| - 1], items[id].parent, parent);
  }

  /** Where a folder has no child of the name, nothing deeper exists either. */
  lemma {:induction false} NoFolder(items: Items, root: Id, path: seq<string>, k: nat, parent: Id)
    requires Unique(items) && k < |path| && FolderAt(items, root, path[..k], parent)
    requires Children(items, parent, path[k], true) == {}
    ensures forall id :: !FolderAt(items, root, path, id)
    decreases |path|
  {
    forall id ensures !FolderAt(items, root, path, id) {
      if FolderAt(items, root, path, id) {
        var shorter := path[..|path| - 1];
        if k == |path| - 1 {
          IsChild(items, root, path, parent, id);
        } else {
          assert shorter[..k] == path[..k];
          NoFolder(items, root, shorter, k, parent);
        }
      }
    }
  }

  lemma NoFolderNoFile(items: Items, root: Id, key: ObjectKey)
    requires forall id :: !FolderAt(items, root, key.folder, id)
    ensures forall id :: !FileAt(items, root, key, id)
  {
  }

  lemma FilesAre(items: Items, root: Id, key: ObjectKey, parent: Id)
    requires Unique(items) && FolderAt(items, root, key.folder, parent)
    ensures forall id :: FileAt(items, root, key, id) <==> id in Children(items, parent, key.name, false)
  {
    forall id ensures FileAt(items, root, key, id) <==> id in Children(items, parent, key.name, false) {
      if FileAt(items, root, key, id) { FolderUnique(items, root, key.folder, items[id].parent, parent); }
    }
  }

  lemma NoChildren(items: Items, root: Id, key: ObjectKey, parent: Id)
    requires Unique(items) && FolderAt(items, root, key.folder, parent) && forall id :: !FileAt(items, root, key, id)
    ensures Children(items, parent, key.name, false) == {}
  {
    FilesAre(items, root, key, parent);
  }
}
