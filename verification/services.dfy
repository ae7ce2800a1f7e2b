// The folder and file services as they change the store.
module Services {
  import opened Basics
  import opened Tables
  import opened Store
  import opened BackendStore
  import opened ParentFolders
  import FolderSpec = BucketFolder
  import FileSpec = BucketFile

  class BucketFolderService {
    const db: Backend
    const retention: nat

    constructor (db: Backend, retention: nat)
      ensures this.db == db && this.retention == retention
    {
      this.db := db;
      this.retention := retention;
    }

    method CreateFolder(id: Id, name: string, parent: Option<Id>) returns (reply: Reply)
      modifies db
      ensures (db.View(), reply) == FolderSpec.CreateFolder(old(db.View()), id, name, parent)
    {
      if parent.Some? && (parent.value !in db.folders || !db.folders[parent.value].Live()) {
        return NotFound;
      }
      if NameTaken(db.folders, name, parent, id) {
        return Conflict;
      }
      db.folders := db.folders[id := Row(name, parent, Unset, None, None)];
      return Accepted;
    }

    method UpdateFolder(id: Id, name: string) returns (reply: Reply)
      modifies db
      ensures (db.View(), reply) == FolderSpec.UpdateFolder(old(db.View()), id, name)
    {
      if id !in db.folders || !db.folders[id].Live() {
        return NotFound;
      }
      if NameTaken(db.folders, name, db.folders[id].parent, id) {
        return Conflict;
      }
      db.folders := db.folders[id := db.folders[id].(name := name)];
      return Accepted;
    }

    method TrashFolder(id: Id, user: Id, now: nat) returns (reply: Reply)
      modifies db
      ensures (db.View(), reply) == FolderSpec.TrashFolder(old(db.View()), id, user, now)
    {
      if id !in db.folders {
        return NotFound;
      }
      if !db.folders[id].Live() || db.folders[id].status == Restoring {
        return Conflict;
      }
      db.folders := db.folders[id := db.folders[id].(status := Deleted, deletedBy := Some(user))];
      db.folders := db.folders[id := db.folders[id].(deletedAt := Some(now))];
      assert db.folders == old(db.folders)[id := old(db.folders)[id].Trash(user, now)];
      db.MarkFolder(id);
      db.Publish(FolderTrash(id, user));
      return Accepted;
    }

    method RestoreFolder(id: Id, user: Id, now: nat) returns (reply: Reply)
      requires Acyclic(db.folders)
      modifies db
      ensures (db.View(), reply) == FolderSpec.RestoreFolder(old(db.View()), id, user, now, retention)
    {
      if id !in db.folders {
        return NotFound;
      }
      var row := db.folders[id];
      if row.Live() || row.status == Restoring {
        return Conflict;
      }
      if now - row.deletedAt.value > retention {
        return Expired;
      }
      // The transaction works on `tx`; leaving early discards it.
      var ok, tx, parents := RestoreParentFolders(db.folders, row.parent);
      if !ok {
        return Conflict;
      }
      if NameTaken(tx, row.name, row.parent, id) {
        return Conflict;
      }
      tx := tx[id := row.(status := Restoring)];
      db.folders := tx;
      assert Ids(parents) == TrashedAncestors(old(db.folders), row.parent);
      UnmarkTwice(db.View(), FolderMarkers(Ids(parents)), {FolderMarker(id)});
      db.UnmarkFolders(parents);
      db.Unmark(FolderMarker(id));
      db.Publish(FolderRestore(id, user));
      return Accepted;
    }

    method PurgeFolder(id: Id, user: Id) returns (reply: Reply)
      modifies db
      ensures (db.View(), reply) == FolderSpec.PurgeFolder(old(db.View()), id, user)
    {
      if id !in db.folders {
        return NotFound;
      }
      if db.folders[id].Live() {
        return Conflict;
      }
      db.Publish(FolderPurge(id, user));
      return Accepted;
    }
  }

  class BucketFileService {
    const db: Backend

    constructor (db: Backend)
      ensures this.db == db
    {
      this.db := db;
    }

    method UploadFile(id: Id, name: string, parent: Option<Id>) returns (reply: Reply)
      modifies db
      ensures (db.View(), reply) == FileSpec.UploadFile(old(db.View()), id, name, parent)
    {
      if parent.Some? && (parent.value !in db.folders || !db.folders[parent.value].Live()) {
        return NotFound;
      }
      if NameTaken(db.files, name, parent, id) {
        return Conflict;
      }
      db.files := db.files[id := Row(name, parent, Uploading, None, None)];
      return Accepted;
    }

    method TrashFile(id: Id, user: Id, now: nat, logOk: bool) returns (reply: Reply)
      modifies db
      ensures (db.View(), reply) == FileSpec.TrashFile(old(db.View()), id, user, now, logOk)
    {
      if id !in db.files || !db.files[id].Live() {
        return NotFound;
      }
      if db.files[id].status != Uploaded {
        return Conflict;
      }
      var tx := db.files[id := db.files[id].(status := Deleted, deletedBy := Some(user))];
      tx := tx[id := tx[id].(deletedAt := Some(now))];
      assert tx == db.files[id := db.files[id].Trash(user, now)];
      var marked := db.MarkFile(id);
      if !marked || !logOk {
        return Failed;
      }
      db.files := tx;
      return Accepted;
    }

    method RestoreFile(id: Id, logOk: bool) returns (reply: Reply)
      requires Acyclic(db.folders)
      modifies db
      ensures (db.View(), reply) == FileSpec.RestoreFile(old(db.View()), id, logOk)
    {
      if id !in db.files || db.files[id].Live() {
        return NotFound;
      }
      var row := db.files[id];
      if row.status == Restoring {
        return Conflict;
      }
      var ok, tx, parents := RestoreParentFolders(db.folders, row.parent);
      if !ok {
        return Conflict;
      }
      if NameTaken(db.files, row.name, row.parent, id) {
        return Conflict;
      }
      if !logOk {
        return Failed;
      }
      db.folders := tx;
      db.files := db.files[id := row.Revive(Uploaded)];
      assert Ids(parents) == TrashedAncestors(old(db.folders), row.parent);
      UnmarkTwice(db.View(), FolderMarkers(Ids(parents)), {FileMarker(id)});
      db.UnmarkFolders(parents);
      db.Unmark(FileMarker(id));
      return Accepted;
    }

    method PurgeFile(id: Id, logOk: bool) returns (reply: Reply)
      modifies db
      ensures (db.View(), reply) == FileSpec.PurgeFile(old(db.View()), id, logOk)
    {
      if id !in db.files {
        return NotFound;
      }
      if db.files[id].Live() {
        return Conflict;
      }
      db.Unmark(FileMarker(id));
      db.RemoveObjects({id});
      var tx := db.files - {id};
      if !logOk {
        return Failed;
      }
      db.files := tx;
      return Accepted;
    }
  }
}
