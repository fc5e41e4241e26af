/** lib/file-storage.ts: the in-memory store of uploaded files. Each stored file has a
    cleanup timer that removes it 30 minutes after it was (last) stored; the timer is
    modelled by the time at which it fires, and firing by an explicit expiry step. */
module FileStorage {
  import opened Wrappers
  import opened Buffers

  datatype Metadata = Metadata(originalName: string, filename: string, size: nat, fileType: string, uploadedAt: string)

  datatype StoredFile = StoredFile(buffer: Buffer, metadata: Metadata)

  type Files = map<string, StoredFile>

  /** 30 minutes, in milliseconds. */
  const CLEANUP_DELAY := 1800000

  /** The sum of the lengths of the stored buffers. */
  ghost function TotalSize(files: Files): nat
    decreases |files|
  {
    if files == map[] then 0
    else
      var id :| id in files;
      |files[id].buffer| + TotalSize(files - {id})
  }

  /** The sum does not depend on which entry is taken out first. */
  lemma {:induction false} TotalSizeRemove(files: Files, id: string)
    requires id in files
    ensures TotalSize(files) == |files[id].buffer| + TotalSize(files - {id})
    decreases |files|
  {
    var first :| first in files && TotalSize(files) == |files[first].buffer| + TotalSize(files - {first});
    if first != id {
      var rest := files - {first};
      TotalSizeRemove(rest, id);
      TotalSizeRemove(files - {id}, first);
      assert rest - {id} == (files - {id}) - {first};
    }
  }

  /** Storing a file replaces the size of any file stored under the same id. */
  lemma TotalSizeStore(files: Files, id: string, file: StoredFile)
    ensures TotalSize(files[id := file])
            == TotalSize(files) - (if id in files then |files[id].buffer| else 0) + |file.buffer|
  {
    TotalSizeRemove(files[id := file], id);
    assert files[id := file] - {id} == files - {id};
    if id in files {
      TotalSizeRemove(files, id);
    } else {
      assert files - {id} == files;
    }
  }

  /** Removing a file takes its size out of the total; removing an absent id changes nothing. */
  lemma TotalSizeDelete(files: Files, id: string)
    ensures TotalSize(files - {id}) == TotalSize(files) - (if id in files then |files[id].buffer| else 0)
  {
    if id in files {
      TotalSizeRemove(files, id);
    } else {
      assert files - {id} == files;
    }
  }

  /** The module-level `fileStore` and `cleanupTimeouts` maps. */
  class FileStore {
    var files: Files
    /** The time at which each pending cleanup fires. */
    var timers: map<string, int>

    /** Every stored file has exactly one pending cleanup. */
    ghost predicate Valid()
      reads this
    {
      files.Keys == timers.Keys
    }

    constructor()
      ensures files == map[] && timers == map[]
      ensures Valid()
    {
      files := map[];
      timers := map[];
    }

    /** `storeFile(fileId, buffer, metadata)` at time `now`: any pending cleanup for the id
        is cancelled and a new one is set 30 minutes ahead. */
    method StoreFile(fileId: string, buffer: Buffer, metadata: Metadata, now: int)
      requires Valid()
      modifies this
      ensures Valid()
      ensures files == old(files)[fileId := StoredFile(buffer, metadata)]
      ensures timers == old(timers)[fileId := now + CLEANUP_DELAY]
      ensures fileId in old(files) ==> |files| == |old(files)|
      ensures fileId !in old(files) ==> |files| == |old(files)| + 1
    {
      files := files[fileId := StoredFile(buffer, metadata)];
      timers := timers[fileId := now + CLEANUP_DELAY];
    }

    /** `getFile(fileId)`: None for an id never stored, deleted or expired. */
    method GetFile(fileId: string) returns (file: Option<StoredFile>)
      ensures file.Some? <==> fileId in files
      ensures file.Some? ==> file.value == files[fileId]
    {
      if fileId in files {
        return Some(files[fileId]);
      }
      return None;
    }

    /** `deleteFile(fileId)`: the entry and its cleanup go; nothing else changes. */
    method DeleteFile(fileId: string)
      requires Valid()
      modifies this
      ensures Valid()
      ensures files == old(files) - {fileId}
      ensures timers == old(timers) - {fileId}
    {
      if fileId in timers {
        timers := timers - {fileId};
      }
      files := files - {fileId};
    }

    /** The cleanups due by time `now` fire: each removes its file and itself together. */
    method Expire(now: int)
      requires Valid()
      modifies this
      ensures Valid()
      ensures forall id :: id in files <==> id in old(files) && old(timers)[id] > now
      ensures forall id :: id in files ==> files[id] == old(files)[id] && timers[id] == old(timers)[id]
    {
      var due := set id | id in timers && timers[id] <= now;
      files := map id | id in files && id !in due :: files[id];
      timers := map id | id in timers && id !in due :: timers[id];
    }

    /** `getStorageStats()`: the number of files and the sum of their sizes. */
    method GetStorageStats() returns (fileCount: nat, totalSize: nat)
      ensures fileCount == |files|
      ensures totalSize == TotalSize(files)
    {
      totalSize := 0;
      var remaining := files;
      while remaining != map[]
        invariant totalSize + TotalSize(remaining) == TotalSize(files)
        decreases |remaining|
      {
        var id :| id in remaining;
        TotalSizeRemove(remaining, id);
        totalSize := totalSize + |remaining[id].buffer|;
        remaining := remaining - {id};
      }
      fileCount := |files|;
    }
  }

  /** A stored file is found until it is deleted or its cleanup fires, and then it is gone. */
  method StoreThenGet(store: FileStore, fileId: string, buffer: Buffer, metadata: Metadata, now: int, later: int)
    returns (found: Option<StoredFile>, afterExpiry: Option<StoredFile>)
    requires store.Valid()
    requires now <= later
    modifies store
    ensures found == Some(StoredFile(buffer, metadata))
    ensures later < now + CLEANUP_DELAY ==> afterExpiry == found
    ensures later >= now + CLEANUP_DELAY ==> afterExpiry == None
  {
    store.StoreFile(fileId, buffer, metadata, now);
    found := store.GetFile(fileId);
    store.Expire(later);
    afterExpiry := store.GetFile(fileId);
  }
}
