/** Device-local folders of saved tutorials, stored per user under a prefixed key. Browser storage is a
    map from key to what is stored there; JSON encoding is abstracted as a lossless serialization. */
module SavedFolders {
  import opened Seqs

  datatype SavedFolder = SavedFolder(id: string, name: string, tutorialIds: seq<string>)

  /** What a storage key can hold besides a serialized folder list: an empty text, or text that does
      not parse as one. */
  datatype StoredItem = EmptyText | Unparsable | Serialized(folders: seq<SavedFolder>)

  /** The storage key of a user's folders. */
  function StorageKey(userId: string): (k: string)
    ensures |k| == |userId| + 14
    ensures k[..14] == "saved-folders-" && k[14..] == userId
  {
    "saved-folders-" + userId
  }

  /** Distinct users have distinct keys. */
  lemma StorageKeyInjective(a: string, b: string)
    requires StorageKey(a) == StorageKey(b)
    ensures a == b
  {
    var prefix := "saved-folders-";
    assert a == StorageKey(a)[|prefix|..];
    assert b == StorageKey(b)[|prefix|..];
  }

  /** `getUserFolders`: the stored list, or the empty list when the key is missing, empty or unparsable. */
  function StoredFolders(items: map<string, StoredItem>, userId: string): (r: seq<SavedFolder>)
    ensures StorageKey(userId) !in items ==> r == []
    ensures StorageKey(userId) in items && !items[StorageKey(userId)].Serialized? ==> r == []
  {
    var key := StorageKey(userId);
    if key in items && items[key].Serialized? then items[key].folders else []
  }

  /** Saving for one user is read back for that user and is invisible to every other user. */
  lemma SaveThenRead(items: map<string, StoredItem>, userId: string, folders: seq<SavedFolder>, other: string)
    ensures StoredFolders(items[StorageKey(userId) := Serialized(folders)], userId) == folders
    ensures other != userId ==>
              StoredFolders(items[StorageKey(userId) := Serialized(folders)], other) == StoredFolders(items, other)
  {
    if other != userId && StorageKey(other) == StorageKey(userId) {
      StorageKeyInjective(other, userId);
    }
  }

  /** `addTutorialToFolder`'s map: append the id to the matching folder unless it is already there. */
  function AddToFolder(folders: seq<SavedFolder>, folderId: string, tutorialId: string): (r: seq<SavedFolder>)
    ensures |r| == |folders|
    ensures forall i :: 0 <= i < |r| ==> r[i].id == folders[i].id && r[i].name == folders[i].name
    ensures forall i :: 0 <= i < |r| && folders[i].id != folderId ==> r[i] == folders[i]
    ensures forall i :: 0 <= i < |r| && folders[i].id == folderId && tutorialId in folders[i].tutorialIds ==> r[i] == folders[i]
    ensures forall i :: 0 <= i < |r| && folders[i].id == folderId && tutorialId !in folders[i].tutorialIds ==>
              r[i].tutorialIds == folders[i].tutorialIds + [tutorialId]
  {
    seq(|folders|, i requires 0 <= i < |folders| =>
      if folders[i].id == folderId && tutorialId !in folders[i].tutorialIds
      then folders[i].(tutorialIds := folders[i].tutorialIds + [tutorialId])
      else folders[i])
  }

  /** `removeTutorialFromFolder`'s map: drop every copy of the id from the matching folder. */
  function RemoveFromFolder(folders: seq<SavedFolder>, folderId: string, tutorialId: string): (r: seq<SavedFolder>)
    ensures |r| == |folders|
    ensures forall i :: 0 <= i < |r| ==> r[i].id == folders[i].id && r[i].name == folders[i].name
    ensures forall i :: 0 <= i < |r| && folders[i].id != folderId ==> r[i] == folders[i]
    ensures forall i :: 0 <= i < |r| && folders[i].id == folderId ==>
              && tutorialId !in r[i].tutorialIds
              && IsSubsequence(r[i].tutorialIds, folders[i].tutorialIds)
              && (forall j :: 0 <= j < |folders[i].tutorialIds| && folders[i].tutorialIds[j] != tutorialId
                    ==> folders[i].tutorialIds[j] in r[i].tutorialIds)
  {
    seq(|folders|, i requires 0 <= i < |folders| =>
      if folders[i].id == folderId
      then folders[i].(tutorialIds := Without(folders[i].tutorialIds, tutorialId))
      else folders[i])
  }

  predicate FoldersHaveNoDuplicates(folders: seq<SavedFolder>)
  {
    forall i :: 0 <= i < |folders| ==> NoDuplicates(folders[i].tutorialIds)
  }

  /** Adding never creates a duplicate. */
  lemma AddKeepsNoDuplicates(folders: seq<SavedFolder>, folderId: string, tutorialId: string)
    requires FoldersHaveNoDuplicates(folders)
    ensures FoldersHaveNoDuplicates(AddToFolder(folders, folderId, tutorialId))
  {
    var r := AddToFolder(folders, folderId, tutorialId);
    forall i | 0 <= i < |r| ensures NoDuplicates(r[i].tutorialIds) {
      var s := folders[i].tutorialIds;
      if folders[i].id == folderId && tutorialId !in s {
        assert forall j :: 0 <= j < |s| ==> r[i].tutorialIds[j] == s[j];
      }
    }
  }

  /** Removing never creates a duplicate. */
  lemma RemoveKeepsNoDuplicates(folders: seq<SavedFolder>, folderId: string, tutorialId: string)
    requires FoldersHaveNoDuplicates(folders)
    ensures FoldersHaveNoDuplicates(RemoveFromFolder(folders, folderId, tutorialId))
  {
    var r := RemoveFromFolder(folders, folderId, tutorialId);
    forall i | 0 <= i < |r| ensures NoDuplicates(r[i].tutorialIds) {
      if folders[i].id == folderId {
        SubsequenceNoDuplicates(r[i].tutorialIds, folders[i].tutorialIds);
      }
    }
  }

  /** Adding the same tutorial twice is adding it once. */
  lemma AddIdempotent(folders: seq<SavedFolder>, folderId: string, tutorialId: string)
    ensures AddToFolder(AddToFolder(folders, folderId, tutorialId), folderId, tutorialId) == AddToFolder(folders, folderId, tutorialId)
  {
  }

  /** Removing the same tutorial twice is removing it once. */
  lemma RemoveIdempotent(folders: seq<SavedFolder>, folderId: string, tutorialId: string)
    ensures RemoveFromFolder(RemoveFromFolder(folders, folderId, tutorialId), folderId, tutorialId)
            == RemoveFromFolder(folders, folderId, tutorialId)
  {
    var once := RemoveFromFolder(folders, folderId, tutorialId);
    forall i | 0 <= i < |folders| && folders[i].id == folderId
      ensures Without(once[i].tutorialIds, tutorialId) == once[i].tutorialIds
    {
      WithoutIdempotent(folders[i].tutorialIds, tutorialId);
    }
  }

  /** Adding a tutorial a folder lacked and then removing it restores the folders. */
  lemma AddThenRemoveRestores(folders: seq<SavedFolder>, folderId: string, tutorialId: string)
    requires forall i :: 0 <= i < |folders| && folders[i].id == folderId ==> tutorialId !in folders[i].tutorialIds
    ensures RemoveFromFolder(AddToFolder(folders, folderId, tutorialId), folderId, tutorialId) == folders
  {
    forall i | 0 <= i < |folders| && folders[i].id == folderId
      ensures Without(folders[i].tutorialIds + [tutorialId], tutorialId) == folders[i].tutorialIds
    {
      WithoutAppended(folders[i].tutorialIds, tutorialId);
    }
  }

  /** Browser storage for the folders. */
  class FolderStorage {
    var items: map<string, StoredItem>

    /** Fresh storage holds no key, so every user reads no folders. */
    constructor ()
      ensures items == map[]
      ensures forall u :: StoredFolders(items, u) == []
    {
      items := map[];
    }

    method GetUserFolders(userId: string) returns (folders: seq<SavedFolder>)
      ensures folders == StoredFolders(items, userId)
    {
      var key := StorageKey(userId);
      if key in items && items[key].Serialized? {
        folders := items[key].folders;
      } else {
        folders := [];
      }
    }

    method SaveUserFolders(userId: string, folders: seq<SavedFolder>)
      modifies this
      ensures items == old(items)[StorageKey(userId) := Serialized(folders)]
    {
      items := items[StorageKey(userId) := Serialized(folders)];
    }

    /** Read, add, write back. Every other user's folders read back unchanged. */
    method AddTutorialToFolder(userId: string, folderId: string, tutorialId: string)
      modifies this
      ensures items == old(items)[StorageKey(userId) := Serialized(AddToFolder(StoredFolders(old(items), userId), folderId, tutorialId))]
      ensures StoredFolders(items, userId) == AddToFolder(StoredFolders(old(items), userId), folderId, tutorialId)
      ensures forall u :: u != userId ==> StoredFolders(items, u) == StoredFolders(old(items), u)
    {
      var folders := GetUserFolders(userId);
      var updated := AddToFolder(folders, folderId, tutorialId);
      SaveUserFolders(userId, updated);
      forall u ensures u != userId ==> StoredFolders(items, u) == StoredFolders(old(items), u) {
        SaveThenRead(old(items), userId, updated, u);
      }
    }

    /** Read, remove, write back. Every other user's folders read back unchanged. */
    method RemoveTutorialFromFolder(userId: string, folderId: string, tutorialId: string)
      modifies this
      ensures items == old(items)[StorageKey(userId) := Serialized(RemoveFromFolder(StoredFolders(old(items), userId), folderId, tutorialId))]
      ensures StoredFolders(items, userId) == RemoveFromFolder(StoredFolders(old(items), userId), folderId, tutorialId)
      ensures forall u :: u != userId ==> StoredFolders(items, u) == StoredFolders(old(items), u)
    {
      var folders := GetUserFolders(userId);
      var updated := RemoveFromFolder(folders, folderId, tutorialId);
      SaveUserFolders(userId, updated);
      forall u ensures u != userId ==> StoredFolders(items, u) == StoredFolders(old(items), u) {
        SaveThenRead(old(items), userId, updated, u);
      }
    }
  }
}
