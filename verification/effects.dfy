// What each step does to each row, key, message and report, said for the state before and after.
module Effects {
  import opened Basics
  import opened Tables
  import opened Store
  import opened ParentFolders
  import opened BucketFolder
  import opened BucketFile
  import opened FolderTrashEvent
  import opened FolderRestoreEvent
  import opened FolderPurgeEvent
  import opened Protocol
  import opened Names
  import opened TrashRun
  import opened RestoreRun
  import opened TrashCover
  import opened StaleNotices
  import opened BottomUp
  import opened PurgeRun

  // ----- rows

  // The same rows, and only these differ.
  ghost predicate SameBut(t: Table, t': Table, ids: set<Id>) {
    t'.Keys == t.Keys && forall i :: i in t && i !in ids ==> t'[i] == t[i]
  }

  predicate WentToTrash(r: Row, r': Row, user: Id, now: nat) {
    && r'.name == r.name && r'.parent == r.parent && r'.status == Deleted
    && r'.deletedBy == Some(user) && r'.deletedAt == Some(now)
  }

  predicate CameBackAs(r: Row, r': Row, status: Status) {
    r'.name == r.name && r'.parent == r.parent && r'.status == status && r'.deletedBy == None && r'.deletedAt == None
  }

  predicate OnlyStatus(r: Row, r': Row, status: Status) {
    && r'.name == r.name && r'.parent == r.parent && r'.status == status
    && r'.deletedBy == r.deletedBy && r'.deletedAt == r.deletedAt
  }

  // A trashed folder at or above `start` that is not on its way back.
  ghost predicate ToRevive(t: Table, start: Option<Id>, a: Id) {
    a in t && !t[a].Live() && t[a].status != Restoring && OnChain(t, start, a)
  }

  // ----- service calls on folders

  lemma FolderTrashed(c: Config, s: State, id: Id, user: Id, now: nat)
    ensures var s', reply := Apply(c, s, DoTrashFolder(id, user, now)), TrashFolder(s, id, user, now).1;
            && (reply == NotFound <==> id !in s.folders)
            && (reply == Accepted <==> id in s.folders && s.folders[id].Live() && s.folders[id].status != Restoring)
            && (reply == NotFound || reply == Accepted || reply == Conflict)
            && (reply != Accepted ==> s' == s)
            && (reply == Accepted ==>
                  && SameBut(s.folders, s'.folders, {id}) && WentToTrash(s.folders[id], s'.folders[id], user, now)
                  && s'.files == s.files && s'.objects == s.objects && s'.notices == s.notices
                  && s'.markers == s.markers + {FolderMarker(id)}
                  && s'.queue == s.queue + multiset{FolderTrash(id, user)})
  {
  }

  // An accepted restore sends one folder on its way and brings all its trashed ancestors back; none of
  // them keeps its marker, and every other marker stays.
  lemma FolderRestored(c: Config, s: State, id: Id, user: Id, now: nat)
    requires Acyclic(s.folders)
    ensures var s', reply := Apply(c, s, DoRestoreFolder(id, user, now)),
            RestoreFolder(s, id, user, now, c.retention).1;
            && (reply == NotFound <==> id !in s.folders)
            && (reply == Expired <==> id in s.folders && !s.folders[id].Live() && s.folders[id].status != Restoring
                                      && now - s.folders[id].deletedAt.value > c.retention)
            && (reply == Accepted <==> FolderAccepted(c, s, id, now))
            && (reply != Accepted ==> s' == s)
            && (reply == Accepted ==>
                  && s'.folders.Keys == s.folders.Keys && OnlyStatus(s.folders[id], s'.folders[id], Restoring)
                  && (forall a :: a in s.folders && a != id ==>
                        if ToRevive(s.folders, s.folders[id].parent, a) then CameBackAs(s.folders[a], s'.folders[a],
                                                                                        Unset)
                        else s'.folders[a] == s.folders[a])
                  && s'.files == s.files && s'.objects == s.objects
                  && (forall m :: m in s'.markers <==>
                        m in s.markers && m != FolderMarker(id)
                        && !(m.FolderMarker? && ToRevive(s.folders, s.folders[id].parent, m.id)))
                  && s'.queue == s.queue + multiset{FolderRestore(id, user)})
  {
    AcceptedFolder(c, s, id, user, now);
    if FolderAccepted(c, s, id, now) {
      NotAboveItself(s.folders, id);
      RestoredRows(c, s, id, user, now);
    } else {
      RefusedRestore(c, s, id, user, now);
    }
  }

  lemma NotAboveItself(t: Table, id: Id)
    requires Acyclic(t) && id in t
    ensures !ToRevive(t, t[id].parent, id)
  {
    SubtreeStep(t, id, id);
    if OnChain(t, t[id].parent, id) {
      AboveIsNotBelow(t, id, id);
    }
  }

  lemma RestoredRows(c: Config, s: State, id: Id, user: Id, now: nat)
    requires RestoreFolder(s, id, user, now, c.retention).1 == Accepted
    requires id in s.folders ==> !ToRevive(s.folders, s.folders[id].parent, id)
    ensures var s' := Apply(c, s, DoRestoreFolder(id, user, now));
            && id in s.folders
            && s'.folders.Keys == s.folders.Keys && OnlyStatus(s.folders[id], s'.folders[id], Restoring)
            && (forall a :: a in s.folders && a != id ==>
                  if ToRevive(s.folders, s.folders[id].parent, a) then CameBackAs(s.folders[a], s'.folders[a], Unset)
                  else s'.folders[a] == s.folders[a])
            && s'.files == s.files && s'.objects == s.objects
            && (forall m :: m in s'.markers <==>
                  m in s.markers && m != FolderMarker(id)
                  && !(m.FolderMarker? && ToRevive(s.folders, s.folders[id].parent, m.id)))
            && s'.queue == s.queue + multiset{FolderRestore(id, user)}
  {
    hide NameTaken, ParentConflict, OnChain, MarkerNotices;
  }

  lemma RefusedRestore(c: Config, s: State, id: Id, user: Id, now: nat)
    ensures var r := RestoreFolder(s, id, user, now, c.retention);
            && (r.1 == NotFound <==> id !in s.folders)
            && (r.1 == Expired <==> id in s.folders && !s.folders[id].Live() && s.folders[id].status != Restoring
                                    && now - s.folders[id].deletedAt.value > c.retention)
            && (r.1 == Accepted || r.0 == s)
  {
    hide NameTaken, ParentConflict, OnChain, MarkerNotices;
  }

  // Purging is for folders in the trash, and only publishes.
  lemma FolderPurgeAsked(c: Config, s: State, id: Id, user: Id)
    ensures var s', reply := Apply(c, s, DoPurgeFolder(id, user)), PurgeFolder(s, id, user).1;
            && reply == (if id !in s.folders then NotFound else if s.folders[id].Live() then Conflict else Accepted)
            && s' == s.(queue := if reply == Accepted then s.queue + multiset{FolderPurge(id, user)} else s.queue)
  {
  }

  // ----- service calls on files

  lemma FileTrashed(c: Config, s: State, id: Id, user: Id, now: nat, logOk: bool)
    ensures var s', reply := Apply(c, s, DoTrashFile(id, user, now, logOk)), TrashFile(s, id, user, now, logOk).1;
            && (reply == NotFound <==> id !in s.files || !s.files[id].Live())
            && (reply == Conflict <==> id in s.files && s.files[id].Live() && s.files[id].status != Uploaded)
            && (reply == Accepted <==> id in s.files && s.files[id].Live() && s.files[id].status == Uploaded
                                       && id in s.objects && logOk)
            && (reply == NotFound || reply == Conflict || reply == Accepted || reply == Failed)
            && s' == s.(files := s'.files, markers := s'.markers)
            && (if reply == Accepted then SameBut(s.files, s'.files, {id})
                && WentToTrash(s.files[id], s'.files[id], user, now)
                else s'.files == s.files)
            && s'.markers == (if reply == Accepted || (reply == Failed && id in s.objects) then s.markers
                              + {FileMarker(id)}
                              else s.markers)
  {
  }

  // As for folders, with the file itself back at once.
  lemma FileRestored(c: Config, s: State, id: Id, logOk: bool)
    ensures var s', reply := Apply(c, s, DoRestoreFile(id, logOk)), RestoreFile(s, id, logOk).1;
            && (reply == NotFound <==> id !in s.files || s.files[id].Live())
            && (reply == Accepted <==> FileAccepted(s, id, logOk))
            && (reply != Accepted ==> s' == s)
            && (reply == Accepted ==>
                  && s'.folders.Keys == s.folders.Keys
                  && (forall a :: a in s.folders ==>
                        if ToRevive(s.folders, s.files[id].parent, a) then CameBackAs(s.folders[a], s'.folders[a],
                                                                                      Unset)
                        else s'.folders[a] == s.folders[a])
                  && SameBut(s.files, s'.files, {id}) && CameBackAs(s.files[id], s'.files[id], Uploaded)
                  && s'.objects == s.objects && s'.queue == s.queue
                  && (forall m :: m in s'.markers <==>
                        m in s.markers && m != FileMarker(id)
                        && !(m.FolderMarker? && ToRevive(s.folders, s.files[id].parent, m.id))))
  {
    AcceptedFile(s, id, logOk);
    hide NameTaken, ParentConflict, OnChain, MarkerNotices;
  }

  lemma FilePurged(c: Config, s: State, id: Id, logOk: bool)
    ensures var s', reply := Apply(c, s, DoPurgeFile(id, logOk)), PurgeFile(s, id, logOk).1;
            && (reply == NotFound <==> id !in s.files)
            && (reply == Conflict <==> id in s.files && s.files[id].Live())
            && (reply == Accepted <==> id in s.files && !s.files[id].Live() && logOk)
            && s'.folders == s.folders && s'.queue == s.queue
            && s'.files == (if reply == Accepted then s.files - {id} else s.files)
            && (if reply == Accepted || reply == Failed then
                  s'.objects == s.objects - {id} && s'.markers == s.markers - {FileMarker(id)}
                else s' == s)
  {
    hide MarkerNotices, ObjectNotices;
  }

  // ----- the upload

  lemma UploadArrives(c: Config, s: State, id: Id)
    ensures Apply(c, s, StoreObject(id)) == s.(objects := s.objects + {id})
    ensures var s' := Apply(c, s, NotifyCreated(id));
            && s' == s.(files := s'.files)
            && (if id in s.objects && id in s.files && s.files[id].Live() then
                  SameBut(s.files, s'.files, {id}) && OnlyStatus(s.files[id], s'.files[id], Uploaded)
                else s' == s)
  {
  }

  // ----- deliveries

  // All live children of the folder are in the batches.
  ghost predicate TakesAllLive(s: State, id: Id, fs: set<Id>, gs: set<Id>) {
    && (forall i :: i in s.folders && s.folders[i].parent == Some(id) && s.folders[i].Live() ==> i in fs)
    && (forall i :: i in s.files && s.files[i].parent == Some(id) && s.files[i].Live() ==> i in gs)
  }

  predicate NewTrash(e: Event, user: Id, fs: set<Id>) {
    e.FolderTrash? && e.user == user && e.folder in fs
  }

  // FolderTrash takes the batch, marks what has an object, publishes each folder once, and is
  // acknowledged if and only if nothing live is left; for a folder that is not in the trash it stays
  // pending and does nothing.
  lemma TrashDelivered(c: Config, s: State, id: Id, user: Id, now: nat, fs: set<Id>, gs: set<Id>)
    requires Enabled(c, s, DeliverTrash(id, user, now, fs, gs))
    ensures var s' := Apply(c, s, DeliverTrash(id, user, now, fs, gs));
            if id in s.folders && !s.folders[id].Live() then
              && SameBut(s.folders, s'.folders, fs) && SameBut(s.files, s'.files, gs)
              && (forall i :: i in fs ==> WentToTrash(s.folders[i], s'.folders[i], user, now))
              && (forall i :: i in gs ==> WentToTrash(s.files[i], s'.files[i], user, now))
              && s'.objects == s.objects && s'.notices == s.notices
              && (forall m :: m in s'.markers <==>
                    m in s.markers || (m.FolderMarker? && m.id in fs)
                      || (m.FileMarker? && m.id in gs && m.id in s.objects))
              && (forall e :: s'.queue[e] == s.queue[e] + (if NewTrash(e, user, fs) then 1 else 0)
                                - (if TakesAllLive(s, id, fs, gs) && e == FolderTrash(id, user) then 1 else 0))
            else s' == s
  {
    var step := DeliverTrash(id, user, now, fs, gs);
    assert fs <= s.folders.Keys && gs <= s.files.Keys;
    assert TrashPicks(c.limit, s, id, fs, gs) && FolderTrash(id, user) in s.queue;
    if id in s.folders && !s.folders[id].Live() {
      DeliveryMoves(c, s, step);
      hide Apply, Enabled;
      TrashedQueue(s, Apply(c, s, step), step);
      TrashedRows(s.folders, fs, user, now);
      TrashedRows(s.files, gs, user, now);
      MarkersAdded(s.markers, fs, gs, s.objects);
      hide TrashRows, FolderMarkers, FileMarkers, TrashEvents, TrashPicks, ChildrenGone, TakesAllLive, SameBut,
        WentToTrash;
    } else {
      hide Enabled, TrashPicks;
    }
  }

  lemma TrashedRows(t: Table, ids: set<Id>, user: Id, now: nat)
    requires ids <= t.Keys
    ensures var t' := TrashRows(t, ids, user, now);
            SameBut(t, t', ids) && forall i :: i in ids ==> WentToTrash(t[i], t'[i], user, now)
  {
  }

  lemma MarkersAdded(markers: set<Marker>, fs: set<Id>, gs: set<Id>, objects: set<Id>)
    ensures forall m :: m in markers + FolderMarkers(fs) + FileMarkers(gs * objects) <==>
              m in markers || (m.FolderMarker? && m.id in fs) || (m.FileMarker? && m.id in gs && m.id in objects)
  {
    forall m: Marker
      ensures m in FolderMarkers(fs) <==> m.FolderMarker? && m.id in fs
      ensures m in FileMarkers(gs * objects) <==> m.FileMarker? && m.id in gs && m.id in objects
    {
      assert m.FolderMarker? ==> m == FolderMarker(m.id);
      assert m.FileMarker? ==> m == FileMarker(m.id);
    }
  }

  lemma TrashedQueue(s: State, s': State, e: Step)
    requires e.DeliverTrash? && Moved(s, s', e) && FolderTrash(e.id, e.user) in s.queue
    ensures forall x :: s'.queue[x] == s.queue[x] + (if NewTrash(x, e.user, e.folderBatch) then 1 else 0)
                          - (if TakesAllLive(s, e.id, e.folderBatch, e.fileBatch)
                             && x == FolderTrash(e.id, e.user) then 1
                             else 0)
  {
    ChildrenAfter(s.folders, e.folderBatch, e.user, e.now, e.id);
    ChildrenAfter(s.files, e.fileBatch, e.user, e.now, e.id);
    AllTaken(s, e.id, e.folderBatch, e.fileBatch);
    TrashEventsCount(e.folderBatch, e.user);
    hide LiveChildren, TrashEvents, TakesAllLive, TrashRows, FolderMarkers, FileMarkers, NewTrash;
  }

  lemma AllTaken(s: State, id: Id, fs: set<Id>, gs: set<Id>)
    ensures TakesAllLive(s, id, fs, gs) <==>
            LiveChildren(s.folders, id) - fs == {} && LiveChildren(s.files, id) - gs == {}
  {
    if LiveChildren(s.folders, id) - fs == {} && LiveChildren(s.files, id) - gs == {} {
      forall i | i in s.folders && s.folders[i].parent == Some(id) && s.folders[i].Live()
        ensures i in fs
      {
        assert i !in LiveChildren(s.folders, id) - fs;
      }
      forall i | i in s.files && s.files[i].parent == Some(id) && s.files[i].Live()
        ensures i in gs
      {
        assert i !in LiveChildren(s.files, id) - gs;
      }
    }
  }

  lemma TrashEventsCount(fs: set<Id>, user: Id)
    ensures forall e :: TrashEvents(fs, user)[e] == if NewTrash(e, user, fs) then 1 else 0
  {
    var es := set i | i in fs :: FolderTrash(i, user);
    forall e
      ensures multiset(es)[e] == if NewTrash(e, user, fs) then 1 else 0
    {
      assert NewTrash(e, user, fs) ==> e == FolderTrash(e.folder, user);
    }
  }

  predicate NewRestore(e: Event, user: Id, fs: set<Id>) {
    e.FolderRestore? && e.user == user && e.folder in fs
  }

  lemma RestoreEventsCount(fs: set<Id>, user: Id)
    ensures forall e :: RestoreEvents(fs, user)[e] == if NewRestore(e, user, fs) then 1 else 0
  {
    var es := set i | i in fs :: FolderRestore(i, user);
    forall e
      ensures multiset(es)[e] == if NewRestore(e, user, fs) then 1 else 0
    {
      assert NewRestore(e, user, fs) ==> e == FolderRestore(e.folder, user);
    }
  }

  // The row is in the trash and not on its way back.
  predicate LeftInTrash(r: Row) {
    r.deletedAt.Some? && (r.status == Unset || r.status == Deleted)
  }

  // Nothing in the folder has to come back but these files.
  ghost predicate NothingElse(s: State, id: Id, files: set<Id>) {
    && (forall i :: i in s.folders && s.folders[i].parent == Some(id) ==>
          s.folders[i].status != Restoring && !LeftInTrash(s.folders[i]))
    && (forall i :: i in s.files && s.files[i].parent == Some(id) && LeftInTrash(s.files[i]) ==> i in files)
  }

  lemma EndsExactly(c: Config, s: State, id: Id, user: Id, fs: set<Id>, gs: set<Id>)
    requires Enabled(c, s, DeliverRestore(id, user, fs, gs))
    requires id in s.folders && s.folders[id].status == Restoring && !Blocked(c, s, DeliverRestore(id, user, fs, gs))
    ensures BringsBack(c, s, id) <==> NothingElse(s, id, gs)
  {
    WholeBatch(c.limit, RecoverableChildren(s.files, id), gs);
    EmptyExactly(s, id, gs);
    hide NameTaken, Fits, ReviveRows, RecoverableChildren, RestoringChildren, NothingElse;
    if NothingElse(s, id, gs) {
      assert gs == RecoverableChildren(s.files, id);
    }
  }

  lemma EmptyExactly(s: State, id: Id, files: set<Id>)
    ensures NothingElse(s, id, files) <==>
            RecoverableChildren(s.folders, id) == {} && RestoringChildren(s.folders, id) == {}
            && RecoverableChildren(s.files, id) <= files
  {
    if RecoverableChildren(s.folders, id) == {} && RestoringChildren(s.folders, id) == {} {
      forall i | i in s.folders && s.folders[i].parent == Some(id)
        ensures s.folders[i].status != Restoring && !LeftInTrash(s.folders[i])
      {
        assert i !in RecoverableChildren(s.folders, id) && i !in RestoringChildren(s.folders, id);
      }
    }
  }

  // FolderRestore sends the child folders of the batch on their way and brings its files back; when
  // it finishes, the folder is live and the message is gone.
  lemma RestoreDelivered(c: Config, s: State, id: Id, user: Id, fs: set<Id>, gs: set<Id>)
    requires Enabled(c, s, DeliverRestore(id, user, fs, gs))
    requires id in s.folders && s.folders[id].status == Restoring && !Blocked(c, s, DeliverRestore(id, user, fs, gs))
    ensures var s' := Apply(c, s, DeliverRestore(id, user, fs, gs));
            && SameBut(s.files, s'.files, gs) && (forall i :: i in gs ==> CameBackAs(s.files[i], s'.files[i], Uploaded))
            && s'.objects == s.objects
            && if NothingElse(s, id, gs) then
                 && SameBut(s.folders, s'.folders, {id}) && CameBackAs(s.folders[id], s'.folders[id], Unset)
                 && (forall m :: m in s'.markers <==>
                       m in s.markers && !(m.FileMarker? && m.id in gs) && m != FolderMarker(id))
                 && s'.queue == s.queue - multiset{FolderRestore(id, user)}
               else
                 && SameBut(s.folders, s'.folders, fs)
                 && (forall i :: i in fs ==> OnlyStatus(s.folders[i], s'.folders[i], Restoring))
                 && (forall m :: m in s'.markers <==> m in s.markers && !(m.FileMarker? && m.id in gs))
                 && forall e :: s'.queue[e] == s.queue[e] + if NewRestore(e, user, fs) then 1 else 0
  {
    var step := DeliverRestore(id, user, fs, gs);
    assert fs <= s.folders.Keys && gs <= s.files.Keys;
    TwoOutcomes(c, s, step);
    BringsBackExactly(c, s, step);
    RestoreEventsCount(fs, user);
    EndsUnlessLeft(c, s, step);
    EndsExactly(c, s, id, user, fs, gs);
    hide Apply, Blocked, StillLeft, BringsBack, Restore, RestoreEvents, Enabled, NothingElse;
    RevivedRows(s.files, gs);
    if BringsBack(c, s, id) {
      FinishedIs(s, Apply(c, s, step), step);
      MarkersDropped(s.markers, gs);
    } else {
      AdvancedIs(s, Apply(c, s, step), step);
      MarkedRows(s.folders, fs);
      MarkersDropped(s.markers, gs);
    }
    hide Advanced, Finished, ReviveRows, MarkRestoring, FileMarkers, SameBut, CameBackAs, OnlyStatus, NewRestore;
  }

  lemma RevivedRows(t: Table, ids: set<Id>)
    requires ids <= t.Keys
    ensures var t' := ReviveRows(t, ids, Uploaded);
            SameBut(t, t', ids) && forall i :: i in ids ==> CameBackAs(t[i], t'[i], Uploaded)
  {
  }

  lemma MarkedRows(t: Table, ids: set<Id>)
    requires ids <= t.Keys
    ensures var t' := MarkRestoring(t, ids);
            SameBut(t, t', ids) && forall i :: i in ids ==> OnlyStatus(t[i], t'[i], Restoring)
  {
  }

  lemma MarkersDropped(markers: set<Marker>, gs: set<Id>)
    ensures forall m :: m in markers - FileMarkers(gs) <==> m in markers && !(m.FileMarker? && m.id in gs)
  {
    forall m: Marker
      ensures m in FileMarkers(gs) <==> m.FileMarker? && m.id in gs
    {
      assert m.FileMarker? ==> m == FileMarker(m.id);
    }
  }

  lemma FinishedIs(s: State, s': State, e: Step)
    requires e.DeliverRestore? && Finished(s, s', e)
    ensures e.id in s.folders && SameBut(s.folders, s'.folders, {e.id})
    ensures CameBackAs(s.folders[e.id], s'.folders[e.id], Unset)
    ensures s'.files == ReviveRows(s.files, e.fileBatch, Uploaded) && s'.objects == s.objects
    ensures s'.queue == s.queue - multiset{FolderRestore(e.id, e.user)}
    ensures s'.markers == s.markers - FileMarkers(e.fileBatch) - {FolderMarker(e.id)}
  {
    hide Settled, MarkerNotices;
  }

  lemma AdvancedIs(s: State, s': State, e: Step)
    requires e.DeliverRestore? && Advanced(s, s', e)
    ensures s'.folders == MarkRestoring(s.folders, e.folderBatch)
    ensures s'.files == ReviveRows(s.files, e.fileBatch, Uploaded) && s'.objects == s.objects
    ensures s'.queue == s.queue + RestoreEvents(e.folderBatch, e.user)
    ensures s'.markers == s.markers - FileMarkers(e.fileBatch)
  {
    hide MarkerNotices;
  }

  lemma EndsUnlessLeft(c: Config, s: State, e: Step)
    requires e.DeliverRestore? && e.id in s.folders && s.folders[e.id].status == Restoring && !Blocked(c, s, e)
    ensures Restore(c.schema, s, e.id, e.user, e.folderBatch, e.fileBatch).1 <==> !StillLeft(c, s, e)
  {
    hide NameTaken, Fits, ReviveRows, MarkRestoring, MarkerNotices, ChildrenLeft;
  }

  // A message for a folder that is gone stays pending; one for a folder that is not on its way back is
  // acknowledged once nothing in it is, or could be; neither does anything else.
  lemma RestoreDeliveredInVain(c: Config, s: State, id: Id, user: Id, fs: set<Id>, gs: set<Id>)
    requires Enabled(c, s, DeliverRestore(id, user, fs, gs)) && (id in s.folders ==> s.folders[id].status != Restoring)
    ensures var s' := Apply(c, s, DeliverRestore(id, user, fs, gs));
            if id in s.folders && NothingElse(s, id, {}) then s'
              == s.(queue := s.queue - multiset{FolderRestore(id, user)})
            else s' == s
  {
    EmptyExactly(s, id, {});
    hide NameTaken, Fits, RecoverableChildren, RestoringChildren, NothingElse;
  }

  // ----- purging

  // The row after the hard deletion of these folders.
  predicate Detached(r: Row, r': Row, gone: set<Id>, schema: bool) {
    && r'.name == r.name && r'.status == r.status && r'.deletedBy == r.deletedBy && r'.deletedAt == r.deletedAt
    && r'.parent == if schema && r.parent.Some? && r.parent.value in gone then None else r.parent
  }

  ghost predicate RowsGone(t: Table, t': Table, rows: set<Id>, gone: set<Id>, schema: bool) {
    t'.Keys == t.Keys - rows && forall i :: i in t' ==> Detached(t[i], t'[i], gone, schema)
  }

  // All trashed children of the folder are in the batches.
  ghost predicate TakesAllTrash(s: State, id: Id, fs: set<Id>, gs: set<Id>) {
    && (forall i :: i in s.folders && s.folders[i].parent == Some(id) && s.folders[i].deletedAt.Some? ==> i in fs)
    && (forall i :: i in s.files && s.files[i].parent == Some(id) && s.files[i].deletedAt.Some? ==> i in gs)
  }

  // The state between the two deletions.
  ghost function BatchGone(s: State, fs: set<Id>, gs: set<Id>, schema: bool): State {
    var s1 := DropFolders(s, fs, schema);
    RemoveObjects(s1.(files := s1.files - gs), gs)
  }

  lemma BatchGoneRows(s: State, id: Id, fs: set<Id>, gs: set<Id>, schema: bool)
    requires Acyclic(s.folders) && id in s.folders && fs <= TrashedChildren(s.folders, id)
    requires gs <= TrashedChildren(s.files, id)
    ensures var s1 := BatchGone(s, fs, gs, schema);
            && RowsGone(s.folders, s1.folders, fs, fs, schema) && RowsGone(s.files, s1.files, gs, fs, schema)
            && s1.objects == s.objects - gs && s1.markers == s.markers && s1.queue == s.queue
            && (TrashedChildren(s1.folders, id) == {} && TrashedChildren(s1.files, id) == {}
                <==> TakesAllTrash(s, id, fs, gs))
  {
    NotItsOwnChild(s.folders, id);
    ChildrenStillThere(s.folders, fs, fs, id, schema);
    ChildrenStillThere(s.files, gs, fs, id, schema);
    UnlinkedFiles(s.files, gs, fs, schema);
    Nothing(TrashedChildren(s.folders, id), fs);
    Nothing(TrashedChildren(s.files, id), gs);
    assert TakesAllTrash(s, id, fs, gs) <==> TrashedChildren(s.folders, id) <= fs && TrashedChildren(s.files, id) <= gs;
    UnlinkedRows(s.folders, fs, fs, schema);
    UnlinkedRows(s.files, gs, fs, schema);
    hide TrashedChildren, ObjectNotices, Unlink, RowsGone, Acyclic, TakesAllTrash;
  }

  lemma UnlinkedFiles(t: Table, rows: set<Id>, gone: set<Id>, schema: bool)
    ensures Unlink(t, gone, schema) - rows == Unlink(t - rows, gone, schema)
  {
  }

  lemma UnlinkedRows(t: Table, rows: set<Id>, gone: set<Id>, schema: bool)
    ensures RowsGone(t, Unlink(t - rows, gone, schema), rows, gone, schema)
  {
  }

  lemma Nothing(all: set<Id>, some: set<Id>)
    requires some <= all
    ensures all - some == {} <==> all <= some
  {
    if all - some == {} {
      assert all == some + (all - some);
    }
  }

  lemma BothGone(s: State, id: Id, fs: set<Id>, gs: set<Id>, schema: bool)
    ensures var s1 := DropFolders(BatchGone(s, fs, gs, schema), {id}, schema);
            && RowsGone(s.folders, s1.folders, fs + {id}, fs + {id}, schema)
            && RowsGone(s.files, s1.files, gs, fs + {id}, schema)
            && s1.objects == s.objects - gs && s1.queue == s.queue
  {
    UnlinkTwice(s.folders, fs, {id}, schema);
    UnlinkFiles(s.files, fs, {id}, gs, {}, schema);
    assert gs + {} == gs;
    UnlinkedFiles(s.files, gs, fs, schema);
    UnlinkedRows(s.folders, fs + {id}, fs + {id}, schema);
    UnlinkedRows(s.files, gs, fs + {id}, schema);
    var u := Unlink(Unlink(s.files - gs, fs, schema), {id}, schema);
    assert u - {} == u;
    hide ObjectNotices, Unlink, RowsGone;
  }

  // Markers, objects and the files of the batch, which are in the trash, are no matter for the indexes.
  lemma MayDropStill(s: State, id: Id, fs: set<Id>, gs: set<Id>, schema: bool)
    requires forall i :: i in gs && i in s.files ==> !s.files[i].Live()
    ensures MayDrop(Unmark(BatchGone(s, fs, gs, schema), {FolderMarker(id)}), {id}, schema)
            <==> MayDrop(DropFolders(s, fs, schema), {id}, schema)
  {
    var s1 := DropFolders(s, fs, schema);
    var a, b := Unlink(s1.files, {id}, schema), Unlink(s1.files - gs, {id}, schema);
    SameLive(a, b);
    hide MarkerNotices, ObjectNotices, Distinct, Unlink;
  }

  lemma SameLive(a: Table, b: Table)
    requires b.Keys <= a.Keys && (forall i :: i in b ==> b[i] == a[i]) && forall i :: i in a && a[i].Live() ==> i in b
    ensures Distinct(a) <==> Distinct(b)
  {
  }

  lemma PurgedRows(c: Config, s: State, id: Id, user: Id, fs: set<Id>, gs: set<Id>) returns (gone: set<Id>)
    requires Enabled(c, s, DeliverPurge(id, user, fs, gs)) && Acyclic(s.folders)
    requires id in s.folders && !s.folders[id].Live() && MayDrop(s, fs, c.schema)
    ensures var s' := Apply(c, s, DeliverPurge(id, user, fs, gs));
            && (gone == fs || (gone == fs + {id} && TakesAllTrash(s, id, fs, gs))) && id !in fs
            && RowsGone(s.folders, s'.folders, gone, gone, c.schema) && RowsGone(s.files, s'.files, gs, gone, c.schema)
            && s'.objects == s.objects - gs
            && s'.markers == (if TakesAllTrash(s, id, fs, gs) then s.markers - {FolderMarker(id)} else s.markers)
            && s'.queue == (if id in gone then s.queue - multiset{FolderPurge(id, user)} else s.queue)
            && (TakesAllTrash(s, id, fs, gs) ==> (id in gone <==>
                                                    MayDrop(DropFolders(s, fs, c.schema), {id}, c.schema)))
  {
    var s1 := BatchGone(s, fs, gs, c.schema);
    var s2 := Unmark(s1, {FolderMarker(id)});
    var s3 := DropFolders(s2, {id}, c.schema);
    gone := if TakesAllTrash(s, id, fs, gs) && MayDrop(s2, {id}, c.schema) then fs + {id} else fs;
    PurgeBatches(c, s, id, user, fs, gs);
    PurgeOutcome(c, s, id, user, fs, gs);
    hide Apply, Enabled, PurgePicks, DropFolders, MayDrop, TrashedChildren;
    BatchGoneRows(s, id, fs, gs, c.schema);
    BothGone(s, id, fs, gs, c.schema);
    MayDropStill(s, id, fs, gs, c.schema);
    DropUnmarked(s1, {FolderMarker(id)}, {id}, c.schema);
    UnmarkedOnly(s1, {FolderMarker(id)});
    hide RowsGone, BatchGone, Unmark, Acyclic, TakesAllTrash;
  }

  lemma PurgeBatches(c: Config, s: State, id: Id, user: Id, fs: set<Id>, gs: set<Id>)
    requires Enabled(c, s, DeliverPurge(id, user, fs, gs)) && Acyclic(s.folders) && id in s.folders
    ensures fs <= TrashedChildren(s.folders, id) && gs <= TrashedChildren(s.files, id) && id !in fs
  {
    NotItsOwnChild(s.folders, id);
  }

  lemma UnmarkedOnly(s: State, markers: set<Marker>)
    ensures var s' := Unmark(s, markers);
            && s'.folders == s.folders && s'.files == s.files && s'.objects == s.objects && s'.queue == s.queue
            && s'.markers == s.markers - markers
  {
  }

  // Where the callback ends.
  lemma PurgeOutcome(c: Config, s: State, id: Id, user: Id, fs: set<Id>, gs: set<Id>)
    requires id in s.folders && !s.folders[id].Live() && MayDrop(s, fs, c.schema)
    ensures var s' := Apply(c, s, DeliverPurge(id, user, fs, gs));
            var s1 := BatchGone(s, fs, gs, c.schema);
            var s2 := Unmark(s1, {FolderMarker(id)});
            if TrashedChildren(s1.folders, id) != {} || TrashedChildren(s1.files, id) != {} then s' == s1
            else if MayDrop(s2, {id}, c.schema) then
              var s3 := DropFolders(s2, {id}, c.schema); s' == s3.(queue := s3.queue - multiset{FolderPurge(id, user)})
            else s' == s2
  {
    hide MayDrop, DropFolders, TrashedChildren, MarkerNotices, ObjectNotices;
    assert Apply(c, s, DeliverPurge(id, user, fs, gs)) == Handle(FolderPurge(id, user), Purge(c.schema, s, id, fs, gs));
  }

  lemma DropUnmarked(s: State, markers: set<Marker>, gone: set<Id>, schema: bool)
    ensures var a, b := DropFolders(Unmark(s, markers), gone, schema), DropFolders(s, gone, schema);
            && a.folders == b.folders && a.files == b.files && a.objects == b.objects && a.queue == b.queue
            && a.markers == s.markers - markers
  {
  }

  // FolderPurge removes the batch with its objects, and with the last batch the folder and its
  // marker; the indexes may refuse the first or the second, and then nothing or only the folder row
  // stays. It is acknowledged if and only if the folder is gone.
  lemma PurgeDelivered(c: Config, s: State, id: Id, user: Id, fs: set<Id>, gs: set<Id>) returns (gone: set<Id>)
    requires Enabled(c, s, DeliverPurge(id, user, fs, gs)) && Acyclic(s.folders)
    ensures var s' := Apply(c, s, DeliverPurge(id, user, fs, gs));
            if id in s.folders && !s.folders[id].Live() && MayDrop(s, fs, c.schema) then
              && (gone == fs || (gone == fs + {id} && TakesAllTrash(s, id, fs, gs)))
              && RowsGone(s.folders, s'.folders, gone, gone, c.schema)
                 && RowsGone(s.files, s'.files, gs, gone, c.schema)
              && s'.objects == s.objects - gs
              && s'.markers == (if TakesAllTrash(s, id, fs, gs) then s.markers - {FolderMarker(id)} else s.markers)
              && s'.queue == (if id in gone then s.queue - multiset{FolderPurge(id, user)} else s.queue)
              && (TakesAllTrash(s, id, fs, gs) ==> (id in gone <==>
                                                      MayDrop(DropFolders(s, fs, c.schema), {id}, c.schema)))
            else s' == s && gone == {}
  {
    if id in s.folders && !s.folders[id].Live() && MayDrop(s, fs, c.schema) {
      gone := PurgedRows(c, s, id, user, fs, gs);
    } else {
      gone := {};
    }
  }

  // ----- the storage

  lemma MarkerExpired(c: Config, s: State, m: Marker)
    ensures var s' := Apply(c, s, MarkerExpires(m));
            s' == s.(markers := s.markers - {m},
                     notices := s.notices + if m in s.markers then multiset{MarkerRemoved(m)} else multiset{})
  {
    OneReport(s.markers, m);
  }

  lemma OneReport(markers: set<Marker>, m: Marker)
    ensures MarkerNotices({m} * markers) == if m in markers then multiset{MarkerRemoved(m)} else multiset{}
  {
    var ns := set x | x in {m} * markers :: MarkerRemoved(x);
    assert ns == if m in markers then {MarkerRemoved(m)} else {};
  }

  lemma OneObjectReport(objects: set<Id>, i: Id)
    ensures ObjectNotices({i} * objects) == if i in objects then multiset{ObjectRemoved(i)} else multiset{}
  {
    var ns := set x | x in {i} * objects :: ObjectRemoved(x);
    assert ns == if i in objects then {ObjectRemoved(i)} else {};
  }

  function Taken(notices: multiset<Notice>, n: Notice, again: bool): multiset<Notice> {
    if again then notices else notices - multiset{n}
  }

  // The report about the marker of a trashed file ends the file: its row and its object go, the object
  // is reported if there was one, and nothing else changes.
  lemma FileExpires(c: Config, s: State, i: Id, again: bool)
    requires Enabled(c, s, NotifyRemoved(MarkerRemoved(FileMarker(i)), again)) && i in s.files && !s.files[i].Live()
    ensures Apply(c, s, NotifyRemoved(MarkerRemoved(FileMarker(i)), again))
            == s.(files := s.files - {i}, objects := s.objects - {i},
                  notices := Taken(s.notices + (if i in s.objects then multiset{ObjectRemoved(i)} else multiset{}),
                                   MarkerRemoved(FileMarker(i)), again))
  {
    OneObjectReport(s.objects, i);
    hide ObjectNotices;
  }

  // The report about the object of a trashed file removes the row that is left.
  lemma RowFollowsObject(c: Config, s: State, i: Id, again: bool)
    requires Enabled(c, s, NotifyRemoved(ObjectRemoved(i), again)) && i in s.files && !s.files[i].Live()
    ensures Apply(c, s, NotifyRemoved(ObjectRemoved(i), again))
            == s.(files := s.files - {i}, notices := Taken(s.notices, ObjectRemoved(i), again))
  {
  }

  // The file that a report concerns, if it concerns one.
  predicate Concerns(n: Notice, i: Id) {
    n == MarkerRemoved(FileMarker(i)) || n == ObjectRemoved(i)
  }

  // A report that concerns no trashed file, one about a folder's marker among them, changes nothing.
  lemma NothingExpires(c: Config, s: State, n: Notice, again: bool)
    requires Apart(s) && Enabled(c, s, NotifyRemoved(n, again))
    requires forall i :: i in s.files && Concerns(n, i) ==> s.files[i].Live()
    ensures Apply(c, s, NotifyRemoved(n, again)) == s.(notices := Taken(s.notices, n, again))
  {
    hide ObjectNotices;
    match n
    case MarkerRemoved(FolderMarker(i)) => assert KnowsFolder(s, i);
    case MarkerRemoved(FileMarker(i)) => assert Concerns(n, i);
    case ObjectRemoved(i) => assert Concerns(n, i);
  }

  // A file that is in the trash when its marker expires is gone once that has been reported: the two
  // steps can always happen, and leave no trace but the report about the object.
  lemma ExpiryEndsTheFile(c: Config, s: State, i: Id)
    requires i in s.files && !s.files[i].Live() && FileMarker(i) in s.markers
    ensures var steps := [MarkerExpires(FileMarker(i)), NotifyRemoved(MarkerRemoved(FileMarker(i)), false)];
            Run(c, s, steps) && After(c, s, steps)
            == s.(files := s.files - {i}, objects := s.objects - {i}, markers := s.markers - {FileMarker(i)},
                  notices := s.notices + if i in s.objects then multiset{ObjectRemoved(i)} else multiset{})
  {
    var first, second := MarkerExpires(FileMarker(i)), NotifyRemoved(MarkerRemoved(FileMarker(i)), false);
    var s1 := Apply(c, s, first);
    MarkerExpired(c, s, FileMarker(i));
    assert Enabled(c, s, first) && Enabled(c, s1, second);
    FileExpires(c, s1, i, false);
    hide Apply, Enabled;
    TwoSteps(c, s, first, second);
    var more := if i in s.objects then multiset{ObjectRemoved(i)} else multiset{};
    assert s.notices + multiset{MarkerRemoved(FileMarker(i))} + more - multiset{MarkerRemoved(FileMarker(i))}
        == s.notices + more;
  }

  lemma TwoSteps(c: Config, s: State, first: Step, second: Step)
    ensures Run(c, s, [first, second]) <==> Enabled(c, s, first) && Enabled(c, Apply(c, s, first), second)
    ensures After(c, s, [first, second]) == Apply(c, Apply(c, s, first), second)
  {
    hide Apply, Enabled;
    assert [first, second][1..] == [second] && [second][1..] == [];
    var s1 := Apply(c, s, first);
    assert Run(c, s1, [second]) <==> Enabled(c, s1, second);
    assert After(c, s1, [second]) == Apply(c, s1, second);
  }
}
