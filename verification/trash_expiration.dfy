// internal/events/trash_expiration.go, on a parsed object key.
module TrashExpirationEvent {
  import opened Basics
  import opened Store

  // The id at the end of the key, which is looked up among the files whatever the key was.
  function IdOf(notice: Notice): Id {
    match notice
    case MarkerRemoved(FileMarker(id)) => id
    case MarkerRemoved(FolderMarker(id)) => id
    case ObjectRemoved(id) => id
  }

  ghost function Expire(s: State, notice: Notice): State {
    var id := IdOf(notice);
    if id !in s.files || s.files[id].Live() then
      s
    else
      var s' := if notice.MarkerRemoved? then RemoveObjects(s, {id}) else s;
      s'.(files := s'.files - {id})
  }
}
