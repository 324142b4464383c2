/** The process-wide application state (src/context/AppContext.tsx): the
    role the device plays, the signed-in admin's id, the display's device
    token and the last playlist, each mirrored into a persistent key-value
    store. The store is an in-memory map; its reads and writes are assumed
    to succeed, except that loading may fail as a whole. */
module AppState {
  import opened Types
  import opened JsText

  const ModeKey := "app_mode"
  const UserIdKey := "user_id"
  const DeviceTokenKey := "device_token"
  const PlaylistKey := "current_playlist"

  datatype AppMode = Admin | Display | Unset

  function ModeName(m: AppMode): string {
    match m
    case Admin => "admin"
    case Display => "display"
    case Unset => "unset"
  }

  /** What parsing the stored playlist text yields: a value (possibly null),
      or an exception for malformed text. */
  datatype StoredPlaylist = Parsed(playlist: Option<Playlist>) | Malformed

  /** A stored value is taken into account only when it is a non-empty string. */
  predicate HasStored(store: map<string, string>, key: string) {
    key in store && store[key] != ""
  }

  /** A nullable field and its storage key agree: either the field is a
      non-empty string and the key holds that string, or the field is null or
      empty and the key holds nothing usable. */
  predicate Mirrors(field: Option<string>, store: map<string, string>, key: string) {
    (Truthy(field) <==> HasStored(store, key)) && (Truthy(field) ==> store[key] == field.value)
  }

  /** The write rule shared by `setUserId` and `setDeviceToken`: a non-empty
      value is written under `key`, anything else removes `key`. */
  function MirrorInto(store: map<string, string>, key: string, v: Option<string>): (r: map<string, string>)
    ensures Mirrors(v, r, key)
    ensures !Truthy(v) ==> key !in r
    ensures forall k :: k != key ==> (k in r <==> k in store)
    ensures forall k :: k != key && k in r ==> r[k] == store[k]
  {
    if Truthy(v) then store[key := v.value] else store - {key}
  }

  class AppContext {
    var mode: string
    var userId: Option<string>
    var deviceToken: Option<string>
    var currentPlaylist: Option<Playlist>
    var isLoading: bool
    /** The persistent key-value store. */
    var store: map<string, string>

    /** Mounting the provider over a store that already holds `persisted`. */
    constructor (persisted: map<string, string>)
      ensures mode == ModeName(Unset) && userId == None && deviceToken == None
      ensures currentPlaylist == None && isLoading && store == persisted
    {
      mode := ModeName(Unset);
      userId := None;
      deviceToken := None;
      currentPlaylist := None;
      isLoading := true;
      store := persisted;
    }

    /** Reads the four keys; each field is overwritten only by a non-empty
        stored value. When reading fails nothing is overwritten; a malformed
        stored playlist throws after the other three fields were taken. In
        every case loading ends. */
    method LoadStorage(readFailed: bool, storedPlaylist: StoredPlaylist)
      modifies this
      ensures !isLoading && store == old(store)
      ensures mode == if !readFailed && HasStored(store, ModeKey) then store[ModeKey] else old(mode)
      ensures userId == if !readFailed && HasStored(store, UserIdKey) then Some(store[UserIdKey]) else old(userId)
      ensures deviceToken ==
        if !readFailed && HasStored(store, DeviceTokenKey) then Some(store[DeviceTokenKey]) else old(deviceToken)
      ensures currentPlaylist ==
        if !readFailed && HasStored(store, PlaylistKey) && storedPlaylist.Parsed? then storedPlaylist.playlist
        else old(currentPlaylist)
      ensures !readFailed && !Truthy(old(userId)) ==> Mirrors(userId, store, UserIdKey)
      ensures !readFailed && !Truthy(old(deviceToken)) ==> Mirrors(deviceToken, store, DeviceTokenKey)
    {
      if !readFailed {
        if HasStored(store, ModeKey) {
          mode := store[ModeKey];
        }
        if HasStored(store, UserIdKey) {
          userId := Some(store[UserIdKey]);
        }
        if HasStored(store, DeviceTokenKey) {
          deviceToken := Some(store[DeviceTokenKey]);
        }
        if HasStored(store, PlaylistKey) && storedPlaylist.Parsed? {
          currentPlaylist := storedPlaylist.playlist;
        }
      }
      isLoading := false;
    }

    method SetMode(m: AppMode)
      modifies this
      ensures mode == ModeName(m) && store == old(store)[ModeKey := ModeName(m)]
      ensures userId == old(userId) && deviceToken == old(deviceToken)
      ensures currentPlaylist == old(currentPlaylist) && isLoading == old(isLoading)
    {
      mode := ModeName(m);
      store := store[ModeKey := ModeName(m)];
    }

    method SetUserId(id: Option<string>)
      modifies this
      ensures userId == id && store == MirrorInto(old(store), UserIdKey, id)
      ensures Mirrors(userId, store, UserIdKey)
      ensures mode == old(mode) && deviceToken == old(deviceToken)
      ensures currentPlaylist == old(currentPlaylist) && isLoading == old(isLoading)
    {
      userId := id;
      store := MirrorInto(store, UserIdKey, id);
    }

    method SetDeviceToken(token: Option<string>)
      modifies this
      ensures deviceToken == token && store == MirrorInto(old(store), DeviceTokenKey, token)
      ensures Mirrors(deviceToken, store, DeviceTokenKey)
      ensures mode == old(mode) && userId == old(userId)
      ensures currentPlaylist == old(currentPlaylist) && isLoading == old(isLoading)
    {
      deviceToken := token;
      store := MirrorInto(store, DeviceTokenKey, token);
    }

    /** A plain state setter: the playlist is never written to the store,
        although loading reads it from there. */
    method SetCurrentPlaylist(p: Option<Playlist>)
      modifies this
      ensures currentPlaylist == p && store == old(store)
      ensures mode == old(mode) && userId == old(userId)
      ensures deviceToken == old(deviceToken) && isLoading == old(isLoading)
    {
      currentPlaylist := p;
    }

    /** Empties the whole store and resets every field but `isLoading`. */
    method Logout()
      modifies this
      ensures store == map[] && mode == ModeName(Unset)
      ensures userId == None && deviceToken == None && currentPlaylist == None
      ensures isLoading == old(isLoading)
      ensures Mirrors(userId, store, UserIdKey) && Mirrors(deviceToken, store, DeviceTokenKey)
    {
      store := map[];
      mode := ModeName(Unset);
      userId := None;
      deviceToken := None;
      currentPlaylist := None;
    }
  }
}
