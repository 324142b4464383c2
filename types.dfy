/** Records exchanged between the display, the admin client and the backend
    (src/types/index.ts), as values. Optional JSON fields become `Option`. */
module Types {

  datatype Option<+T> = None | Some(value: T)

  /** The `type` field of a media asset: 'video' | 'image'. */
  datatype AssetKind = Video | Image

  /** A media asset. `playbackDuration` is the asset's duration in seconds; the
      model keeps whole seconds only. */
  datatype MediaAsset = MediaAsset(
    assetId: string,
    fileUrl: string,
    kind: AssetKind,
    playbackDuration: int,
    checksum: Option<string>)

  /** A playlist snapshot; `displaySequence` is the playback order. */
  datatype Playlist = Playlist(
    playlistId: string,
    name: Option<string>,
    displaySequence: seq<MediaAsset>,
    lastUpdated: Option<string>)

  /** Answer of the claim-check endpoint polled by an unpaired display. */
  datatype PairingResponse = PairingResponse(
    deviceToken: Option<string>,
    userId: Option<string>,
    message: Option<string>)

  /** Answer of the player-configuration endpoint; the playlist may be absent. */
  datatype ConfigResponse = ConfigResponse(playlistJson: Option<Playlist>)

  /** A user-visible alert: title and message. */
  datatype Alert = Alert(title: string, message: string)
}
