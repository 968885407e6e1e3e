/**
 * The typed shape of the upstream "currently playing" body, as the route
 * handler reads it after `response.json()`. Only the fields the handler
 * touches are kept.
 */
module PlayerTypes {

  datatype Artist = Artist(name: string)

  datatype Image = Image(url: string)

  datatype Album = Album(name: string, images: seq<Image>)

  datatype ExternalUrls = ExternalUrls(spotify: string)

  datatype Item = Item(
    name: string,
    artists: seq<Artist>,
    album: Album,
    externalUrls: ExternalUrls,
    durationMs: int)

  /** `is_playing`, `item` and `progress_ms` of the player-state object. */
  datatype PlayerPayload = PlayerPayload(isPlaying: bool, item: Item, progressMs: int)
}
