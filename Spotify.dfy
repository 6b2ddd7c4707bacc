/** The parts of the web-API client library and of `chrono` that the core
    touches, reduced to the fields it reads. */
module Spotify {

  /** `rspotify::model::TimeRange`: the statistics window. */
  datatype TimeRange = ShortTerm | MediumTerm | LongTerm

  /** `chrono::Duration` of a track, never negative here (whole milliseconds). */
  datatype Duration = Duration(millis: nat)

  /** `Duration::num_seconds`: whole seconds, the fraction dropped. */
  function NumSeconds(d: Duration): nat { d.millis / 1000 }

  /** `SimplifiedArtist`: the artist credit carried by a track. */
  datatype SimplifiedArtist = SimplifiedArtist(name: string)

  /** `FullTrack`, as far as the collection loop reads it. */
  datatype FullTrack = FullTrack(name: string, duration: Duration, artists: seq<SimplifiedArtist>)

  /** `FullArtist`, as far as the collection loop reads it. */
  datatype FullArtist = FullArtist(name: string)

  /** One answer of `stream.try_next()`: the next item, or the client's error. */
  datatype Pull<T> = Item(value: T) | Fault(cause: string)

  /** The paginated stream, as the finite sequence of answers it would give;
      `Ok(None)` (end of stream) is reached once the sequence is used up. */
  type Stream<T> = seq<Pull<T>>

  /** An authorised session: for each window, the stream that
      `current_user_top_tracks` and `current_user_top_artists` would return. */
  datatype Session = Session(topTracks: TimeRange -> Stream<FullTrack>,
                             topArtists: TimeRange -> Stream<FullArtist>)
}
