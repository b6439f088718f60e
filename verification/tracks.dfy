/**
 * The records the curation backend passes between its stages: the track
 * stubs read from a playlist page, the provider's audio-feature and artist
 * records, and the joined per-track profile that the filter, the model
 * prompt and the response all use.
 *
 * Audio features are exact reals; `null` is `None`.
 */
module Tracks {
  import opened Wrappers

  datatype ArtistRef = ArtistRef(id: string, name: string)

  /**
   * One `items[].track` of a playlist page. A missing id (a local file) is
   * the empty string; a missing `album.release_date` is the empty string.
   */
  datatype TrackStub = TrackStub(
    id: string,
    uri: string,
    name: string,
    durationMs: nat,
    releaseDate: string,
    artists: seq<ArtistRef>)

  /** One record of the audio-features endpoint. */
  datatype AudioFeatures = AudioFeatures(
    id: string,
    tempo: real,
    energy: real,
    danceability: real,
    valence: real,
    acousticness: real,
    instrumentalness: real,
    mode: int)

  /** One record of the several-artists endpoint; missing `genres` is the empty list. */
  datatype ArtistRecord = ArtistRecord(id: string, genres: seq<string>)

  /** The joined profile of one track; `artists` is the names joined with ", ". */
  datatype TrackProfile = TrackProfile(
    id: string,
    uri: string,
    name: string,
    artists: string,
    durationMs: nat,
    year: string,
    bpm: Option<real>,
    energy: Option<real>,
    danceability: Option<real>,
    valence: Option<real>,
    acousticness: Option<real>,
    instrumentalness: Option<real>,
    mode: Option<int>,
    genres: seq<string>)

  /**
   * The number a nullable feature stands for in a relational comparison
   * (`null < 0.4` compares 0) and in `x || 0`: `null` counts as 0.
   */
  function AsNumber(x: Option<real>): real
  {
    x.GetOr(0.0)
  }
}
