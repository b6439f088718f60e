/**
 * Writing the curation back to the streaming service: the title and
 * description of the new playlist (with their fallbacks and length caps)
 * and the plan of track-adding requests (at most 500 URIs, 100 per request).
 */
module Materialize {
  import opened Wrappers
  import opened Seqs
  import opened Tracks
  import opened Paging

  const TitleCap: nat := 90
  const DescriptionCap: nat := 300
  const UriCap: nat := 500
  const UriBatchSize: nat := 100

  /** "Kurator • " */
  const TitlePrefix: string := "Kurator \U{2022} "
  /** "Auto-genererad från " */
  const DescriptionPrefix: string := "Auto-genererad fr\U{E5}n "

  /** JavaScript truthiness of a nullable string: `null` and `""` are falsy. */
  predicate Truthy(s: Option<string>)
  {
    s.Some? && s.value != ""
  }

  /** `s || fallback`. */
  function OrElse(s: Option<string>, fallback: string): (r: string)
    ensures Truthy(s) ==> r == s.value
    ensures !Truthy(s) ==> r == fallback
  {
    if Truthy(s) then s.value else fallback
  }

  /** `(llm.playlist_title || "Kurator • " + name).slice(0, 90)`. */
  function PlaylistTitle(llmTitle: Option<string>, playlistName: string): (r: string)
    ensures |r| <= TitleCap
    ensures |r| == Min(TitleCap, |OrElse(llmTitle, TitlePrefix + playlistName)|)
    ensures Truthy(llmTitle) ==> r <= llmTitle.value
    ensures Truthy(llmTitle) && |llmTitle.value| <= TitleCap ==> r == llmTitle.value
    ensures !Truthy(llmTitle) ==> r <= TitlePrefix + playlistName
  {
    Prefix(OrElse(llmTitle, TitlePrefix + playlistName), TitleCap)
  }

  /** `(llm.playlist_description || "Auto-genererad från " + name).slice(0, 300)`. */
  function PlaylistDescription(llmDescription: Option<string>, playlistName: string): (r: string)
    ensures |r| <= DescriptionCap
    ensures |r| == Min(DescriptionCap, |OrElse(llmDescription, DescriptionPrefix + playlistName)|)
    ensures Truthy(llmDescription) ==> r <= llmDescription.value
    ensures Truthy(llmDescription) && |llmDescription.value| <= DescriptionCap ==> r == llmDescription.value
    ensures !Truthy(llmDescription) ==> r <= DescriptionPrefix + playlistName
  {
    Prefix(OrElse(llmDescription, DescriptionPrefix + playlistName), DescriptionCap)
  }

  /** `llm.playlist_title || null` as reported in the response. */
  function Reported(s: Option<string>): (r: Option<string>)
    ensures r.Some? <==> Truthy(s)
    ensures r.Some? ==> r == s
  {
    if Truthy(s) then s else None
  }

  /**
   * The title the response reports, when there is one, is the model's
   * title, and the new playlist carries it whole when it fits in 90
   * characters; without one, the playlist is named after the source.
   */
  lemma ReportedTitleNamesPlaylist(llmTitle: Option<string>, playlistName: string)
    ensures Reported(llmTitle).Some? && |Reported(llmTitle).value| <= TitleCap ==>
      PlaylistTitle(llmTitle, playlistName) == Reported(llmTitle).value
    ensures Reported(llmTitle).Some? ==> PlaylistTitle(llmTitle, playlistName) <= Reported(llmTitle).value
    ensures Reported(llmTitle).None? ==> PlaylistTitle(llmTitle, playlistName) <= TitlePrefix + playlistName
  {
  }

  /** The same holds for the description, with its 300-character cap. */
  lemma ReportedDescriptionDescribesPlaylist(llmDescription: Option<string>, playlistName: string)
    ensures Reported(llmDescription).Some? && |Reported(llmDescription).value| <= DescriptionCap ==>
      PlaylistDescription(llmDescription, playlistName) == Reported(llmDescription).value
    ensures Reported(llmDescription).Some? ==> PlaylistDescription(llmDescription, playlistName) <= Reported(llmDescription).value
    ensures Reported(llmDescription).None? ==> PlaylistDescription(llmDescription, playlistName) <= DescriptionPrefix + playlistName
  {
  }

  /** `curated.map(c => c.uri).slice(0, 500)`. */
  function Uris(curated: seq<TrackProfile>): (r: seq<string>)
    ensures |r| == if |curated| < UriCap then |curated| else UriCap
    ensures forall i :: 0 <= i < |r| ==> r[i] == curated[i].uri
  {
    var all := seq(|curated|, i requires 0 <= i < |curated| => curated[i].uri);
    Prefix(all, UriCap)
  }

  /** The `uris` bodies of the track-adding requests, in the order they are sent. */
  function Batches(uris: seq<string>): (r: seq<seq<string>>)
    ensures forall j :: 0 <= j < |r| ==> 0 < |r[j]| <= UriBatchSize
  {
    Chunks(uris, UriBatchSize)
  }

  /**
   * The batches sent for a curation hold exactly the first (at most) 500
   * curated URIs, in order, and there are just enough of them.
   */
  lemma BatchesCoverUris(curated: seq<TrackProfile>)
    ensures Flatten(Batches(Uris(curated))) == Uris(curated)
    ensures |Batches(Uris(curated))| * UriBatchSize >= |Uris(curated)|
    ensures |Batches(Uris(curated))| == 0 || (|Batches(Uris(curated))| - 1) * UriBatchSize < |Uris(curated)|
    ensures |Batches(Uris(curated))| <= UriCap / UriBatchSize
  {
    var uris := Uris(curated);
    ChunksFlatten(uris, UriBatchSize);
    var n := |Batches(uris)|;
    var offs := Offsets(|uris|, UriBatchSize);
    if n > 0 {
      assert offs[n - 1] == (n - 1) * UriBatchSize;
    }
  }
}
