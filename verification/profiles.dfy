/**
 * The feature joiner of the `/analyze` handler: one profile per playlist
 * track, with the track's audio features looked up by track id and its
 * genres gathered from its artists (de-duplicated, at most six), plus the
 * id lists and lookup maps the join is built from.
 */
module Profiles {
  import opened Wrappers
  import opened Seqs
  import opened JsText
  import opened Tracks

  /** At most this many genres per profile. */
  const GenreCap: nat := 6
  /** At most this many distinct artists have their genres fetched. */
  const ArtistCap: nat := 300

  /** `items.map(i => i.track).filter(Boolean)`. */
  function TracksOf(items: seq<Option<TrackStub>>): (r: seq<TrackStub>)
    ensures forall t :: t in r <==> Some(t) in items
  {
    Somes(items)
  }

  predicate NonEmptyId(id: string) { id != "" }

  /** `tracks.map(t => t.id).filter(Boolean)`: the ids to ask audio features for. */
  function TrackIds(tracks: seq<TrackStub>): (r: seq<string>)
    ensures forall id :: id in r <==> id != "" && exists i :: 0 <= i < |tracks| && tracks[i].id == id
  {
    var all := seq(|tracks|, i requires 0 <= i < |tracks| => tracks[i].id);
    assert forall id :: id in all <==> exists i :: 0 <= i < |tracks| && tracks[i].id == id by {
      forall id | id in all ensures exists i :: 0 <= i < |tracks| && tracks[i].id == id {
        var i :| 0 <= i < |all| && all[i] == id;
        assert tracks[i].id == id;
      }
      forall i | 0 <= i < |tracks| ensures tracks[i].id in all {
        assert all[i] == tracks[i].id;
      }
    }
    Filter(NonEmptyId, all)
  }

  function ArtistIdsOfTrack(t: TrackStub): seq<string>
  {
    seq(|t.artists|, j requires 0 <= j < |t.artists| => t.artists[j].id)
  }

  /** Some artist of some track has this id. */
  predicate IsArtistOf(tracks: seq<TrackStub>, id: string)
  {
    exists i, j :: 0 <= i < |tracks| && 0 <= j < |tracks[i].artists| && tracks[i].artists[j].id == id
  }

  /**
   * `uniq(tracks.flatMap(t => t.artists.map(a => a.id))).filter(Boolean).slice(0, 300)`:
   * distinct non-empty artist ids, in order of first appearance, at most 300.
   */
  function ArtistIdLists(tracks: seq<TrackStub>): (r: seq<seq<string>>)
    ensures |r| == |tracks|
    ensures forall i :: 0 <= i < |r| ==> r[i] == ArtistIdsOfTrack(tracks[i])
  {
    seq(|tracks|, i requires 0 <= i < |tracks| => ArtistIdsOfTrack(tracks[i]))
  }

  /** The distinct non-empty artist ids of the tracks, in order of first appearance. */
  function FirstArtistIds(tracks: seq<TrackStub>): seq<string>
  {
    Filter(NonEmptyId, Uniq(Flatten(ArtistIdLists(tracks))))
  }

  function ArtistIdsToFetch(tracks: seq<TrackStub>): (r: seq<string>)
    ensures |r| <= ArtistCap
    ensures |r| == (if |FirstArtistIds(tracks)| < ArtistCap then |FirstArtistIds(tracks)| else ArtistCap)
    ensures r == FirstArtistIds(tracks)[..|r|]
    ensures Distinct(r)
    ensures forall id :: id in r ==> id != "" && IsArtistOf(tracks, id)
    ensures |r| < ArtistCap ==> forall id :: id != "" && IsArtistOf(tracks, id) ==> id in r
  {
    var perTrack := ArtistIdLists(tracks);
    var u := Uniq(Flatten(perTrack));
    var ids := Filter(NonEmptyId, u);
    FilterDistinct(NonEmptyId, u);
    forall id | id in ids ensures IsArtistOf(tracks, id) {
      FlattenMember(perTrack, id);
      var i :| 0 <= i < |perTrack| && id in perTrack[i];
      var j :| 0 <= j < |perTrack[i]| && perTrack[i][j] == id;
      assert tracks[i].artists[j].id == id;
    }
    forall id | id != "" && IsArtistOf(tracks, id) ensures id in ids {
      var i, j :| 0 <= i < |tracks| && 0 <= j < |tracks[i].artists| && tracks[i].artists[j].id == id;
      assert perTrack[i][j] == id;
      FlattenMember(perTrack, id);
    }
    Prefix(ids, ArtistCap)
  }

  /** `new Map(feats.map(f => [f.id, f]))`. */
  function IndexFeatures(feats: seq<AudioFeatures>): map<string, AudioFeatures>
  {
    LastWins(seq(|feats|, i requires 0 <= i < |feats| => (feats[i].id, feats[i])))
  }

  /**
   * `new Map(artists.map(a => [a.id, a.genres || []]))`: an unknown artist
   * comes back as `null`, and reading `a.id` of it throws.
   */
  function IndexGenres(artists: seq<Option<ArtistRecord>>): (r: Result<map<string, seq<string>>>)
    ensures r.Ok? <==> forall i :: 0 <= i < |artists| ==> artists[i].Some?
    ensures r.Ok? ==> forall k :: k in r.value <==>
      exists i :: 0 <= i < |artists| && artists[i].Some? && artists[i].value.id == k
    ensures r.Ok? ==> forall k :: k in r.value ==> exists i :: LastEntryFor(artists, k, r.value[k], i)
  {
    if exists i :: 0 <= i < |artists| && artists[i].None? then Failed
    else
      GenreMapOfEntries(artists);
      Ok(LastWins(GenreEntries(artists)))
  }

  /** `artists.map(a => [a.id, a.genres || []])` when no entry is null. */
  function GenreEntries(artists: seq<Option<ArtistRecord>>): (r: seq<(string, seq<string>)>)
    requires forall i :: 0 <= i < |artists| ==> artists[i].Some?
  {
    seq(|artists|, i requires 0 <= i < |artists| => (artists[i].value.id, artists[i].value.genres))
  }

  lemma GenreMapOfEntries(artists: seq<Option<ArtistRecord>>)
    requires forall i :: 0 <= i < |artists| ==> artists[i].Some?
    ensures forall k :: k in LastWins(GenreEntries(artists)) <==>
      exists i :: 0 <= i < |artists| && artists[i].Some? && artists[i].value.id == k
    ensures forall k :: k in LastWins(GenreEntries(artists)) ==>
      exists i :: LastEntryFor(artists, k, LastWins(GenreEntries(artists))[k], i)
  {
    forall k ensures k in LastWins(GenreEntries(artists)) <==>
      exists i :: 0 <= i < |artists| && artists[i].Some? && artists[i].value.id == k
    {
      GenreKey(artists, k);
    }
    forall k | k in LastWins(GenreEntries(artists))
      ensures exists i :: LastEntryFor(artists, k, LastWins(GenreEntries(artists))[k], i)
    {
      GenreValue(artists, k);
    }
  }

  lemma GenreKey(artists: seq<Option<ArtistRecord>>, k: string)
    requires forall i :: 0 <= i < |artists| ==> artists[i].Some?
    ensures k in LastWins(GenreEntries(artists)) <==>
      exists i :: 0 <= i < |artists| && artists[i].Some? && artists[i].value.id == k
  {
    var entries := GenreEntries(artists);
    if k in LastWins(entries) {
      var i :| 0 <= i < |entries| && entries[i].0 == k;
      assert artists[i].value.id == k;
    }
    if exists i :: 0 <= i < |artists| && artists[i].Some? && artists[i].value.id == k {
      var i :| 0 <= i < |artists| && artists[i].Some? && artists[i].value.id == k;
      assert entries[i].0 == k;
    }
  }

  lemma GenreValue(artists: seq<Option<ArtistRecord>>, k: string)
    requires forall i :: 0 <= i < |artists| ==> artists[i].Some?
    requires k in LastWins(GenreEntries(artists))
    ensures exists i :: LastEntryFor(artists, k, LastWins(GenreEntries(artists))[k], i)
  {
    var entries := GenreEntries(artists);
    var v := LastWins(entries)[k];
    var i :| 0 <= i < |entries| && entries[i] == (k, v) && forall j :: i < j < |entries| ==> entries[j].0 != k;
    LastEntryOfEntries(artists, k, v, i);
  }

  lemma LastEntryOfEntries(artists: seq<Option<ArtistRecord>>, k: string, v: seq<string>, i: int)
    requires forall i :: 0 <= i < |artists| ==> artists[i].Some?
    requires 0 <= i < |GenreEntries(artists)| && GenreEntries(artists)[i] == (k, v)
    requires forall j :: i < j < |GenreEntries(artists)| ==> GenreEntries(artists)[j].0 != k
    ensures LastEntryFor(artists, k, v, i)
  {
    var entries := GenreEntries(artists);
    assert artists[i].value == ArtistRecord(k, v);
    forall j | i < j < |artists| ensures artists[j].Some? && artists[j].value.id != k {
      assert entries[j].0 == artists[j].value.id;
    }
  }

  /** Entry `i` is the last artist entry with id `k`, and it lists `genres`. */
  predicate LastEntryFor(artists: seq<Option<ArtistRecord>>, k: string, genres: seq<string>, i: int)
  {
    && 0 <= i < |artists| && artists[i] == Some(ArtistRecord(k, genres))
    && forall j :: i < j < |artists| ==> artists[j].Some? && artists[j].value.id != k
  }

  /** `aGenres.get(a.id) || []`. */
  function GenresOfArtist(aGenres: map<string, seq<string>>, id: string): seq<string>
  {
    if id in aGenres then aGenres[id] else []
  }

  /** Some artist of the track lists this genre in the genre map. */
  predicate IsGenreOf(t: TrackStub, aGenres: map<string, seq<string>>, g: string)
  {
    exists j :: 0 <= j < |t.artists| && g in GenresOfArtist(aGenres, t.artists[j].id)
  }

  /**
   * `uniq(t.artists.flatMap(a => aGenres.get(a.id) || [])).slice(0, 6)`:
   * distinct genres of the track's artists, at most six, and all of them
   * when there are no more than six.
   */
  function TrackGenres(t: TrackStub, aGenres: map<string, seq<string>>): (r: seq<string>)
    ensures |r| <= GenreCap
    ensures |r| == (if |Uniq(AllGenres(t, aGenres))| < GenreCap then |Uniq(AllGenres(t, aGenres))| else GenreCap)
    ensures r == Uniq(AllGenres(t, aGenres))[..|r|]
    ensures Distinct(r)
    ensures forall g :: g in r ==> IsGenreOf(t, aGenres, g)
    ensures |Uniq(AllGenres(t, aGenres))| <= GenreCap ==>
      forall g :: IsGenreOf(t, aGenres, g) ==> g in r
  {
    var all := AllGenres(t, aGenres);
    var u := Uniq(all);
    forall g ensures g in all <==> IsGenreOf(t, aGenres, g) {
      var lists := GenreLists(t, aGenres);
      FlattenMember(lists, g);
      if g in all {
        var j :| 0 <= j < |lists| && g in lists[j];
        assert g in GenresOfArtist(aGenres, t.artists[j].id);
      }
      if IsGenreOf(t, aGenres, g) {
        var j :| 0 <= j < |t.artists| && g in GenresOfArtist(aGenres, t.artists[j].id);
        assert g in lists[j];
      }
    }
    Prefix(u, GenreCap)
  }

  /** The genre list of each of the track's artists, in artist order. */
  function GenreLists(t: TrackStub, aGenres: map<string, seq<string>>): (r: seq<seq<string>>)
    ensures |r| == |t.artists|
    ensures forall j :: 0 <= j < |r| ==> r[j] == GenresOfArtist(aGenres, t.artists[j].id)
  {
    seq(|t.artists|, j requires 0 <= j < |t.artists| => GenresOfArtist(aGenres, t.artists[j].id))
  }

  function AllGenres(t: TrackStub, aGenres: map<string, seq<string>>): seq<string>
  {
    Flatten(GenreLists(t, aGenres))
  }

  /** `(t.album?.release_date || "").slice(0, 4)`. */
  function Year(releaseDate: string): (r: string)
    ensures |r| == if |releaseDate| < 4 then |releaseDate| else 4
    ensures r == releaseDate[..|r|]
  {
    Prefix(releaseDate, 4)
  }

  /** `(t.artists || []).map(a => a.name)`. */
  function ArtistNames(t: TrackStub): (r: seq<string>)
    ensures |r| == |t.artists|
    ensures forall j :: 0 <= j < |r| ==> r[j] == t.artists[j].name
  {
    seq(|t.artists|, j requires 0 <= j < |t.artists| => t.artists[j].name)
  }

  /** The profile the handler builds for one track. */
  function BuildProfile(t: TrackStub, fMap: map<string, AudioFeatures>, aGenres: map<string, seq<string>>): (p: TrackProfile)
    ensures p.id == t.id && p.uri == t.uri && p.name == t.name && p.durationMs == t.durationMs
    ensures |p.year| <= 4 && p.year == Year(t.releaseDate)
    ensures p.artists == Join(ArtistNames(t), ", ")
    ensures t.id !in fMap ==>
      && p.bpm.None? && p.energy.None? && p.danceability.None? && p.valence.None?
      && p.acousticness.None? && p.instrumentalness.None? && p.mode.None?
    ensures t.id in fMap ==>
      && p.bpm == Some(fMap[t.id].tempo) && p.energy == Some(fMap[t.id].energy)
      && p.danceability == Some(fMap[t.id].danceability) && p.valence == Some(fMap[t.id].valence)
      && p.acousticness == Some(fMap[t.id].acousticness)
      && p.instrumentalness == Some(fMap[t.id].instrumentalness) && p.mode == Some(fMap[t.id].mode)
    ensures p.genres == TrackGenres(t, aGenres)
    ensures |p.genres| <= GenreCap && Distinct(p.genres)
    ensures forall g :: g in p.genres ==> IsGenreOf(t, aGenres, g)
  {
    var feat := if t.id in fMap then Some(fMap[t.id]) else None;
    var names := ArtistNames(t);
    TrackProfile(
      id := t.id,
      uri := t.uri,
      name := t.name,
      artists := Join(names, ", "),
      durationMs := t.durationMs,
      year := Year(t.releaseDate),
      bpm := if feat.Some? then Some(feat.value.tempo) else None,
      energy := if feat.Some? then Some(feat.value.energy) else None,
      danceability := if feat.Some? then Some(feat.value.danceability) else None,
      valence := if feat.Some? then Some(feat.value.valence) else None,
      acousticness := if feat.Some? then Some(feat.value.acousticness) else None,
      instrumentalness := if feat.Some? then Some(feat.value.instrumentalness) else None,
      mode := if feat.Some? then Some(feat.value.mode) else None,
      genres := TrackGenres(t, aGenres))
  }

  /** `tracks.map(t => ...)`: exactly one profile per track, in track order. */
  function BuildProfiles(tracks: seq<TrackStub>, fMap: map<string, AudioFeatures>, aGenres: map<string, seq<string>>): (r: seq<TrackProfile>)
    ensures |r| == |tracks|
    ensures forall i :: 0 <= i < |r| ==> r[i] == BuildProfile(tracks[i], fMap, aGenres)
  {
    seq(|tracks|, i requires 0 <= i < |tracks| => BuildProfile(tracks[i], fMap, aGenres))
  }

  /** A track none of whose artists has a genre entry (for instance beyond the 300-artist cap) gets no genres. */
  lemma NoGenresWithoutArtistEntries(t: TrackStub, aGenres: map<string, seq<string>>)
    requires forall j :: 0 <= j < |t.artists| ==> t.artists[j].id !in aGenres
    ensures TrackGenres(t, aGenres) == []
  {
    FlattenOfEmpties(GenreLists(t, aGenres));
    assert Uniq(AllGenres(t, aGenres)) == [];
  }

  /**
   * Indexing features fetched from a catalog whose records carry their own
   * key yields, for every requested id the catalog knows, that id's record,
   * and nothing else.
   */
  lemma IndexOfCatalogFeatures(ids: seq<string>, catalog: map<string, AudioFeatures>, feats: seq<AudioFeatures>)
    requires forall k :: k in catalog ==> catalog[k].id == k
    requires forall f :: f in feats <==> exists i :: 0 <= i < |ids| && ids[i] in catalog && catalog[ids[i]] == f
    ensures forall k :: k in IndexFeatures(feats) <==> k in catalog && k in ids
    ensures forall k :: k in IndexFeatures(feats) ==> IndexFeatures(feats)[k] == catalog[k]
  {
    var entries := seq(|feats|, i requires 0 <= i < |feats| => (feats[i].id, feats[i]));
    var m := IndexFeatures(feats);
    forall k ensures k in m <==> k in catalog && k in ids {
      if k in catalog && k in ids {
        var i :| 0 <= i < |ids| && ids[i] == k;
        assert catalog[k] in feats;
        var j :| 0 <= j < |feats| && feats[j] == catalog[k];
        assert entries[j].0 == k;
      }
      if k in m {
        var i :| 0 <= i < |entries| && entries[i].0 == k;
        assert feats[i] in feats;
      }
    }
    forall k | k in m ensures m[k] == catalog[k] {
      var i :| 0 <= i < |entries| && entries[i] == (k, m[k]);
      assert feats[i] in feats;
    }
  }
}
