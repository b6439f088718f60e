/**
 * The request schedules of the catalog fetch: playlist pages at offsets
 * 0, 100, 200, ... below the reported total; audio features for the track
 * ids in chunks of 100; artists in chunks of 50. Requests go out one after
 * another, a failing request fails the whole fetch, and the pages are
 * concatenated in request order.
 */
module Paging {
  import opened Wrappers
  import opened Seqs

  const TrackPageSize: nat := 100
  const FeatureChunkSize: nat := 100
  const ArtistChunkSize: nat := 50

  function Min(a: int, b: int): int { if a < b then a else b }

  /** The offsets `for (let o = from; o < total; o += step)` visits. */
  function OffsetsFrom(from: nat, total: int, step: nat): (r: seq<nat>)
    requires step > 0
    ensures forall i :: 0 <= i < |r| ==> r[i] == from + i * step && r[i] < total
    ensures from + |r| * step >= total
    decreases total - from
  {
    if from >= total then []
    else
      var rest := OffsetsFrom(from + step, total, step);
      var r := [from] + rest;
      assert forall i | 0 < i < |r| :: r[i] == from + i * step by {
        forall i | 0 < i < |r|
          ensures r[i] == from + i * step
        {
          assert r[i] == rest[i - 1];
          StepMul(i - 1, step);
        }
      }
      StepMul(|rest|, step);
      r
  }

  lemma StepMul(i: int, step: int)
    ensures (i + 1) * step == i * step + step
  {
  }

  /**
   * The offsets of a paginated loop starting at 0: `ceil(total / step)` of
   * them, each a multiple of `step` below `total`.
   */
  function Offsets(total: int, step: nat): (r: seq<nat>)
    requires step > 0
    ensures forall i :: 0 <= i < |r| ==> r[i] == i * step && r[i] < total
    ensures |r| * step >= total
  {
    OffsetsFrom(0, total, step)
  }

  /** `ids.slice(i, i + n)` for every `i` the chunk loop visits. */
  function Chunks<T>(s: seq<T>, n: nat): (r: seq<seq<T>>)
    requires n > 0
    ensures |r| == |Offsets(|s|, n)|
    ensures forall j :: 0 <= j < |r| ==> 0 < |r[j]| <= n
  {
    var offs := Offsets(|s|, n);
    seq(|offs|, j requires 0 <= j < |offs| => s[offs[j]..Min(offs[j] + n, |s|)])
  }

  /** Concatenating the chunks gives back the chunked sequence. */
  lemma ChunksFlatten<T>(s: seq<T>, n: nat)
    requires n > 0
    ensures Flatten(Chunks(s, n)) == s
  {
    var ch := Chunks(s, n);
    var offs := Offsets(|s|, n);
    ChunksPrefix(s, n, |ch|);
    assert ch[..|ch|] == ch;
    StepMul(|ch| - 1, n);
  }

  lemma {:induction false} ChunksPrefix<T>(s: seq<T>, n: nat, m: nat)
    requires n > 0
    requires m <= |Chunks(s, n)|
    ensures Flatten(Chunks(s, n)[..m]) == s[..Min(m * n, |s|)]
  {
    var ch := Chunks(s, n);
    if m > 0 {
      var lo := (m - 1) * n;
      var hi := Min(m * n, |s|);
      ChunksPrefix(s, n, m - 1);
      var offs := Offsets(|s|, n);
      assert offs[m - 1] == lo && lo < |s|;
      StepMul(m - 1, n);
      assert ch[m - 1] == s[lo..hi];
      assert ch[..m][..m - 1] == ch[..m - 1];
      assert Flatten(ch[..m]) == Flatten(ch[..m - 1]) + ch[m - 1];
      assert s[..hi] == s[..lo] + s[lo..hi];
    }
  }

  /**
   * The requests issued one after another; the first failure fails the
   * fetch, otherwise the pages are concatenated in request order.
   */
  function FetchAll<R, T>(reqs: seq<R>, call: R -> Result<seq<T>>): (r: Result<seq<T>>)
    ensures r.Ok? <==> forall i :: 0 <= i < |reqs| ==> call(reqs[i]).Ok?
  {
    if |reqs| == 0 then Ok([])
    else
      var init := reqs[..|reqs| - 1];
      assert forall i :: 0 <= i < |init| ==> init[i] == reqs[i];
      match FetchAll(init, call)
      case Failed => Failed
      case Ok(prev) =>
        match call(reqs[|reqs| - 1])
        case Failed => Failed
        case Ok(page) => Ok(prev + page)
  }

  /**
   * When every response is `g` of its request and `g` maps a concatenation
   * to the concatenation of its images, fetching chunk by chunk is the same
   * as applying `g` to the whole.
   */
  lemma {:induction false} FetchAllHomomorphic<K, V>(chunks: seq<seq<K>>, call: seq<K> -> Result<seq<V>>, g: seq<K> -> seq<V>)
    requires forall c :: call(c) == Ok(g(c))
    requires forall a, b :: g(a + b) == g(a) + g(b)
    ensures FetchAll(chunks, call) == Ok(g(Flatten(chunks)))
  {
    if |chunks| == 0 {
      assert g([] + []) == g([]) + g([]);
    } else {
      var init := chunks[..|chunks| - 1];
      FetchAllHomomorphic(init, call, g);
      assert g(Flatten(init) + chunks[|chunks| - 1]) == g(Flatten(init)) + g(chunks[|chunks| - 1]);
    }
  }

  // ---------------------------------------------------------------- playlist tracks

  /** What a well-behaved provider returns for `offset`: the next items of the playlist. */
  function PageOf<T>(all: seq<T>, offset: nat): seq<T>
  {
    all[Min(offset, |all|)..Min(offset + TrackPageSize, |all|)]
  }

  /** `fetchAllPlaylistTracks`: one request per offset below `total`. */
  function FetchTracks<T>(total: int, page: nat -> Result<seq<T>>): Result<seq<T>>
  {
    FetchAll(Offsets(total, TrackPageSize), page)
  }

  /**
   * Pagination round trip: when the provider pages the playlist faithfully
   * and reports its true length, the fetch yields exactly the playlist, in
   * order, each item once.
   */
  lemma TracksRoundTrip<T>(all: seq<T>, page: nat -> Result<seq<T>>)
    requires forall o :: page(o) == Ok(PageOf(all, o))
    ensures FetchTracks(|all|, page) == Ok(all)
  {
    var offs := Offsets(|all|, TrackPageSize);
    var ch := Chunks(all, TrackPageSize);
    forall j | 0 <= j < |offs| ensures page(offs[j]) == Ok(ch[j]) {
    }
    FetchAllPages(offs, page, ch);
    ChunksFlatten(all, TrackPageSize);
  }

  lemma {:induction false} FetchAllPages<R, T>(reqs: seq<R>, call: R -> Result<seq<T>>, pages: seq<seq<T>>)
    requires |pages| == |reqs|
    requires forall j :: 0 <= j < |reqs| ==> call(reqs[j]) == Ok(pages[j])
    ensures FetchAll(reqs, call) == Ok(Flatten(pages))
  {
    if |reqs| > 0 {
      FetchAllPages(reqs[..|reqs| - 1], call, pages[..|pages| - 1]);
    }
  }

  /** 250 tracks at 100 per page: three requests, 250 items, in playlist order. */
  lemma TwoHundredFiftyTracks<T>(all: seq<T>, page: nat -> Result<seq<T>>)
    requires |all| == 250
    requires forall o :: page(o) == Ok(PageOf(all, o))
    ensures Offsets(|all|, TrackPageSize) == [0, 100, 200]
    ensures FetchTracks(|all|, page) == Ok(all)
  {
    var offs := Offsets(|all|, TrackPageSize);
    var n := |offs|;
    assert n * 100 >= 250;
    assert n > 0 && offs[n - 1] == (n - 1) * 100 < 250;
    assert n == 3;
    TracksRoundTrip(all, page);
  }

  // ---------------------------------------------------------------- features and artists

  /** The provider's answer for a list of ids: one entry per id, `null` for an unknown id. */
  function LookupAll<V>(catalog: map<string, V>, ids: seq<string>): (r: seq<Option<V>>)
    ensures |r| == |ids|
    ensures forall i :: 0 <= i < |ids| ==> r[i] == if ids[i] in catalog then Some(catalog[ids[i]]) else None
  {
    seq(|ids|, i requires 0 <= i < |ids| => if ids[i] in catalog then Some(catalog[ids[i]]) else None)
  }

  lemma LookupAllAppend<V>(catalog: map<string, V>, a: seq<string>, b: seq<string>)
    ensures LookupAll(catalog, a + b) == LookupAll(catalog, a) + LookupAll(catalog, b)
  {
  }

  function DropNulls<V(!new)>(r: Result<seq<Option<V>>>): Result<seq<V>>
  {
    match r
    case Ok(v) => Ok(Somes(v))
    case Failed => Failed
  }

  /** `fetchAudioFeatures`: chunks of 100 ids, `null` records dropped. */
  function FetchFeatures<V(!new)>(ids: seq<string>, call: seq<string> -> Result<seq<Option<V>>>): Result<seq<V>>
  {
    FetchAll(Chunks(ids, FeatureChunkSize), c => DropNulls(call(c)))
  }

  /** `fetchArtistsGenres`: chunks of 50 ids, entries kept as returned. */
  function FetchArtists<V>(ids: seq<string>, call: seq<string> -> Result<seq<Option<V>>>): Result<seq<Option<V>>>
  {
    FetchAll(Chunks(ids, ArtistChunkSize), call)
  }

  /** Chunking is invisible: the features fetched are those of every known id, in id order. */
  lemma FeaturesChunkingInvisible<V(!new)>(ids: seq<string>, catalog: map<string, V>, call: seq<string> -> Result<seq<Option<V>>>)
    requires forall c :: call(c) == Ok(LookupAll(catalog, c))
    ensures FetchFeatures(ids, call) == Ok(Somes(LookupAll(catalog, ids)))
  {
    var g := (c: seq<string>) => Somes(LookupAll(catalog, c));
    forall a, b ensures g(a + b) == g(a) + g(b) {
      LookupAllAppend(catalog, a, b);
      SomesAppend(LookupAll(catalog, a), LookupAll(catalog, b));
    }
    FetchAllHomomorphic(Chunks(ids, FeatureChunkSize), c => DropNulls(call(c)), g);
    ChunksFlatten(ids, FeatureChunkSize);
  }

  /** Chunking is invisible: one artist entry per requested id, in id order. */
  lemma ArtistsChunkingInvisible<V>(ids: seq<string>, catalog: map<string, V>, call: seq<string> -> Result<seq<Option<V>>>)
    requires forall c :: call(c) == Ok(LookupAll(catalog, c))
    ensures FetchArtists(ids, call) == Ok(LookupAll(catalog, ids))
  {
    var g := (c: seq<string>) => LookupAll(catalog, c);
    forall a, b ensures g(a + b) == g(a) + g(b) {
      LookupAllAppend(catalog, a, b);
    }
    FetchAllHomomorphic(Chunks(ids, ArtistChunkSize), call, g);
    ChunksFlatten(ids, ArtistChunkSize);
  }
}
