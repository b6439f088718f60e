/**
 * The `POST /analyze` handler as one pure function of the request body and
 * of what the upstream services answer: gather the playlist's profiles,
 * pre-filter them, let the language model curate the candidates, and
 * optionally write the curation to a new playlist. Every upstream call is
 * an input; the writes the handler makes are part of its result.
 */
module Analyze {
  import opened Wrappers
  import opened Seqs
  import opened Tracks
  import opened CriteriaParser
  import opened PreFilter
  import opened Paging
  import opened Profiles
  import opened Curation
  import opened Materialize

  /**
   * The request body. `criteria`, `createNew` and `llmLimit` are `None`
   * when absent; absent `createNew` means `true` and absent `llmLimit` 300.
   */
  datatype Request = Request(
    token: string,
    playlistId: string,
    criteria: Option<Criteria>,
    createNew: Option<bool>,
    llmLimit: Option<int>)

  /** The playlist's metadata: name, owner's display name, `tracks.total`. */
  datatype PlaylistMeta = PlaylistMeta(name: string, owner: Option<string>, total: Option<int>)

  /** The chat-completion call either fails (non-2xx) or yields text that may or may not parse. */
  datatype LlmOutcome = HttpFailure | Replied(parsed: Option<LlmReply>)

  /** What each upstream call answers; `Failed` is a thrown error. */
  datatype Upstream = Upstream(
    meta: Result<PlaylistMeta>,
    page: nat -> Result<seq<Option<TrackStub>>>,
    features: seq<string> -> Result<seq<Option<AudioFeatures>>>,
    artists: seq<string> -> Result<seq<Option<ArtistRecord>>>,
    llm: LlmOutcome,
    me: Result<string>,
    create: Result<string>,
    add: seq<string> -> bool)

  /** A change made to the user's library. */
  datatype Write =
    | CreatePlaylist(userId: string, title: string, description: string)
    | AddTracks(playlistId: string, uris: seq<string>)

  /** The JSON body of a successful answer. */
  datatype Report = Report(
    playlistName: string,
    owner: Option<string>,
    total: int,
    original: nat,
    candidates: nat,
    curatedCount: nat,
    llmTitle: Option<string>,
    llmDescription: Option<string>,
    summary: string,
    cards: seq<Card>,
    curated: seq<TrackProfile>,
    curatedIds: seq<string>,
    newPlaylist: Option<string>)

  datatype Outcome =
    | BadRequest                                  // 400, missing token or playlist id
    | ServerError(writes: seq<Write>)             // 500 "Analyze failed"
    | Success(report: Report, writes: seq<Write>) // 200

  /** The writes made, whatever the answer. */
  function WritesOf(o: Outcome): seq<Write>
  {
    match o
    case BadRequest => []
    case ServerError(w) => w
    case Success(_, w) => w
  }

  datatype Gathered = Gathered(meta: PlaylistMeta, total: int, all: seq<TrackProfile>)

  /** Steps 1 and 2 of the handler: metadata, tracks, features, genres, profiles. */
  function Gather(up: Upstream): Result<Gathered>
  {
    var meta :- up.meta;
    var total := meta.total.GetOr(0);
    var items :- FetchTracks(total, up.page);
    var tracks := TracksOf(items);
    var feats :- FetchFeatures(TrackIds(tracks), up.features);
    var artists :- FetchArtists(ArtistIdsToFetch(tracks), up.artists);
    var aGenres :- IndexGenres(artists);
    Ok(Gathered(meta, total, BuildProfiles(tracks, IndexFeatures(feats), aGenres)))
  }

  /**
   * The track-adding loop: batches are sent in order and the first failure
   * ends it (the error propagates). The result is the batches that were
   * added.
   */
  function AddUntilFailure(batches: seq<seq<string>>, add: seq<string> -> bool): (done: seq<seq<string>>)
    ensures |done| <= |batches| && done == batches[..|done|]
    ensures forall i :: 0 <= i < |done| ==> add(done[i])
    ensures |done| < |batches| ==> !add(batches[|done|])
  {
    if |batches| == 0 then []
    else if add(batches[0]) then [batches[0]] + AddUntilFailure(batches[1..], add)
    else []
  }

  datatype Published = Published(complete: bool, writes: seq<Write>, playlistId: string)

  /** Step 4: create the playlist, then add the batches of curated URIs one by one. */
  function Publish(name: string, reply: LlmReply, batches: seq<seq<string>>, up: Upstream): (p: Published)
    ensures |p.writes| <= 1 + |batches|
    ensures p.writes != [] ==> up.me.Ok? && up.create.Ok? && p.playlistId == up.create.value
    ensures p.writes != [] ==> p.writes[0] == CreatePlaylist(up.me.value, PlaylistTitle(reply.title, name), PlaylistDescription(reply.description, name))
    ensures forall i :: 1 <= i < |p.writes| ==> p.writes[i] == AddTracks(p.playlistId, batches[i - 1])
    ensures p.complete <==> p.writes != [] && |p.writes| == 1 + |batches|
    ensures up.me.Failed? || up.create.Failed? ==> p.writes == [] && !p.complete
    ensures up.me.Ok? && up.create.Ok? ==> |p.writes| == 1 + |AddUntilFailure(batches, up.add)|
    ensures p.complete <==> up.me.Ok? && up.create.Ok? && AddUntilFailure(batches, up.add) == batches
  {
    if up.me.Failed? || up.create.Failed? then Published(false, [], "")
    else
      var create := CreatePlaylist(up.me.value, PlaylistTitle(reply.title, name), PlaylistDescription(reply.description, name));
      PublishTo(up.create.value, create, batches, up.add)
  }

  /** The creation write, then the add loop against playlist `pid`. */
  function PublishTo(pid: string, create: Write, batches: seq<seq<string>>, add: seq<string> -> bool): (p: Published)
    ensures p.playlistId == pid
    ensures |p.writes| == 1 + |AddUntilFailure(batches, add)| && p.writes[0] == create
    ensures forall i :: 1 <= i < |p.writes| ==> p.writes[i] == AddTracks(pid, batches[i - 1])
    ensures p.complete <==> AddUntilFailure(batches, add) == batches
    ensures p.complete <==> |p.writes| == 1 + |batches|
  {
    var done := AddUntilFailure(batches, add);
    assert |done| == |batches| <==> done == batches;
    var adds := AddWrites(pid, done);
    Published(|done| == |batches|, [create] + adds, pid)
  }

  /** One `AddTracks` write per batch sent, to playlist `pid`. */
  function AddWrites(pid: string, done: seq<seq<string>>): (r: seq<Write>)
    ensures |r| == |done|
    ensures forall i :: 0 <= i < |r| ==> r[i] == AddTracks(pid, done[i])
  {
    if |done| == 0 then [] else [AddTracks(pid, done[0])] + AddWrites(pid, done[1..])
  }

  /** The whole handler, from the parsed body (`None`: not JSON) to the answer. */
  function Handle(body: Option<Request>, up: Upstream): Outcome
  {
    if body.None? then ServerError([])
    else if body.value.token == "" || body.value.playlistId == "" then BadRequest
    else match Gather(up)
      case Failed => ServerError([])
      case Ok(g) =>
        var candidates := Select(body.value, g);
        match up.llm
        case HttpFailure => ServerError([])
        case Replied(parsed) => Conclude(body.value, g, candidates, ReplyOf(parsed), up)
  }

  /** Step 3, first half: the pre-filtered profiles, clamped to the candidate limit. */
  function Select(req: Request, g: Gathered): (r: seq<TrackProfile>)
    ensures |r| <= |g.all| && |r| <= MaxCandidates
    ensures forall c :: c in r ==> c in g.all
  {
    var prelim := PreliminaryFilter(g.all, req.criteria.GetOr(NoCriteria));
    Candidates(prelim, req.llmLimit.GetOr(DefaultLlmLimit))
  }

  /** Step 3, second half, and step 4: validate the model's answer, then optionally publish. */
  function Conclude(req: Request, g: Gathered, candidates: seq<TrackProfile>, reply: LlmReply, up: Upstream): Outcome
  {
    var ids := CuratedIds(reply.curatedTracks, candidates);
    var curated := Curated(ids, candidates);
    var report := Report(
      playlistName := g.meta.name,
      owner := g.meta.owner,
      total := g.total,
      original := |g.all|,
      candidates := |candidates|,
      curatedCount := |curated|,
      llmTitle := Reported(reply.title),
      llmDescription := Reported(reply.description),
      summary := reply.summary,
      cards := reply.cards,
      curated := curated,
      curatedIds := ids,
      newPlaylist := None);
    if !req.createNew.GetOr(true) then Success(report, [])
    else
      var p := Publish(g.meta.name, reply, Batches(Uris(curated)), up);
      if p.complete then Success(report.(newPlaylist := Some(p.playlistId)), p.writes)
      else ServerError(p.writes)
  }

  // ---------------------------------------------------------------- properties

  /** A successful answer went through every step up to `Conclude`. */
  lemma HandleSucceeds(body: Option<Request>, up: Upstream)
    requires Handle(body, up).Success?
    ensures body.Some? && Gather(up).Ok? && up.llm.Replied?
    ensures Handle(body, up) == Conclude(body.value, Gather(up).value, Select(body.value, Gather(up).value), ReplyOf(up.llm.parsed), up)
  {
  }

  /** A request without a token or a playlist id is refused before any upstream call. */
  lemma MissingCredentialsRejected(req: Request, up: Upstream)
    requires req.token == "" || req.playlistId == ""
    ensures Handle(Some(req), up) == BadRequest
  {
  }

  /** A failing language-model call fails the request without touching the library. */
  lemma LlmFailureWritesNothing(body: Option<Request>, up: Upstream)
    requires up.llm == HttpFailure
    ensures Handle(body, up).BadRequest? || Handle(body, up) == ServerError([])
  {
  }

  /** With `createNew: false` the library is never written. */
  lemma NoCreateNoWrites(req: Request, up: Upstream)
    requires req.createNew == Some(false)
    ensures WritesOf(Handle(Some(req), up)) == []
    ensures Handle(Some(req), up).Success? ==> Handle(Some(req), up).report.newPlaylist.None?
  {
  }

  /** The text of the model's answer did not parse: the request still succeeds, with an empty curation. */
  lemma UnparseableReplySucceedsEmpty(req: Request, up: Upstream)
    requires req.token != "" && req.playlistId != ""
    requires req.createNew == Some(false) || (up.me.Ok? && up.create.Ok?)
    requires Gather(up).Ok? && up.llm == Replied(None)
    ensures Handle(Some(req), up).Success?
    ensures Handle(Some(req), up).report.curated == [] && Handle(Some(req), up).report.curatedIds == []
    ensures Handle(Some(req), up).report.llmTitle.None? && Handle(Some(req), up).report.summary == ""
  {
    var g := Gather(up).value;
    var candidates := Select(req, g);
    assert Handle(Some(req), up) == Conclude(req, g, candidates, ReplyOf(None), up);
    ConcludeUnparseable(req, g, candidates, up);
  }

  lemma ConcludeUnparseable(req: Request, g: Gathered, candidates: seq<TrackProfile>, up: Upstream)
    requires req.createNew == Some(false) || (up.me.Ok? && up.create.Ok?)
    ensures Conclude(req, g, candidates, ReplyOf(None), up).Success?
    ensures Conclude(req, g, candidates, ReplyOf(None), up).report.curated == []
    ensures Conclude(req, g, candidates, ReplyOf(None), up).report.curatedIds == []
    ensures Conclude(req, g, candidates, ReplyOf(None), up).report.llmTitle.None?
    ensures Conclude(req, g, candidates, ReplyOf(None), up).report.summary == ""
  {
    UnparseableReplyCuratesNothing(candidates);
    BatchesCoverUris([]);
    assert Batches(Uris([])) == [];
  }

  /**
   * With `createNew` true or absent, and every write call succeeding, the
   * request succeeds and reports the playlist it created.
   */
  lemma DefaultCreatePublishes(req: Request, up: Upstream)
    requires req.token != "" && req.playlistId != ""
    requires req.createNew != Some(false)
    requires Gather(up).Ok? && up.llm.Replied?
    requires up.me.Ok? && up.create.Ok? && forall b :: up.add(b)
    ensures Handle(Some(req), up).Success?
    ensures Handle(Some(req), up).report.newPlaylist == Some(up.create.value)
  {
    var g := Gather(up).value;
    var candidates := Select(req, g);
    var reply := ReplyOf(up.llm.parsed);
    assert Handle(Some(req), up) == Conclude(req, g, candidates, reply, up);
    ConcludePublishes(req, g, candidates, reply, up);
  }

  lemma ConcludePublishes(req: Request, g: Gathered, candidates: seq<TrackProfile>, reply: LlmReply, up: Upstream)
    requires req.createNew != Some(false)
    requires up.me.Ok? && up.create.Ok? && forall b :: up.add(b)
    ensures Conclude(req, g, candidates, reply, up).Success?
    ensures Conclude(req, g, candidates, reply, up).report.newPlaylist == Some(up.create.value)
  {
    var curated := Curated(CuratedIds(reply.curatedTracks, candidates), candidates);
    AllAdded(Batches(Uris(curated)), up.add);
  }

  /** When every add succeeds, the loop sends every batch. */
  lemma {:induction false} AllAdded(batches: seq<seq<string>>, add: seq<string> -> bool)
    requires forall b :: add(b)
    ensures AddUntilFailure(batches, add) == batches
  {
    if |batches| > 0 {
      AllAdded(batches[1..], add);
      assert [batches[0]] + batches[1..] == batches;
    }
  }

  /**
   * The shape of every write sequence: first the playlist is created with a
   * capped title and description, then each batch of at most 100 URIs is
   * added to that playlist, in order.
   */
  predicate CreateThenBatches(w: seq<Write>, created: Result<string>)
  {
    w != [] ==>
      && created.Ok?
      && w[0].CreatePlaylist?
      && |w[0].title| <= TitleCap && |w[0].description| <= DescriptionCap
      && forall i :: 1 <= i < |w| ==> w[i].AddTracks? && w[i].playlistId == created.value && 0 < |w[i].uris| <= UriBatchSize
  }

  lemma PublishShape(name: string, reply: LlmReply, curated: seq<TrackProfile>, up: Upstream)
    ensures CreateThenBatches(Publish(name, reply, Batches(Uris(curated)), up).writes, up.create)
  {
    var batches := Batches(Uris(curated));
    assert forall i :: 0 <= i < |batches| ==> 0 < |batches[i]| <= UriBatchSize;
  }

  lemma ConcludeShape(req: Request, g: Gathered, candidates: seq<TrackProfile>, reply: LlmReply, up: Upstream)
    ensures CreateThenBatches(WritesOf(Conclude(req, g, candidates, reply, up)), up.create)
  {
    var curated := Curated(CuratedIds(reply.curatedTracks, candidates), candidates);
    PublishShape(g.meta.name, reply, curated, up);
  }

  /** Whatever the answer, the writes made have the create-then-batches shape. */
  lemma WritesAreCreateThenBatches(body: Option<Request>, up: Upstream)
    ensures CreateThenBatches(WritesOf(Handle(body, up)), up.create)
  {
    if body.Some? && body.value.token != "" && body.value.playlistId != "" && Gather(up).Ok? && up.llm.Replied? {
      var g := Gather(up).value;
      var candidates := Select(body.value, g);
      var reply := ReplyOf(up.llm.parsed);
      assert Handle(body, up) == Conclude(body.value, g, candidates, reply, up);
      ConcludeShape(body.value, g, candidates, reply, up);
    } else {
      assert WritesOf(Handle(body, up)) == [];
    }
  }

  /**
   * A successful answer is consistent: the curated profiles line up with the
   * validated ids, every curated profile is one of at most 400 candidates
   * drawn from the playlist's own profiles, and the counts are those of the
   * lists reported.
   */
  predicate ReportConsistent(r: Report)
  {
    && |r.curated| == |r.curatedIds| == r.curatedCount
    && (forall i :: 0 <= i < |r.curated| ==> r.curated[i].id == r.curatedIds[i])
    && r.candidates <= MaxCandidates && r.candidates <= r.original
  }

  lemma SuccessReportConsistent(body: Option<Request>, up: Upstream)
    requires Handle(body, up).Success?
    ensures ReportConsistent(Handle(body, up).report)
  {
    HandleSucceeds(body, up);
    var g := Gather(up).value;
    ConcludeReport(body.value, g, Select(body.value, g), ReplyOf(up.llm.parsed), up);
  }

  lemma ConcludeReport(req: Request, g: Gathered, candidates: seq<TrackProfile>, reply: LlmReply, up: Upstream)
    requires Conclude(req, g, candidates, reply, up).Success?
    requires |candidates| <= MaxCandidates && |candidates| <= |g.all|
    ensures ReportConsistent(Conclude(req, g, candidates, reply, up).report)
  {
    CuratedMatchesCuratedIds(reply.curatedTracks, candidates);
  }

  /**
   * A published curation: the playlist is created and then every batch of
   * the first (at most) 500 curated URIs is added to it, in order.
   */
  predicate EveryBatchWritten(o: Outcome)
    requires o.Success? && o.report.newPlaylist.Some?
  {
    var batches := Batches(Uris(o.report.curated));
    && |o.writes| == 1 + |batches|
    && o.writes[0].CreatePlaylist?
    && (forall i :: 0 <= i < |batches| ==> o.writes[i + 1] == AddTracks(o.report.newPlaylist.value, batches[i]))
    && Flatten(batches) == Uris(o.report.curated)
  }

  /** When the playlist is published, every batch has been written to it. */
  lemma PublishedWritesEveryBatch(body: Option<Request>, up: Upstream)
    requires Handle(body, up).Success? && Handle(body, up).report.newPlaylist.Some?
    ensures EveryBatchWritten(Handle(body, up))
  {
    HandleSucceeds(body, up);
    var g := Gather(up).value;
    ConcludeWritesEveryBatch(body.value, g, Select(body.value, g), ReplyOf(up.llm.parsed), up);
  }

  lemma ConcludeWritesEveryBatch(req: Request, g: Gathered, candidates: seq<TrackProfile>, reply: LlmReply, up: Upstream)
    requires Conclude(req, g, candidates, reply, up).Success?
    requires Conclude(req, g, candidates, reply, up).report.newPlaylist.Some?
    ensures EveryBatchWritten(Conclude(req, g, candidates, reply, up))
  {
    var curated := Curated(CuratedIds(reply.curatedTracks, candidates), candidates);
    BatchesCoverUris(curated);
  }

  /**
   * A failed batch fails the request after the playlist was created: the
   * answer is an error although the library has already been changed.
   */
  lemma FailedBatchLeavesCreatedPlaylist(body: Option<Request>, up: Upstream)
    requires body.Some? && body.value.token != "" && body.value.playlistId != "" && body.value.createNew != Some(false)
    requires Gather(up).Ok? && up.llm.Replied? && up.me.Ok? && up.create.Ok?
    requires forall b :: !up.add(b)
    requires Curated(CuratedIds(ReplyOf(up.llm.parsed).curatedTracks, Select(body.value, Gather(up).value)), Select(body.value, Gather(up).value)) != []
    ensures Handle(body, up).ServerError?
    ensures |Handle(body, up).writes| == 1 && Handle(body, up).writes[0].CreatePlaylist?
  {
    var g := Gather(up).value;
    var candidates := Select(body.value, g);
    var reply := ReplyOf(up.llm.parsed);
    assert Handle(body, up) == Conclude(body.value, g, candidates, reply, up);
    ConcludeFailedBatch(body.value, g, candidates, reply, up);
  }

  lemma ConcludeFailedBatch(req: Request, g: Gathered, candidates: seq<TrackProfile>, reply: LlmReply, up: Upstream)
    requires req.createNew != Some(false) && up.me.Ok? && up.create.Ok?
    requires forall b :: !up.add(b)
    requires Curated(CuratedIds(reply.curatedTracks, candidates), candidates) != []
    ensures Conclude(req, g, candidates, reply, up).ServerError?
    ensures |Conclude(req, g, candidates, reply, up).writes| == 1
    ensures Conclude(req, g, candidates, reply, up).writes[0].CreatePlaylist?
  {
    var curated := Curated(CuratedIds(reply.curatedTracks, candidates), candidates);
    assert |Batches(Uris(curated))| > 0 by {
      BatchesCoverUris(curated);
    }
    PublishFailedFirstBatch(g.meta.name, reply, Batches(Uris(curated)), up);
  }

  lemma PublishFailedFirstBatch(name: string, reply: LlmReply, batches: seq<seq<string>>, up: Upstream)
    requires |batches| > 0 && up.me.Ok? && up.create.Ok?
    requires !up.add(batches[0])
    ensures !Publish(name, reply, batches, up).complete
    ensures |Publish(name, reply, batches, up).writes| == 1
  {
    assert AddUntilFailure(batches, up.add) == [];
  }

  /**
   * An artist the provider does not know comes back as `null`, and reading
   * its id throws: the whole request fails.
   */
  lemma UnknownArtistFailsRequest(req: Request, up: Upstream, i: nat)
    requires req.token != "" && req.playlistId != ""
    requires up.meta.Ok?
    requires FetchTracks(up.meta.value.total.GetOr(0), up.page).Ok?
    requires FetchFeatures(TrackIds(TracksOf(FetchTracks(up.meta.value.total.GetOr(0), up.page).value)), up.features).Ok?
    requires var ids := ArtistIdsToFetch(TracksOf(FetchTracks(up.meta.value.total.GetOr(0), up.page).value));
      FetchArtists(ids, up.artists).Ok? && i < |FetchArtists(ids, up.artists).value| && FetchArtists(ids, up.artists).value[i].None?
    ensures Gather(up).Failed?
    ensures Handle(Some(req), up) == ServerError([])
  {
    var artists := FetchArtists(ArtistIdsToFetch(TracksOf(FetchTracks(up.meta.value.total.GetOr(0), up.page).value)), up.artists).value;
    assert IndexGenres(artists).Failed?;
  }

  /**
   * With a faithful provider (correct total, pages cut at the right
   * offsets, features and artists answered from fixed catalogs that know
   * every artist asked for), gathering yields exactly one profile per
   * playlist track, in playlist order.
   */
  lemma GatherOnePerTrack(up: Upstream, playlist: seq<Option<TrackStub>>,
                          fCatalog: map<string, AudioFeatures>, aCatalog: map<string, ArtistRecord>)
    requires up.meta.Ok? && up.meta.value.total == Some(|playlist|)
    requires forall o :: up.page(o) == Ok(PageOf(playlist, o))
    requires forall c :: up.features(c) == Ok(LookupAll(fCatalog, c))
    requires forall c :: up.artists(c) == Ok(LookupAll(aCatalog, c))
    requires forall id :: id in ArtistIdsToFetch(TracksOf(playlist)) ==> id in aCatalog
    ensures Gather(up).Ok?
    ensures |Gather(up).value.all| == |TracksOf(playlist)|
    ensures forall i :: 0 <= i < |TracksOf(playlist)| ==> Gather(up).value.all[i].id == TracksOf(playlist)[i].id
  {
    TracksRoundTrip(playlist, up.page);
    var tracks := TracksOf(playlist);
    FeaturesChunkingInvisible(TrackIds(tracks), fCatalog, up.features);
    var artistIds := ArtistIdsToFetch(tracks);
    ArtistsChunkingInvisible(artistIds, aCatalog, up.artists);
    var artists := LookupAll(aCatalog, artistIds);
    assert forall i :: 0 <= i < |artists| ==> artists[i].Some? by {
      forall i | 0 <= i < |artists| ensures artists[i].Some? {
        assert artistIds[i] in artistIds;
      }
    }
    GatherOk(up, playlist, Somes(LookupAll(fCatalog, TrackIds(tracks))), artists);
  }

  /** When every fetch succeeds and every artist is known, gathering builds one profile per track. */
  lemma GatherOk(up: Upstream, items: seq<Option<TrackStub>>, feats: seq<AudioFeatures>, artists: seq<Option<ArtistRecord>>)
    requires up.meta.Ok?
    requires FetchTracks(up.meta.value.total.GetOr(0), up.page) == Ok(items)
    requires FetchFeatures(TrackIds(TracksOf(items)), up.features) == Ok(feats)
    requires FetchArtists(ArtistIdsToFetch(TracksOf(items)), up.artists) == Ok(artists)
    requires forall i :: 0 <= i < |artists| ==> artists[i].Some?
    ensures Gather(up).Ok?
    ensures Gather(up).value.all == BuildProfiles(TracksOf(items), IndexFeatures(feats), IndexGenres(artists).value)
  {
  }
}
