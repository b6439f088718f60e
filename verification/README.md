# Kurator backend core, modelled in Dafny

Kurator is a playlist curation service. Its worker receives a Spotify
playlist id, an access token and a few criteria (genres, moods, a tempo
range, a minimum length), and then:

1. gathers every track of the playlist with its audio features and its
   artists' genres;
2. narrows the tracks with a preliminary filter and ranker;
3. shows a bounded prefix of the survivors to a language model, which picks
   and orders tracks;
4. validates the model's picks and optionally writes them to a new playlist.

The criteria come from a form in the front-end, which serialises the user's
selections into strings that the backend parses back.

This project models that deterministic core as pure Dafny functions over
immutable datatypes. Every upstream call (Spotify pages, feature and artist
lookups, the chat completion, playlist creation, track adding) is an input
of the model. The writes the handler makes are part of its result.

Modules, in dependency order:

| file | module | what it models |
|---|---|---|
| wrappers.dfy | `Wrappers` | `Option` for nullable values, `Result` for calls that may throw |
| seqs.dfy | `Seqs` | `filter`, `filter(Boolean)`, spreading pages, `slice(0, n)`, `[...new Set(a)]`, `new Map(entries)` |
| jstext.dfy | `JsText` | `trim`, `toLowerCase`, `split`, `join`, `includes`, `String(n)`, `parseInt(x, 10)` |
| tracks.dfy | `Tracks` | track stubs, audio features, artist records, track profiles |
| moods.dfy | `Moods` | the twelve-entry mood table |
| criteria.dfy | `CriteriaParser` | how `preliminaryFilter` reads the criteria strings |
| prefilter.dfy | `PreFilter` | `preliminaryFilter`: three predicates, the optional sort-and-cover step, and the fallback |
| paging.dfy | `Paging` | the offset loops for tracks (100), features (100) and artists (50) |
| profiles.dfy | `Profiles` | the profile join of the `/analyze` handler |
| curation.dfy | `Curation` | the candidate clamp, the model's answer, the curated-id filter and lookup |
| materialize.dfy | `Materialize` | the title and description caps, and the 500-URI cap in batches of 100 |
| cors.dfy | `Cors` | the CORS headers, the preflight, the origin guard and routing |
| analyze.dfy | `Analyze` | the `/analyze` handler end to end |
| criteriaform.dfy | `CriteriaForm` | the front-end's option tables, multi-select toggle and `handleConfirm` |

JavaScript semantics that matter are written out, not assumed:

- `null` features are `None`. They compare as 0 in `<` and `>`, and
  `mode === 0` is false for `null`.
- `parseInt` skips ECMAScript white space, reads an optional sign and then
  the leading digits. `NaN` is `None`.
- `split` on one character always yields at least one piece.
- `new Map` keeps the last entry for a repeated key.
- `[...new Set(a)]` keeps first occurrences.
- `Array.prototype.sort` is stable, as ES2019 requires. It is modelled as a
  stable insertion sort.

## Model

| member | source | states |
|---|---|---|
| Seqs.Filter | kurator/backend/src/index.js:129 | `filter` keeps exactly the elements satisfying the predicate and never grows the list |
| Seqs.FilterCount | kurator/backend/src/index.js:129 | filtering keeps every occurrence of a kept element and none of a dropped one |
| Seqs.FilterIsSubseq | kurator/backend/src/index.js:129 | filtering keeps the original relative order |
| Seqs.Somes | kurator/backend/src/index.js:208 | `filter(Boolean)` keeps exactly the non-null values |
| Seqs.Prefix | kurator/backend/src/index.js:137 | for n ≥ 0, `slice(0, n)` is the prefix of length min(n, length) |
| Seqs.Uniq | kurator/backend/src/index.js:47 | `[...new Set(a)]` has no repeats and the same members as `a` |
| Seqs.DedupIsSubseq | kurator/backend/src/index.js:47 | de-duplication keeps the relative order of what it keeps (`Seqs.UniqSnoc` fixes which copy: the first) |
| Seqs.DedupSnoc | kurator/backend/src/index.js:47 | appending an element already present (or already seen) leaves the de-duplicated list unchanged; a new one is appended at the end |
| Seqs.UniqSnoc | kurator/backend/src/index.js:47 | `[...new Set(a.concat([x]))]` is `[...new Set(a)]`, with x appended iff it was not in a |
| Seqs.LastWins | kurator/backend/src/index.js:211 | `new Map(entries)` has exactly the entries' keys, each mapped to its last value |
| JsText.Trim | kurator/backend/src/index.js:103-104 | `trim` returns the contiguous slice of the input that is preceded and followed only by white space, and that slice has no white space at either end |
| JsText.ToLower | kurator/backend/src/index.js:103-104 | `toLowerCase` keeps the length, leaves no capital letter, and keeps every character that is not a capital |
| JsText.ToLowerIdempotent | kurator/backend/src/index.js:103-104 | lower-casing twice is lower-casing once |
| JsText.ToLowerCharKeepsClass | kurator/backend/src/index.js:103-104 | lower-casing never creates or removes white space, commas or dashes |
| JsText.Split | kurator/backend/src/index.js:103-105 | `split` gives at least one piece, none containing the separator |
| JsText.JoinSplit | kurator/backend/src/index.js:103-105 | joining the pieces of a split with the separator gives back the string |
| JsText.SplitJoin | kurator/src/CriteriaSelection.jsx:29-30 | splitting a join of separator-free pieces gives back the pieces |
| JsText.JoinWithSpace | kurator/src/CriteriaSelection.jsx:29-30 | joining with ", " is joining with "," after a space before each later piece |
| JsText.IncludesIffOccurs | kurator/backend/src/index.js:109 | `includes` holds iff the needle occurs at some index of the haystack |
| JsText.ParseIntDecimal | kurator/backend/src/index.js:105-106 | `ParseInt`, the model of `parseInt(x, 10)`, reads back a rendered natural number after any white space and before any non-digit |
| JsText.ParseIntOfDecimal | kurator/src/CriteriaSelection.jsx:32-33 | `parseInt(String(n)) == n` |
| Moods.Lookup | kurator/backend/src/index.js:112-125 | the table has exactly twelve keys, and each entry is found under its own key |
| Moods.LookupKeyword | kurator/backend/src/index.js:112-125 | every table entry is reachable under its keyword |
| Moods.MoodMatchesAsWritten | kurator/backend/src/index.js:112-126 | as the code evaluates `m[k]`, a keyword matches only if it is a table key or an inherited property name, and every inherited name matches |
| Moods.ConstructorMatchesEveryTrack | kurator/backend/src/index.js:126 | as written, "constructor" is not a table key and yet matches every track |
| Moods.MoodMatches | kurator/backend/src/index.js:112-126 | intended reading: only one of the twelve table keys can match |
| Moods.UnknownMoodNeverMatches | kurator/backend/src/index.js:126 | a keyword outside the table never matches |
| Moods.ReadingsAgreeOutsideInherited | kurator/backend/src/index.js:126 | the two readings differ only on "constructor" and "__proto__" |
| Moods.GladIsValenceAbove | kurator/backend/src/index.js:113 | "glad" holds iff valence is known and strictly above 0.6 |
| Moods.RelaxedPassesUnknownEnergy | kurator/backend/src/index.js:116 | "avslappnad" passes a track with null energy, because null < 0.4 |
| Moods.DramaticWithUnknownMode | kurator/backend/src/index.js:122 | with null mode, "dramatisk" depends on instrumentalness alone |
| Moods.FeaturelessTrackMoods | kurator/backend/src/index.js:113-124 | a track with all seven features null (read as 0) is "fokus", "avslappnad", "ledsen" and "melankolisk", and matches no other mood |
| CriteriaParser.ParseList | kurator/backend/src/index.js:103-104 | every parsed word is non-empty, has no comma and has no white space at either end |
| CriteriaParser.ParseListIsCleanPieces | kurator/backend/src/index.js:103-104 | for any string, the parsed words are, in order and with every repeat, the trimmed non-empty comma-separated pieces of the lower-cased string |
| CriteriaParser.TempoWithoutDash | kurator/backend/src/index.js:105-108 | a bpmRange without a dash yields one number at most, so no tempo constraint |
| CriteriaParser.MinMs | kurator/backend/src/index.js:106 | the minimum is the parsed length times 60000 ms, and 0 when the length does not parse |
| CriteriaParser.EmptyFieldsUnconstrained | kurator/backend/src/index.js:103-106 | `Parse` reads empty genre, mood, bpmRange and length constrain nothing |
| PreFilter.Matching | kurator/backend/src/index.js:129 | a track survives the three predicates iff it is in the list and passes all three |
| PreFilter.TempoRangeIsInclusive | kurator/backend/src/index.js:105-108 | with two numbers [lo, hi], a track passes iff its bpm is known and lo ≤ bpm ≤ hi |
| PreFilter.OtherTempoIsNoConstraint | kurator/backend/src/index.js:105-108 | any other bpmRange imposes no tempo constraint |
| PreFilter.GladFilter | kurator/backend/src/index.js:110-126 | requesting "glad" passes a track iff its valence is strictly above 0.6 |
| PreFilter.GladRejectsHighEnergyLowValence | kurator/backend/src/index.js:113 | valence 0.59 with energy 0.9 is not "glad" |
| PreFilter.AnyMoodSuffices | kurator/backend/src/index.js:126 | a track passes the mood predicate if any requested mood matches |
| PreFilter.GenreHitIffOccurs | kurator/backend/src/index.js:109 | with genres requested, a track passes iff some requested word occurs in some lower-cased tag of the track |
| PreFilter.GenreHitIgnoresCase | kurator/backend/src/index.js:103-109 | case does not matter: a genre text and its lower-cased form give the same words, and lower-casing a track's tags does not change whether it passes |
| PreFilter.MoodHitReadingsAgree | kurator/backend/src/index.js:110-126 | for requested moods other than the inherited property names, the mood test as written and the corrected one agree |
| PreFilter.InheritedNameDisablesMoodTest | kurator/backend/src/index.js:126 | as written, requesting "constructor" makes every track pass the mood test |
| PreFilter.InsertSorted | kurator/backend/src/index.js:132 | inserting into a descending list keeps it descending by danceability + energy |
| PreFilter.InsertStable | kurator/backend/src/index.js:132 | insertion keeps the relative order of tracks with equal score |
| PreFilter.SortDescIsStableSort | kurator/backend/src/index.js:132 | `SortDesc`, the model of `filtered.sort(...)`, is a permutation, descending by score, and stable on ties |
| PreFilter.CoverIsShortest | kurator/backend/src/index.js:133 | `Cover`, the greedy take, is the shortest prefix reaching the minimum, or everything; all taken tracks but the last sum to less than the minimum |
| PreFilter.GreedyTake | kurator/backend/src/index.js:133 | the loop with `sum` and `break` computes exactly that shortest covering prefix |
| PreFilter.Trimmed | kurator/backend/src/index.js:129-135 | the list before the fallback holds only input tracks that pass every predicate |
| PreFilter.Prefilter | kurator/backend/src/index.js:102-139 | the result has input tracks only, no more than the input; it has at least 10 tracks when the input does, and a result of fewer than 10 is the whole input |
| PreFilter.PreliminaryFilter | kurator/backend/src/index.js:102-139 | `preliminaryFilter` returns input tracks only, no more than the input, at least 10 when the input has 10, and the whole input when it returns fewer than 10 |
| PreFilter.UnconstrainedIsIdentity | kurator/backend/src/index.js:102-139 | criteria that constrain nothing return the input unchanged, in order, for any length |
| PreFilter.EmptyCriteriaIsIdentity | kurator/backend/src/index.js:102-139 | all-empty criteria return the input unchanged |
| PreFilter.FallbackTakesUnfilteredPrefix | kurator/backend/src/index.js:137 | fewer than 10 survivors give the first min(100, n) unfiltered tracks |
| PreFilter.ThreeOfHundredFifty | kurator/backend/src/index.js:137 | 3 matches out of 150 give the first 100 unfiltered tracks |
| PreFilter.WithoutLengthKeepsOrder | kurator/backend/src/index.js:129-137 | without a length, the result is the matches in playlist order with every repeat |
| PreFilter.WithLengthTakesShortestCover | kurator/backend/src/index.js:131-135 | with a length, the result is the shortest covering prefix of the sorted matches |
| Paging.OffsetsFrom | kurator/backend/src/index.js:67 | the loop visits from, from+step, … exactly while below the total |
| Paging.Chunks | kurator/backend/src/index.js:80-81 | each chunk holds between 1 and n ids, one chunk per loop offset |
| Paging.ChunksFlatten | kurator/backend/src/index.js:80-81 | concatenating the chunks gives back the ids in order |
| Paging.FetchAll | kurator/backend/src/index.js:65-100 | each offset loop succeeds iff every request succeeds |
| Paging.FetchAllPages | kurator/backend/src/index.js:65-76 | when request j answers page j, the fetch returns the pages concatenated in request order |
| Paging.TracksRoundTrip | kurator/backend/src/index.js:65-76 | faithful paging at 100 returns the whole playlist, in order, each item once |
| Paging.TwoHundredFiftyTracks | kurator/backend/src/index.js:67 | 250 tracks are fetched at offsets 0, 100, 200 and come back whole |
| Paging.FeaturesChunkingInvisible | kurator/backend/src/index.js:77-88 | chunks of 100 with nulls dropped give the known ids' features in id order |
| Paging.ArtistsChunkingInvisible | kurator/backend/src/index.js:90-100 | chunks of 50 give one entry per artist id in id order |
| Profiles.TracksOf | kurator/backend/src/index.js:208 | the tracks are exactly the non-null items |
| Profiles.TrackIds | kurator/backend/src/index.js:209 | the ids asked for are exactly the non-empty track ids |
| Profiles.ArtistIdsToFetch | kurator/backend/src/index.js:212-213 | the first min(300, n) of the n distinct non-empty artist ids in order of first appearance; all are artists of some track, and with fewer than 300 every one is there |
| Profiles.IndexGenres | kurator/backend/src/index.js:214 | the genre map is built iff no artist entry is null; its keys are exactly the entries' ids, each mapped to the genres of the last entry with that id |
| Profiles.TrackGenres | kurator/backend/src/index.js:218 | the first min(6, n) of the track's n distinct genres in artist order; all come from the track's artists, and all of them are kept when there are no more than 6 |
| Profiles.BuildProfile | kurator/backend/src/index.js:216-227 | the profile copies the track's identity, joins the artist names with ", ", takes the year from the release date, takes features by track id, takes its genres from `TrackGenres`, and has all seven features null without a record |
| Profiles.Year | kurator/backend/src/index.js:223 | the year is the first min(4, length) characters of the release date |
| Profiles.BuildProfiles | kurator/backend/src/index.js:216-228 | exactly one profile per track, in track order |
| Profiles.NoGenresWithoutArtistEntries | kurator/backend/src/index.js:218 | a track whose artists have no genre entry gets an empty genre list |
| Profiles.IndexOfCatalogFeatures | kurator/backend/src/index.js:211 | indexing fetched features gives each requested known id its own record and nothing else |
| Curation.CandidateLimit | kurator/backend/src/index.js:232 | the limit is llmLimit clamped to [50, 400] |
| Curation.Candidates | kurator/backend/src/index.js:232 | the candidates are the first min(n, limit) filter results |
| Curation.CuratedIds | kurator/backend/src/index.js:238 | the kept ids are exactly the model's ids that are candidate ids |
| Curation.CuratedIdsCount | kurator/backend/src/index.js:238 | a candidate id keeps all its repeats, and any other id is dropped entirely |
| Curation.CuratedIdsKeepOrder | kurator/backend/src/index.js:238 | kept ids keep the model's order |
| Curation.HonestReplyKeptWhole | kurator/backend/src/index.js:238 | a reply of candidate ids only is kept whole |
| Curation.Find | kurator/backend/src/index.js:239 | `find` returns the first candidate with the id, or nothing iff no candidate has it |
| Curation.Curated | kurator/backend/src/index.js:239 | curated profiles are candidates, no more than the ids |
| Curation.CuratedFollowsIds | kurator/backend/src/index.js:239 | for candidate ids, `curated[i]` is the first candidate with id `ids[i]` |
| Curation.CuratedMatchesCuratedIds | kurator/backend/src/index.js:237-239 | `curated[i].id == curatedIds[i]` for every i |
| Curation.UnparseableReplyCuratesNothing | kurator/backend/src/index.js:170-171 | an answer that does not parse has no title, no description and no tracks, so nothing is curated from any candidates |
| Materialize.PlaylistTitle | kurator/backend/src/index.js:245 | the model's non-empty title, else "Kurator • " and the playlist name, cut to exactly min(90, its length) characters |
| Materialize.PlaylistDescription | kurator/backend/src/index.js:246 | the model's non-empty description, else the generated one, cut to exactly min(300, its length) characters |
| Materialize.ReportedTitleNamesPlaylist | kurator/backend/src/index.js:245-262 | when the model's title is reported, the created playlist's name is a prefix of it, and is all of it when it has at most 90 characters; when none is reported, the name is a prefix of "Kurator • " and the playlist name |
| Materialize.ReportedDescriptionDescribesPlaylist | kurator/backend/src/index.js:246-262 | the same for `llm_description` and the 300-character cap |
| Materialize.Uris | kurator/backend/src/index.js:250 | the first min(n, 500) curated URIs, in curated order |
| Materialize.Batches | kurator/backend/src/index.js:251-252 | each request carries between 1 and 100 URIs |
| Materialize.BatchesCoverUris | kurator/backend/src/index.js:250-253 | the batches concatenate to the URI list, and there are just enough of them |
| Cors.OriginEchoedIffAllowed | kurator/backend/src/index.js:178-184 | the answer echoes the request's Origin header iff the header is present and on the allow-list |
| Cors.AllowOrigin | kurator/backend/src/index.js:19-23 | the allowed origin is always on the allow-list, and it is the request's own origin iff that origin is allowed |
| Cors.HeadersFor | kurator/backend/src/index.js:19-30 | the four CORS headers, with an allow-listed origin |
| Cors.Dispatch | kurator/backend/src/index.js:181-279 | preflight iff OPTIONS; 403 iff not OPTIONS and a foreign origin; then routing by method and path |
| Cors.StatusOfRequest | kurator/backend/src/index.js:181-279 | 403 iff not OPTIONS and a foreign origin; the status depends on the handler iff the request is POST /analyze and not refused; 404 iff no route matches; 200 otherwise |
| Cors.ForbiddenNeverEchoesOrigin | kurator/backend/src/index.js:184 | a refused request gets status 403 and the primary origin, never its own |
| Cors.NoOriginNeverForbidden | kurator/backend/src/index.js:178-184 | a request without an origin is never refused |
| Cors.PreflightFromAnyOrigin | kurator/backend/src/index.js:181 | a preflight is answered for any origin, which is echoed only when allowed |
| Analyze.AddUntilFailure | kurator/backend/src/index.js:251-253 | batches go in order; the first failure stops the loop |
| Analyze.Publish | kurator/backend/src/index.js:243-254 | nothing is written when fetching the user or creating the playlist fails; otherwise the writes are the creation and one add per batch up to the first failure, and publishing is complete iff every batch was sent |
| Analyze.Select | kurator/backend/src/index.js:231-232 | at most 400 candidates, all from the playlist's profiles |
| Analyze.HandleSucceeds | kurator/backend/src/index.js:194-271 | `Handle`: a success needs a JSON body, a successful gathering and a model reply, and is then decided by the conclusion step |
| Analyze.GatherOk | kurator/backend/src/index.js:199-228 | `Gather`: when every fetch succeeds and no artist entry is null, gathering gives one profile per track built from the fetched features and genres |
| Analyze.ConcludeReport | kurator/backend/src/index.js:232-266 | `Conclude`: the report lines up curated profiles with curated ids and counts them, with candidates bounded by 400 and by the playlist |
| Analyze.MissingCredentialsRejected | kurator/backend/src/index.js:197 | a missing token or playlist id gives 400 |
| Analyze.LlmFailureWritesNothing | kurator/backend/src/index.js:168-171 | a failing model call gives 500 with no write |
| Analyze.NoCreateNoWrites | kurator/backend/src/index.js:242-243 | `createNew: false` never writes and reports no new playlist |
| Analyze.DefaultCreatePublishes | kurator/backend/src/index.js:242-263 | with `createNew` true or absent and every write succeeding, the request succeeds and reports the created playlist |
| Analyze.UnparseableReplySucceedsEmpty | kurator/backend/src/index.js:170-266 | an unparseable answer still gives 200 when publishing is off or its calls succeed, with no curation, a null title and an empty summary |
| Analyze.WritesAreCreateThenBatches | kurator/backend/src/index.js:243-253 | any writes are a capped creation followed by batches of at most 100 to that playlist |
| Analyze.SuccessReportConsistent | kurator/backend/src/index.js:232-266 | the reported curation lines up with its ids and counts, with at most 400 candidates |
| Analyze.PublishedWritesEveryBatch | kurator/backend/src/index.js:243-253 | a published curation adds every batch, and the batches concatenate to the first 500 curated URIs |
| Analyze.FailedBatchLeavesCreatedPlaylist | kurator/backend/src/index.js:247-270 | a failed batch gives 500 after the playlist was already created |
| Analyze.UnknownArtistFailsRequest | kurator/backend/src/index.js:213-214 | a null artist entry fails the whole request |
| Analyze.GatherOnePerTrack | kurator/backend/src/index.js:200-228 | with a faithful provider, one profile per playlist track, in order |
| CriteriaForm.Toggle | kurator/src/CriteriaSelection.jsx:22 | deselecting removes the option; selecting appends it |
| CriteriaForm.ToggleRemoves | kurator/src/CriteriaSelection.jsx:22 | deselecting removes every copy and keeps all other items in order |
| CriteriaForm.ToggleTwice | kurator/src/CriteriaSelection.jsx:22 | selecting then deselecting an absent option is the identity |
| CriteriaForm.ToggleKeepsSelectionValid | kurator/src/CriteriaSelection.jsx:21-23 | toggling options keeps a selection distinct and within the options |
| CriteriaForm.ListRoundTrip | kurator/src/CriteriaSelection.jsx:29-30 | the backend parses a ", "-joined list of clean words back to the words, lower-cased |
| CriteriaForm.TempoRoundTrip | kurator/src/CriteriaSelection.jsx:32 | "min-max" parses back to exactly [min, max] |
| CriteriaForm.DurationRoundTrip | kurator/src/CriteriaSelection.jsx:33 | the duration reads back as minutes × 60000 ms |
| CriteriaForm.MoodOptionsAreKeys | kurator/src/CriteriaSelection.jsx:5 | the twelve mood options, lower-cased, are exactly the backend's mood keys |
| CriteriaForm.ConfirmRoundTrip | kurator/src/CriteriaSelection.jsx:27-36 | `Parse` reads what `Confirm` (`handleConfirm`) sends as its selections, tempo and duration, each only when its section is active |
| CriteriaForm.ConfirmedMoodsAreKeys | kurator/src/CriteriaSelection.jsx:5-30 | every mood the form sends is a key of the backend's mood table |
| CriteriaForm.InactiveFormUnconstrained | kurator/src/CriteriaSelection.jsx:28-34 | a form with every section inactive sends criteria that constrain nothing |

## Left out

- Network I/O is not modelled. This covers `spotifyGET`, `spotifyPOST`, the
  chat-completion `fetch`, and `Response` construction. Every upstream
  answer is an input of `Analyze.Handle` (`Analyze.Upstream`).
- The prompt strings (kurator/backend/src/index.js:142-156) are not modelled.
- JSON parsing is not modelled. The request body is `Option<Request>` (`None`
  when it is not JSON), and the model's text is `Option<LlmReply>`. Fields of
  the wrong JSON type are not modelled.
- `Analyze.Handle`: `llmLimit` is an integer. A non-numeric `llmLimit` would
  make `slice(0, NaN)` empty, and that case is not modelled. `createNew` is
  a boolean rather than any truthy value. A JSON `null` is not modelled
  either: `"createNew": null` is falsy and skips publishing, and
  `"llmLimit": null` gives 50 candidates, because `Math.min(null, 400)` is 0.
- `PreFilter.MoodHit`: uses the corrected mood table, `Moods.MoodMatches`,
  which is stronger than the code for the two inherited property names
  "constructor" and "__proto__". `PreFilter.MoodHitAsWritten` is the code's
  reading, and `PreFilter.MoodHitReadingsAgree` shows the two agree on every
  other request.
- `Tracks.TrackStub`: a missing track id (a local file, JSON `null`) is the
  empty string, and so is a `null` in the model's `curated_tracks`. A local
  file's candidate therefore matches a reply id `null`, as in the code, but
  it also matches a literal empty-string reply id, which the code's Set of
  ids (holding `null`) would drop. Ids as `Option<string>` along the whole
  track, profile and candidate path would separate the two.
- `Seqs.Prefix`: a negative bound gives the empty list, whereas JavaScript's
  `slice(0, n)` counts a negative end from the back. Every call passes a
  non-negative bound (4, 6, 90, 100, 300, 500, or at least 50).
- The `newPlaylist` field of the answer is the new playlist's id, not the
  whole object the service returns.
- Request ordering and concurrency are not modelled. The source awaits every
  call in turn, so a sequence of calls is faithful.
- `JsText.ToLower` maps only Basic Latin and Latin-1 capitals, which covers Å,
  Ä and Ö. Other Unicode case mappings leave the character unchanged.
- `Profiles.Year`, `Materialize.PlaylistTitle` and `Materialize.PlaylistDescription` count code points, while
  JavaScript's `slice` counts UTF-16 code units. They differ only for
  characters outside the Basic Multilingual Plane.
- Audio features are exact reals, not IEEE doubles. The filter only compares
  them with constants and adds two of them.
- The health endpoint's timestamp (`new Date()`) is not modelled, and neither
  is the `/batch` stub's body. Both are routed by `Cors.Dispatch`.
- The React rendering of the criteria form, the slider bounds (60..200 for
  tempo, 10..240 for duration) and every other front-end file are out of
  scope. The round-trip lemmas hold for any natural slider value.
- Some behaviours of the code are easy to miss, and the model keeps them:
  - A null feature is not skipped. A tempo range excludes a null bpm. The
    mood table reads null as 0, so "avslappnad" passes a null energy and
    "glad" rejects a null valence (`Moods.FeaturelessTrackMoods`).
  - The candidates are a prefix of the filter output, so there are fewer
    than 50 when fewer tracks survive (`Curation.Candidates`).
  - Repeated curated ids are kept: every repeat of a candidate id stays
    (`Curation.CuratedIdsCount`).
  - Artists beyond the 300 cap get no genres
    (`Profiles.NoGenresWithoutArtistEntries`). But an artist the provider
    answers with `null` makes the genre-map construction throw, and the
    whole request fails (`Analyze.UnknownArtistFailsRequest`).

## Findings

| source | as written | input that shows it | evidently intended | confidence | as-written member | corrected member |
|---|---|---|---|---|---|---|
| kurator/backend/src/index.js:112-126 | the mood table is a plain object literal indexed with the requested keyword, so inherited properties of `Object.prototype` are found too | mood criterion `"constructor"` (or `"__proto__"`): `m["constructor"]` is the `Object` function, which is truthy, so every track passes the mood predicate | only the twelve table keywords match; any other keyword never matches | not executed | Moods.ConstructorMatchesEveryTrack | Moods.UnknownMoodNeverMatches |

The filter (`PreFilter.MoodHit`) uses the corrected `Moods.MoodMatches`.
`Moods.MoodMatchesAsWritten` is the code as written.
`Moods.ReadingsAgreeOutsideInherited` shows that the two readings differ
only on the two inherited property names.
