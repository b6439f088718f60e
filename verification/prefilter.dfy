/**
 * The preliminary filter/ranker: keeps the tracks that satisfy the tempo,
 * genre and mood constraints (in playlist order), optionally re-sorts them
 * by danceability plus energy and keeps the shortest prefix that covers the
 * requested minimum duration, and falls back to the first 100 tracks of the
 * unfiltered list when fewer than 10 remain.
 */
module PreFilter {
  import opened Wrappers
  import opened Seqs
  import opened JsText
  import opened Tracks
  import opened Moods
  import opened CriteriaParser

  /** Below this many tracks the filtered list is abandoned. */
  const FallbackThreshold: nat := 10
  /** How many unfiltered tracks the fallback keeps. */
  const FallbackSize: nat := 100

  // ---------------------------------------------------------------- predicates

  /** Inclusive tempo range; a track without a tempo fails any range. */
  predicate InTempo(tempo: Option<(int, int)>, x: TrackProfile)
  {
    match tempo
    case None => true
    case Some((lo, hi)) => x.bpm.Some? && lo as real <= x.bpm.value <= hi as real
  }

  /** Some requested genre is a substring of some lower-cased genre tag of the track. */
  predicate GenreHit(want: seq<string>, x: TrackProfile)
  {
    |want| == 0 ||
    exists i, j :: 0 <= i < |want| && 0 <= j < |x.genres| && Includes(ToLower(x.genres[j]), want[i])
  }

  /**
   * The genre predicate spelled out: with words requested, some word occurs
   * at some position of some lower-cased tag.
   */
  lemma GenreHitIffOccurs(want: seq<string>, x: TrackProfile)
    ensures GenreHit(want, x) <==>
      |want| == 0 || exists i, j, k :: 0 <= i < |want| && 0 <= j < |x.genres| && OccursAt(ToLower(x.genres[j]), want[i], k)
  {
    forall i, j | 0 <= i < |want| && 0 <= j < |x.genres| {
      IncludesIffOccurs(ToLower(x.genres[j]), want[i]);
    }
  }

  /**
   * Case does not matter on either side: the criteria text and its
   * lower-cased form give the same words, and a track and the same track
   * with lower-cased tags pass the genre predicate alike.
   */
  lemma GenreHitIgnoresCase(g: string, want: seq<string>, x: TrackProfile)
    ensures ParseList(ToLower(g)) == ParseList(g)
    ensures GenreHit(want, x) <==>
      GenreHit(want, x.(genres := seq(|x.genres|, j requires 0 <= j < |x.genres| => ToLower(x.genres[j]))))
  {
    ToLowerIdempotent(g);
    var y := x.(genres := seq(|x.genres|, j requires 0 <= j < |x.genres| => ToLower(x.genres[j])));
    forall j | 0 <= j < |x.genres| ensures ToLower(y.genres[j]) == ToLower(x.genres[j]) {
      ToLowerIdempotent(x.genres[j]);
    }
  }

  /** Some requested mood keyword matches the track. */
  predicate MoodHit(want: seq<string>, x: TrackProfile)
  {
    |want| == 0 || exists i :: 0 <= i < |want| && MoodMatches(want[i], x)
  }

  /** The mood predicate as the backend evaluates it, inherited property names included. */
  predicate MoodHitAsWritten(want: seq<string>, x: TrackProfile)
  {
    |want| == 0 || exists i :: 0 <= i < |want| && MoodMatchesAsWritten(want[i], x)
  }

  /**
   * For requested moods that are not inherited property names, the mood
   * predicate as written and the corrected one agree on every track.
   */
  lemma MoodHitReadingsAgree(want: seq<string>, x: TrackProfile)
    requires forall i :: 0 <= i < |want| ==> want[i] !in InheritedKeys
    ensures MoodHit(want, x) <==> MoodHitAsWritten(want, x)
  {
    forall i | 0 <= i < |want| ensures MoodMatches(want[i], x) <==> MoodMatchesAsWritten(want[i], x) {
      ReadingsAgreeOutsideInherited(want[i], x);
    }
  }

  /** As written, a request for "constructor" passes every track's mood test. */
  lemma InheritedNameDisablesMoodTest(want: seq<string>, x: TrackProfile)
    requires "constructor" in want
    ensures MoodHitAsWritten(want, x)
  {
    var i :| 0 <= i < |want| && want[i] == "constructor";
    ConstructorMatchesEveryTrack(x);
  }

  predicate Keep(p: Parsed, x: TrackProfile)
  {
    InTempo(p.tempo, x) && GenreHit(p.wantGenres, x) && MoodHit(p.wantMoods, x)
  }

  /** The tracks that pass all three predicates, in playlist order. */
  function Matching(list: seq<TrackProfile>, p: Parsed): (r: seq<TrackProfile>)
    ensures forall x :: x in r <==> x in list && Keep(p, x)
  {
    Filter(KeepFn(p), list)
  }

  function KeepFn(p: Parsed): TrackProfile -> bool
  {
    x => Keep(p, x)
  }

  // ---------------------------------------------------------------- ranking

  /** `(danceability || 0) + (energy || 0)`. */
  function Score(x: TrackProfile): real
  {
    AsNumber(x.danceability) + AsNumber(x.energy)
  }

  predicate SortedDesc(s: seq<TrackProfile>)
  {
    forall i, j :: 0 <= i < j < |s| ==> Score(s[i]) >= Score(s[j])
  }

  /** The tracks of `s` whose score is `k`, in order: the stability witness. */
  function WithScore(s: seq<TrackProfile>, k: real): seq<TrackProfile>
  {
    if |s| == 0 then []
    else (if Score(s[0]) == k then [s[0]] else []) + WithScore(s[1..], k)
  }

  /** Inserts `x` after every track of strictly higher score. */
  function InsertDesc(x: TrackProfile, s: seq<TrackProfile>): (r: seq<TrackProfile>)
    ensures multiset(r) == multiset(s) + multiset{x}
  {
    if |s| == 0 || Score(s[0]) <= Score(x) then [x] + s
    else
      assert s == [s[0]] + s[1..];
      [s[0]] + InsertDesc(x, s[1..])
  }

  lemma {:induction false} InsertSorted(x: TrackProfile, s: seq<TrackProfile>)
    requires SortedDesc(s)
    ensures SortedDesc(InsertDesc(x, s))
  {
    if |s| > 0 && Score(s[0]) > Score(x) {
      InsertSorted(x, s[1..]);
      var rest := InsertDesc(x, s[1..]);
      forall y | y in rest ensures Score(y) <= Score(s[0]) {
        assert y in multiset(rest);
        if y != x {
          assert y in s[1..];
        }
      }
    }
  }

  lemma {:induction false} InsertStable(x: TrackProfile, s: seq<TrackProfile>, k: real)
    ensures WithScore(InsertDesc(x, s), k) == if Score(x) == k then [x] + WithScore(s, k) else WithScore(s, k)
  {
    if |s| == 0 || Score(s[0]) <= Score(x) {
      assert ([x] + s)[1..] == s;
    } else {
      InsertStable(x, s[1..], k);
      var rest := InsertDesc(x, s[1..]);
      assert ([s[0]] + rest)[1..] == rest;
    }
  }

  /**
   * `filtered.sort((a, b) => score(b) - score(a))`, as an insertion sort.
   * JavaScript's sort is stable, so tracks of equal score keep their
   * playlist order.
   */
  function SortDesc(s: seq<TrackProfile>): (r: seq<TrackProfile>)
    ensures multiset(r) == multiset(s)
    ensures |r| == |s|
  {
    if |s| == 0 then []
    else
      var r := InsertDesc(s[0], SortDesc(s[1..]));
      assert s == [s[0]] + s[1..];
      assert |r| == |multiset(r)|;
      r
  }

  /**
   * The result of the sort is ordered by descending score, is a permutation
   * of its input, and keeps the input order among tracks of equal score.
   */
  lemma {:induction false} SortDescIsStableSort(s: seq<TrackProfile>)
    ensures multiset(SortDesc(s)) == multiset(s)
    ensures SortedDesc(SortDesc(s))
    ensures forall k :: WithScore(SortDesc(s), k) == WithScore(s, k)
  {
    if |s| > 0 {
      SortDescIsStableSort(s[1..]);
      InsertSorted(s[0], SortDesc(s[1..]));
      forall k ensures WithScore(SortDesc(s), k) == WithScore(s, k) {
        InsertStable(s[0], SortDesc(s[1..]), k);
      }
    }
  }

  // ---------------------------------------------------------------- length cover

  /** Sum of `duration_ms`. */
  function Total(s: seq<TrackProfile>): nat
  {
    if |s| == 0 then 0 else s[0].durationMs + Total(s[1..])
  }

  lemma {:induction false} TotalAppend(a: seq<TrackProfile>, b: seq<TrackProfile>)
    ensures Total(a + b) == Total(a) + Total(b)
  {
    if |a| > 0 {
      assert (a + b)[1..] == a[1..] + b;
      TotalAppend(a[1..], b);
    } else {
      assert a + b == b;
    }
  }

  /**
   * The greedy loop `for (t of list) { if (sum >= minMs) break; sum += t.duration_ms; take.push(t) }`
   * resumed with `sum` already accumulated: it stops at the first point where
   * the running total reaches the minimum.
   */
  function CoverFrom(s: seq<TrackProfile>, sum: int, minMs: int): seq<TrackProfile>
  {
    if |s| == 0 || sum >= minMs then []
    else [s[0]] + CoverFrom(s[1..], sum + s[0].durationMs, minMs)
  }

  /** The greedy cover is a prefix that stops exactly when the running total reaches the minimum. */
  lemma {:induction false} CoverFromSpec(s: seq<TrackProfile>, sum: int, minMs: int)
    ensures var r := CoverFrom(s, sum, minMs);
      && |r| <= |s| && r == s[..|r|]
      && (|r| < |s| ==> sum + Total(r) >= minMs)
      && (|r| > 0 ==> sum + Total(r[..|r| - 1]) < minMs)
  {
    if |s| > 0 && sum < minMs {
      var rest := CoverFrom(s[1..], sum + s[0].durationMs, minMs);
      CoverFromSpec(s[1..], sum + s[0].durationMs, minMs);
      assert ([s[0]] + rest)[1..] == rest;
      if |rest| > 0 {
        assert ([s[0]] + rest)[..|rest|] == [s[0]] + rest[..|rest| - 1];
      }
    }
  }

  function Cover(s: seq<TrackProfile>, minMs: int): seq<TrackProfile>
  {
    CoverFrom(s, 0, minMs)
  }

  /** Prefix totals never decrease as the prefix grows. */
  lemma TotalPrefixMono(s: seq<TrackProfile>, i: nat, j: nat)
    requires i <= j <= |s|
    ensures Total(s[..i]) <= Total(s[..j])
  {
    assert s[..j] == s[..i] + s[i..j];
    TotalAppend(s[..i], s[i..j]);
  }

  /**
   * The cover is the SHORTEST prefix whose total reaches the minimum, or the
   * whole list when the total never does.
   */
  lemma CoverIsShortest(s: seq<TrackProfile>, minMs: int)
    ensures |Cover(s, minMs)| <= |s| && Cover(s, minMs) == s[..|Cover(s, minMs)|]
    ensures |Cover(s, minMs)| < |s| ==> Total(Cover(s, minMs)) >= minMs
    ensures forall j :: 0 <= j < |Cover(s, minMs)| ==> Total(s[..j]) < minMs
  {
    var r := Cover(s, minMs);
    CoverFromSpec(s, 0, minMs);
    forall j | 0 <= j < |r| ensures Total(s[..j]) < minMs {
      TotalPrefixMono(s, j, |r| - 1);
      assert r[..|r| - 1] == s[..|r| - 1];
    }
  }

  /** The loop of the source, statement by statement. */
  method GreedyTake(s: seq<TrackProfile>, minMs: int) returns (take: seq<TrackProfile>)
    ensures take == Cover(s, minMs)
  {
    var sum := 0;
    take := [];
    var i := 0;
    assert s[i..] == s;
    while i < |s|
      invariant 0 <= i <= |s|
      invariant take == s[..i]
      invariant sum == Total(take)
      invariant Cover(s, minMs) == take + CoverFrom(s[i..], sum, minMs)
    {
      if sum >= minMs {
        break;
      }
      CoverStep(s, i, sum, minMs);
      var rest := CoverFrom(s[i + 1..], sum + s[i].durationMs, minMs);
      assert take + ([s[i]] + rest) == (take + [s[i]]) + rest;
      assert s[..i + 1] == take + [s[i]];
      TotalAppend(take, [s[i]]);
      sum := sum + s[i].durationMs;
      take := take + [s[i]];
      i := i + 1;
    }
    assert CoverFrom(s[i..], sum, minMs) == [];
  }

  lemma CoverStep(s: seq<TrackProfile>, i: nat, sum: int, minMs: int)
    requires i < |s| && sum < minMs
    ensures CoverFrom(s[i..], sum, minMs) == [s[i]] + CoverFrom(s[i + 1..], sum + s[i].durationMs, minMs)
  {
    assert s[i..][1..] == s[i + 1..];
  }

  // ---------------------------------------------------------------- the filter

  /** The filtered list before the fallback is considered. */
  function Trimmed(list: seq<TrackProfile>, p: Parsed): (r: seq<TrackProfile>)
    ensures |r| <= |list|
    ensures forall x :: x in r ==> x in list && Keep(p, x)
  {
    var m := Matching(list, p);
    assert |m| <= |list|;
    if p.minMs > 0 then
      var sorted := SortDesc(m);
      var c := Cover(sorted, p.minMs);
      CoverFromSpec(sorted, 0, p.minMs);
      assert forall x :: x in c ==> x in multiset(sorted);
      c
    else m
  }

  /** The filter on already-parsed criteria, fallback included. */
  function Prefilter(list: seq<TrackProfile>, p: Parsed): (r: seq<TrackProfile>)
    ensures |r| <= |list|
    ensures forall x :: x in r ==> x in list
    ensures |list| >= FallbackThreshold ==> |r| >= FallbackThreshold
    ensures |r| < FallbackThreshold ==> r == list
  {
    var t := Trimmed(list, p);
    if |t| < FallbackThreshold then Prefix(list, FallbackSize) else t
  }

  /** `preliminaryFilter(list, criteria)`. */
  function PreliminaryFilter(list: seq<TrackProfile>, c: Criteria): (r: seq<TrackProfile>)
    ensures |r| <= |list|
    ensures forall x :: x in r ==> x in list
    ensures |list| >= FallbackThreshold ==> |r| >= FallbackThreshold
    ensures |r| < FallbackThreshold ==> r == list
  {
    Prefilter(list, Parse(c))
  }

  // ---------------------------------------------------------------- properties

  /** Criteria that constrain nothing return the input unchanged and in order. */
  lemma UnconstrainedIsIdentity(list: seq<TrackProfile>, c: Criteria)
    requires Unconstrained(Parse(c))
    ensures PreliminaryFilter(list, c) == list
  {
    UnconstrainedPrefilter(list, Parse(c));
  }

  lemma UnconstrainedPrefilter(list: seq<TrackProfile>, p: Parsed)
    requires Unconstrained(p)
    ensures Prefilter(list, p) == list
  {
    forall i | 0 <= i < |list| ensures Keep(p, list[i]) { }
    FilterKeepsAll(KeepFn(p), list);
  }

  /** In particular, all-empty criteria (genre, mood, bpmRange and length) are the identity. */
  lemma EmptyCriteriaIsIdentity(list: seq<TrackProfile>, c: Criteria)
    requires c.genre == "" && c.mood == "" && c.bpmRange == "" && c.length == ""
    ensures PreliminaryFilter(list, c) == list
  {
    EmptyFieldsUnconstrained(c);
    UnconstrainedIsIdentity(list, c);
  }

  /** Fewer than 10 survivors: the result is the first min(100, |list|) input tracks. */
  lemma FallbackTakesUnfilteredPrefix(list: seq<TrackProfile>, p: Parsed)
    requires |Trimmed(list, p)| < FallbackThreshold
    ensures Prefilter(list, p) == list[..if |list| < FallbackSize then |list| else FallbackSize]
  {
  }

  /** Three matches in a 150-track playlist give the first 100 unfiltered tracks. */
  lemma ThreeOfHundredFifty(list: seq<TrackProfile>, p: Parsed)
    requires |list| == 150
    requires |Matching(list, p)| == 3
    ensures Prefilter(list, p) == list[..100]
  {
    if p.minMs > 0 {
      var sorted := SortDesc(Matching(list, p));
      CoverFromSpec(sorted, 0, p.minMs);
    }
  }

  /**
   * Without a length, and with enough matches, the result is exactly the
   * matching tracks in playlist order, every occurrence kept.
   */
  lemma WithoutLengthKeepsOrder(list: seq<TrackProfile>, p: Parsed)
    requires p.minMs <= 0
    requires |Matching(list, p)| >= FallbackThreshold
    ensures IsSubseq(Prefilter(list, p), list)
    ensures forall x :: x in Prefilter(list, p) <==> x in list && Keep(p, x)
    ensures forall x :: Keep(p, x) ==> Count(Prefilter(list, p), x) == Count(list, x)
  {
    FilterIsSubseq(KeepFn(p), list);
    forall x | Keep(p, x) ensures Count(Prefilter(list, p), x) == Count(list, x) {
      FilterCount(KeepFn(p), list, x);
    }
  }

  /**
   * With a positive length, and with enough tracks taken, the result is the
   * shortest prefix of the matches sorted by descending score whose duration
   * reaches the minimum (all of them if it is never reached).
   */
  lemma WithLengthTakesShortestCover(list: seq<TrackProfile>, p: Parsed)
    requires p.minMs > 0
    requires |Trimmed(list, p)| >= FallbackThreshold
    ensures var sorted := SortDesc(Matching(list, p));
      var r := Prefilter(list, p);
      && |r| <= |sorted| && r == sorted[..|r|]
      && (|r| < |sorted| ==> Total(r) >= p.minMs)
      && (forall j :: 0 <= j < |r| ==> Total(sorted[..j]) < p.minMs)
  {
    CoverIsShortest(SortDesc(Matching(list, p)), p.minMs);
  }

  /**
   * A "min-max" tempo text that reads as exactly two integers passes a
   * track iff its tempo is known and lies within the bounds, inclusive.
   */
  lemma TempoRangeIsInclusive(list: seq<TrackProfile>, p: Parsed, bpmRange: string, x: TrackProfile, lo: int, hi: int)
    requires p.tempo == TempoBounds(bpmRange)
    requires ParseTempoNumbers(bpmRange) == [lo, hi]
    ensures x in Matching(list, p) <==>
      && x in list
      && x.bpm.Some? && lo as real <= x.bpm.value <= hi as real
      && GenreHit(p.wantGenres, x) && MoodHit(p.wantMoods, x)
  {
    MatchingTempo(list, p, x);
  }

  lemma MatchingTempo(list: seq<TrackProfile>, p: Parsed, x: TrackProfile)
    ensures x in Matching(list, p) <==>
      x in list && InTempo(p.tempo, x) && GenreHit(p.wantGenres, x) && MoodHit(p.wantMoods, x)
  {
  }

  /** Any other tempo text (empty, one number, three numbers, no digits) constrains nothing. */
  lemma OtherTempoIsNoConstraint(list: seq<TrackProfile>, p: Parsed, bpmRange: string, x: TrackProfile)
    requires p.tempo == TempoBounds(bpmRange)
    requires |ParseTempoNumbers(bpmRange)| != 2
    ensures x in Matching(list, p) <==>
      x in list && GenreHit(p.wantGenres, x) && MoodHit(p.wantMoods, x)
  {
    MatchingTempo(list, p, x);
  }

  /** Requesting only "glad" passes a track iff its valence is strictly above 0.6. */
  lemma GladFilter(list: seq<TrackProfile>, p: Parsed, x: TrackProfile)
    requires p.wantMoods == ["glad"]
    ensures x in Matching(list, p) <==>
      && x in list && InTempo(p.tempo, x) && GenreHit(p.wantGenres, x)
      && x.valence.Some? && x.valence.value > 0.6
  {
    GladIsValenceAbove(x);
    assert MoodHit(p.wantMoods, x) <==> MoodMatches("glad", x);
    MatchingTempo(list, p, x);
  }

  /** A track with valence 0.59 and energy 0.9 is not "glad". */
  lemma GladRejectsHighEnergyLowValence(list: seq<TrackProfile>, p: Parsed, x: TrackProfile)
    requires p.wantMoods == ["glad"]
    requires x.valence == Some(0.59) && x.energy == Some(0.9)
    ensures x !in Matching(list, p)
  {
    GladFilter(list, p, x);
  }

  /** Several requested moods: a track passes if ANY of them matches. */
  lemma AnyMoodSuffices(list: seq<TrackProfile>, p: Parsed, x: TrackProfile, k: string)
    requires k in p.wantMoods && MoodMatches(k, x)
    requires x in list && InTempo(p.tempo, x) && GenreHit(p.wantGenres, x)
    ensures x in Matching(list, p)
  {
  }
}
