/**
 * Candidate selection and validation of the language model's answer in the
 * `/analyze` handler: the candidate list is a clamped prefix of the
 * preliminary filter's output, the model's id list is restricted to
 * candidate ids, and each kept id is looked up among the candidates.
 */
module Curation {
  import opened Wrappers
  import opened Seqs
  import opened Tracks

  const MinCandidates: int := 50
  const MaxCandidates: int := 400
  /** The `llmLimit` used when the request body has none. */
  const DefaultLlmLimit: int := 300

  /** One trivia card of the model's analysis. */
  datatype Card = Card(title: string, emoji: string, body: string, whyItMatters: string)

  /**
   * The model's answer after `JSON.parse`. Absent or `null` fields are
   * `None`; `curated_tracks || []` has already been applied.
   */
  datatype LlmReply = LlmReply(
    title: Option<string>,
    description: Option<string>,
    curatedTracks: seq<string>,
    summary: string,
    cards: seq<Card>)

  /** The object returned when the model's text is not valid JSON. */
  const Neutral: LlmReply := LlmReply(None, None, [], "", [])

  /** `Some(reply)` when the model's text parses, `None` when `JSON.parse` throws. */
  function ReplyOf(parsed: Option<LlmReply>): (r: LlmReply)
    ensures parsed.Some? ==> r == parsed.value
    ensures parsed.None? ==> r.title.None? && r.description.None? && r.curatedTracks == [] && r.cards == []
  {
    parsed.GetOr(Neutral)
  }

  /** `Math.max(50, Math.min(llmLimit, 400))`. */
  function CandidateLimit(llmLimit: int): (r: int)
    ensures MinCandidates <= r <= MaxCandidates
    ensures MinCandidates <= llmLimit <= MaxCandidates ==> r == llmLimit
    ensures llmLimit < MinCandidates ==> r == MinCandidates
    ensures llmLimit > MaxCandidates ==> r == MaxCandidates
  {
    var m := if llmLimit < MaxCandidates then llmLimit else MaxCandidates;
    if MinCandidates > m then MinCandidates else m
  }

  /** `prelim.slice(0, limit)`: the profiles shown to the model. */
  function Candidates(prelim: seq<TrackProfile>, llmLimit: int): (r: seq<TrackProfile>)
    ensures |r| == if |prelim| < CandidateLimit(llmLimit) then |prelim| else CandidateLimit(llmLimit)
    ensures r == prelim[..|r|]
  {
    Prefix(prelim, CandidateLimit(llmLimit))
  }

  /** `new Set(candidates.map(c => c.id))`. */
  function CandidateIds(cands: seq<TrackProfile>): (r: set<string>)
    ensures forall id :: id in r <==> exists i :: 0 <= i < |cands| && cands[i].id == id
  {
    set i | 0 <= i < |cands| :: cands[i].id
  }

  /** `(llm.curated_tracks || []).filter(id => candSet.has(id))`. */
  function CuratedIds(ids: seq<string>, cands: seq<TrackProfile>): (r: seq<string>)
    ensures forall id :: id in r <==> id in ids && id in CandidateIds(cands)
  {
    var candSet := CandidateIds(cands);
    Filter(id => id in candSet, ids)
  }

  /** `candidates.find(c => c.id === id)`: the first candidate with that id. */
  function Find(cands: seq<TrackProfile>, id: string): (r: Option<TrackProfile>)
    ensures r.Some? <==> id in CandidateIds(cands)
    ensures r.Some? ==> r.value.id == id
    ensures r.Some? ==> exists i :: 0 <= i < |cands| && cands[i] == r.value && (forall j :: 0 <= j < i ==> cands[j].id != id)
  {
    if |cands| == 0 then None
    else if cands[0].id == id then Some(cands[0])
    else Find(cands[1..], id)
  }

  /** `curatedIds.map(id => candidates.find(...)).filter(Boolean)`. */
  function Curated(ids: seq<string>, cands: seq<TrackProfile>): (r: seq<TrackProfile>)
    ensures |r| <= |ids|
    ensures forall c :: c in r ==> c in cands
  {
    if |ids| == 0 then []
    else
      (match Find(cands, ids[0]) case Some(c) => [c] case None => []) + Curated(ids[1..], cands)
  }

  /**
   * The validated id list keeps every candidate id the model returned, with
   * all its repeats, and drops every other id.
   */
  lemma CuratedIdsCount(ids: seq<string>, cands: seq<TrackProfile>, id: string)
    ensures Count(CuratedIds(ids, cands), id) == if id in CandidateIds(cands) then Count(ids, id) else 0
  {
    var candSet := CandidateIds(cands);
    FilterCount(id => id in candSet, ids, id);
  }

  /** The validated id list keeps the model's order. */
  lemma CuratedIdsKeepOrder(ids: seq<string>, cands: seq<TrackProfile>)
    ensures IsSubseq(CuratedIds(ids, cands), ids)
  {
    var candSet := CandidateIds(cands);
    FilterIsSubseq(id => id in candSet, ids);
  }

  /** When the model returned only candidate ids, nothing is dropped. */
  lemma HonestReplyKeptWhole(ids: seq<string>, cands: seq<TrackProfile>)
    requires forall i :: 0 <= i < |ids| ==> ids[i] in CandidateIds(cands)
    ensures CuratedIds(ids, cands) == ids
  {
    var candSet := CandidateIds(cands);
    FilterKeepsAll(id => id in candSet, ids);
  }

  /**
   * For ids that are all candidate ids, `curated` lines up with them: same
   * length, and entry `i` is the first candidate whose id is `ids[i]`.
   */
  lemma {:induction false} CuratedFollowsIds(ids: seq<string>, cands: seq<TrackProfile>)
    requires forall i :: 0 <= i < |ids| ==> ids[i] in CandidateIds(cands)
    ensures |Curated(ids, cands)| == |ids|
    ensures forall i :: 0 <= i < |ids| ==> Curated(ids, cands)[i] == Find(cands, ids[i]).value
  {
    if |ids| > 0 {
      CuratedFollowsIds(ids[1..], cands);
      var rest := Curated(ids[1..], cands);
      assert Curated(ids, cands) == [Find(cands, ids[0]).value] + rest;
    }
  }

  /** Every curated profile is a candidate whose id is in the validated list, in that list's order. */
  lemma CuratedMatchesCuratedIds(llmIds: seq<string>, cands: seq<TrackProfile>)
    ensures |Curated(CuratedIds(llmIds, cands), cands)| == |CuratedIds(llmIds, cands)|
    ensures forall i :: 0 <= i < |CuratedIds(llmIds, cands)| ==>
      Curated(CuratedIds(llmIds, cands), cands)[i].id == CuratedIds(llmIds, cands)[i]
      && Curated(CuratedIds(llmIds, cands), cands)[i] in cands
  {
    var ids := CuratedIds(llmIds, cands);
    assert forall i :: 0 <= i < |ids| ==> ids[i] in ids;
    CuratedFollowsIds(ids, cands);
  }

  /** An unparseable model answer curates nothing. */
  lemma UnparseableReplyCuratesNothing(cands: seq<TrackProfile>)
    ensures CuratedIds(ReplyOf(None).curatedTracks, cands) == []
    ensures Curated(CuratedIds(ReplyOf(None).curatedTracks, cands), cands) == []
  {
  }
}
