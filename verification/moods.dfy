/**
 * The twelve-entry mood table of the preliminary filter: each Swedish mood
 * keyword names a threshold condition over a track's audio features, where
 * a `null` feature compares as 0 and `mode === 0` is false for `null`.
 */
module Moods {
  import opened Wrappers
  import opened Tracks

  /** The twelve entries of the table. */
  datatype Mood =
    | Glad | Energisk | Fokus | Avslappnad | Ledsen | Romantisk
    | Traning | Fest | Mysig | Dramatisk | Melankolisk | Hoppfull

  /** The property name of each entry in the backend's object literal. */
  function Keyword(m: Mood): string
  {
    match m
    case Glad => "glad"
    case Energisk => "energisk"
    case Fokus => "fokus"
    case Avslappnad => "avslappnad"
    case Ledsen => "ledsen"
    case Romantisk => "romantisk"
    case Traning => "träning"
    case Fest => "fest"
    case Mysig => "mysig"
    case Dramatisk => "dramatisk"
    case Melankolisk => "melankolisk"
    case Hoppfull => "hoppfull"
  }

  /** The keywords of the table, in the order the backend lists them. */
  const MoodKeys: seq<string> := [
    "glad", "energisk", "fokus", "avslappnad", "ledsen", "romantisk",
    "träning", "fest", "mysig", "dramatisk", "melankolisk", "hoppfull"
  ]

  /** The table's own entry for a property name, if it has one. */
  function Lookup(k: string): (r: Option<Mood>)
    ensures r.Some? ==> Keyword(r.value) == k
    ensures r.None? <==> k !in MoodKeys
  {
    if k == "glad" then Some(Glad)
    else if k == "energisk" then Some(Energisk)
    else if k == "fokus" then Some(Fokus)
    else if k == "avslappnad" then Some(Avslappnad)
    else if k == "ledsen" then Some(Ledsen)
    else if k == "romantisk" then Some(Romantisk)
    else if k == "träning" then Some(Traning)
    else if k == "fest" then Some(Fest)
    else if k == "mysig" then Some(Mysig)
    else if k == "dramatisk" then Some(Dramatisk)
    else if k == "melankolisk" then Some(Melankolisk)
    else if k == "hoppfull" then Some(Hoppfull)
    else None
  }

  /** Every entry is found under its own keyword. */
  lemma LookupKeyword(m: Mood)
    ensures Lookup(Keyword(m)) == Some(m)
    ensures Keyword(m) in MoodKeys
  {
  }

  /** `x.f > t` and `x.f < t` in JavaScript, with `null` read as 0. */
  predicate Above(f: Option<real>, t: real) { AsNumber(f) > t }
  predicate Below(f: Option<real>, t: real) { AsNumber(f) < t }

  /** The value of one entry of the backend's object literal for a track. */
  predicate Verdict(m: Mood, x: TrackProfile)
  {
    match m
    case Glad => Above(x.valence, 0.6)
    case Energisk => Above(x.energy, 0.6)
    case Fokus => Below(x.energy, 0.5) && Below(x.valence, 0.6)
    case Avslappnad => Below(x.energy, 0.4)
    case Ledsen => Below(x.valence, 0.3)
    case Romantisk => Above(x.valence, 0.6) && Above(x.acousticness, 0.3)
    case Traning => Above(x.energy, 0.7) && Above(x.danceability, 0.6)
    case Fest => Above(x.danceability, 0.7)
    case Mysig => Above(x.acousticness, 0.4)
    case Dramatisk => Above(x.instrumentalness, 0.3) || x.mode == Some(0)
    case Melankolisk => Below(x.valence, 0.4)
    case Hoppfull => Above(x.valence, 0.6) && Above(x.energy, 0.5)
  }

  /**
   * The all-lower-case properties every plain JavaScript object inherits
   * from `Object.prototype`; indexing the table with one of them yields a
   * function or an object, both truthy.
   */
  const InheritedKeys: set<string> := {"constructor", "__proto__"}

  /** `m[k]` read as a boolean, exactly as the backend evaluates it. */
  predicate MoodMatchesAsWritten(k: string, x: TrackProfile): (r: bool)
    ensures r ==> k in MoodKeys || k in InheritedKeys
    ensures k in InheritedKeys ==> r
  {
    match Lookup(k)
    case Some(m) => Verdict(m, x)
    case None => k in InheritedKeys
  }

  /** The intended reading: only the table's own twelve entries can match. */
  predicate MoodMatches(k: string, x: TrackProfile): (r: bool)
    ensures r ==> k in MoodKeys
  {
    match Lookup(k)
    case Some(m) => Verdict(m, x)
    case None => false
  }

  /** A keyword outside the table never matches (corrected reading). */
  lemma UnknownMoodNeverMatches(k: string, x: TrackProfile)
    requires k !in MoodKeys
    ensures !MoodMatches(k, x)
  {
  }

  /**
   * As written, the keyword "constructor" is not in the table and yet
   * matches every track.
   */
  lemma ConstructorMatchesEveryTrack(x: TrackProfile)
    ensures "constructor" !in MoodKeys
    ensures MoodMatchesAsWritten("constructor", x)
    ensures !MoodMatches("constructor", x)
  {
  }

  /** The two readings differ only on the inherited property names. */
  lemma ReadingsAgreeOutsideInherited(k: string, x: TrackProfile)
    requires k !in InheritedKeys
    ensures MoodMatchesAsWritten(k, x) == MoodMatches(k, x)
  {
  }

  /**
   * A track without audio features reads as all zeros, so it is "fokus",
   * "avslappnad", "ledsen" and "melankolisk", and nothing else.
   */
  lemma FeaturelessTrackMoods(x: TrackProfile)
    requires x.bpm.None? && x.energy.None? && x.danceability.None? && x.valence.None?
    requires x.acousticness.None? && x.instrumentalness.None? && x.mode.None?
    ensures forall m :: Verdict(m, x) <==> m in {Fokus, Avslappnad, Ledsen, Melankolisk}
    ensures forall k :: MoodMatches(k, x) <==> k in {"fokus", "avslappnad", "ledsen", "melankolisk"}
  {
    forall k ensures MoodMatches(k, x) <==> k in {"fokus", "avslappnad", "ledsen", "melankolisk"} {
      if Lookup(k).Some? {
        LookupKeyword(Lookup(k).value);
      }
    }
  }

  /** "glad" passes exactly the tracks with valence strictly above 0.6. */
  lemma GladIsValenceAbove(x: TrackProfile)
    ensures MoodMatches("glad", x) <==> x.valence.Some? && x.valence.value > 0.6
  {
  }

  /** "avslappnad" passes a track whose energy is unknown, since `null < 0.4`. */
  lemma RelaxedPassesUnknownEnergy(x: TrackProfile)
    requires x.energy.None?
    ensures MoodMatches("avslappnad", x)
  {
  }

  /** With an unknown mode, "dramatisk" depends on instrumentalness alone. */
  lemma DramaticWithUnknownMode(x: TrackProfile)
    requires x.mode.None?
    ensures MoodMatches("dramatisk", x) <==> AsNumber(x.instrumentalness) > 0.3
  {
  }
}
