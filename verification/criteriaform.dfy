/**
 * The criteria form of the front-end: the three option tables, the
 * select/deselect toggle of a multi-select list, and the criteria record the
 * confirm button sends to the backend, together with what the backend reads
 * back from that record.
 */
module CriteriaForm {
  import opened Wrappers
  import opened Seqs
  import opened JsText
  import opened Moods
  import opened CriteriaParser

  const GenreOptions: seq<string> := [
    "Pop", "Rock", "Hip Hop", "RnB", "Elektroniskt", "Indie", "House", "Techno", "Soul",
    "Funk", "Jazz", "Metal", "Punk", "Ambient", "Country", "Folk", "Klassiskt", "Reggae"
  ]

  const MoodOptions: seq<string> := [
    "Glad", "Energisk", "Fokus", "Avslappnad", "Ledsen", "Romantisk",
    "Tr\U{E4}ning", "Fest", "Mysig", "Dramatisk", "Melankolisk", "Hoppfull"
  ]

  const DescriptionOptions: seq<string> := [
    "Roadtrip", "Sena n\U{E4}tter", "Sommarkv\U{E4}ll", "Plugga", "Middag med v\U{E4}nner",
    "F\U{F6}re festen", "Efterfesten", "St\U{E4}da", "Solnedg\U{E5}ng", "Regnig dag"
  ]

  /**
   * `handleMultiSelect`: a selected option is deselected (every copy of it
   * removed), an unselected one is appended.
   */
  function Toggle(list: seq<string>, option: string): (r: seq<string>)
    ensures option in list ==> option !in r
    ensures option !in list ==> r == list + [option]
  {
    if option in list then Filter(x => x != option, list) else list + [option]
  }

  /** Deselecting removes every copy of the option and keeps the other selections, in order. */
  lemma ToggleRemoves(list: seq<string>, option: string)
    requires option in list
    ensures option !in Toggle(list, option)
    ensures IsSubseq(Toggle(list, option), list)
    ensures forall x :: x != option ==> Count(Toggle(list, option), x) == Count(list, x)
  {
    FilterIsSubseq(x => x != option, list);
    forall x | x != option ensures Count(Toggle(list, option), x) == Count(list, x) {
      FilterCount(y => y != option, list, x);
    }
  }

  /** Selecting and then deselecting an option gives back the original list. */
  lemma ToggleTwice(list: seq<string>, option: string)
    requires option !in list
    ensures Toggle(Toggle(list, option), option) == list
  {
    var f := x => x != option;
    FilterAppend(f, list, [option]);
    FilterKeepsAll(f, list);
  }

  /** A selection list made only by toggling options holds distinct options. */
  lemma ToggleKeepsSelectionValid(list: seq<string>, option: string, options: seq<string>)
    requires Distinct(list) && forall x :: x in list ==> x in options
    requires option in options
    ensures Distinct(Toggle(list, option))
    ensures forall x :: x in Toggle(list, option) ==> x in options
  {
    if option in list {
      FilterDistinct(x => x != option, list);
    }
  }

  /** The form's state when `handleConfirm` runs. */
  datatype FormState = FormState(
    genres: seq<string>,
    moods: seq<string>,
    descriptions: seq<string>,
    bpmMin: nat,
    bpmMax: nat,
    duration: nat,
    genreActive: bool,
    moodActive: bool,
    descriptionActive: bool,
    tempoActive: bool,
    durationActive: bool)

  /** The state the form opens in: nothing selected, every section off. */
  const Initial: FormState := FormState([], [], [], 100, 140, 60, false, false, false, false, false)

  /** `handleConfirm`: an inactive section sends the empty string. */
  function Confirm(f: FormState): Criteria
  {
    Criteria(
      genre := if f.genreActive then Join(f.genres, ", ") else "",
      mood := if f.moodActive then Join(f.moods, ", ") else "",
      description := if f.descriptionActive then Join(f.descriptions, ", ") else "",
      bpmRange := if f.tempoActive then Decimal(f.bpmMin) + "-" + Decimal(f.bpmMax) else "",
      length := if f.durationActive then Decimal(f.duration) else "")
  }

  /** A word the comma-list parser reads back unchanged. */
  predicate Clean(x: string)
  {
    x != "" && ',' !in x && !IsSpace(x[0]) && !IsSpace(x[|x| - 1])
  }

  lemma LowerClean(x: string)
    requires Clean(x)
    ensures Clean(ToLower(x))
  {
    ToLowerCharKeepsClass(x[0]);
    ToLowerCharKeepsClass(x[|x| - 1]);
    forall i | 0 <= i < |x| ensures ToLower(x)[i] != ',' {
      ToLowerCharKeepsClass(x[i]);
    }
  }

  lemma GenreOptionsClean()
    ensures forall x :: x in GenreOptions ==> Clean(x)
  {
    GenreOptionsCleanFirst();
    GenreOptionsCleanMiddle();
    GenreOptionsCleanLast();
  }

  lemma GenreOptionsCleanFirst()
    ensures forall i :: 0 <= i < 6 ==> Clean(GenreOptions[i])
  {
  }

  lemma GenreOptionsCleanMiddle()
    ensures forall i :: 6 <= i < 12 ==> Clean(GenreOptions[i])
  {
  }

  lemma GenreOptionsCleanLast()
    ensures forall i :: 12 <= i < 18 ==> Clean(GenreOptions[i])
  {
  }

  lemma MoodOptionsClean()
    ensures forall x :: x in MoodOptions ==> Clean(x)
  {
    MoodOptionsCleanFirst();
    MoodOptionsCleanLast();
  }

  lemma MoodOptionsCleanFirst()
    ensures forall i :: 0 <= i < 6 ==> Clean(MoodOptions[i])
  {
  }

  lemma MoodOptionsCleanLast()
    ensures forall i :: 6 <= i < 12 ==> Clean(MoodOptions[i])
  {
  }

  lemma DescriptionOptionsClean()
    ensures forall x :: x in DescriptionOptions ==> Clean(x)
  {
    DescriptionOptionsCleanFirst();
    DescriptionOptionsCleanLast();
  }

  lemma DescriptionOptionsCleanFirst()
    ensures forall i :: 0 <= i < 5 ==> Clean(DescriptionOptions[i])
  {
  }

  lemma DescriptionOptionsCleanLast()
    ensures forall i :: 5 <= i < 10 ==> Clean(DescriptionOptions[i])
  {
  }

  /**
   * Joining clean words with `", "` and parsing the result as a comma list
   * gives the words back, lower-cased.
   */
  lemma {:induction false} ListRoundTrip(sel: seq<string>)
    requires forall i :: 0 <= i < |sel| ==> Clean(sel[i])
    ensures ParseList(Join(sel, ", ")) == LowerAll(sel)
  {
    if |sel| == 0 {
      EmptyListParsesEmpty();
    } else {
      var low := LowerAll(sel);
      forall i | 0 <= i < |low| ensures Clean(low[i]) {
        LowerClean(sel[i]);
      }
      var pieces := Spaced(low);
      assert ToLower(Join(sel, ", ")) == Join(pieces, ",") by {
        ToLowerJoin(sel, ", ");
        assert ToLower(", ") == ", ";
        JoinWithSpace(low);
      }
      assert Split(Join(pieces, ","), ',') == pieces by {
        SplitJoin(pieces, ',');
      }
      TrimSpacedAll(low);
      FilterKeepsAll(NonEmpty, low);
    }
  }

  /** Trimming the pieces of a ", "-joined list gives back the clean words. */
  lemma TrimSpacedAll(low: seq<string>)
    requires |low| > 0
    requires forall i :: 0 <= i < |low| ==> Clean(low[i])
    ensures TrimAll(Spaced(low)) == low
  {
    var pieces := Spaced(low);
    forall i | 0 <= i < |low| ensures Trim(pieces[i]) == low[i] {
      if i == 0 {
        TrimOfTrimmed(low[0]);
      } else {
        TrimSpaced(low[i]);
      }
    }
  }

  /** The tempo text of an active tempo section reads back as its two slider values. */
  lemma TempoRoundTrip(lo: nat, hi: nat)
    ensures ParseTempoNumbers(Decimal(lo) + "-" + Decimal(hi)) == [lo, hi]
    ensures TempoBounds(Decimal(lo) + "-" + Decimal(hi)) == Some((lo, hi))
  {
    SplitDecimals(lo, hi);
    ParseIntOfDecimal(lo);
    ParseIntOfDecimal(hi);
    TempoOfTwoPieces(Decimal(lo) + "-" + Decimal(hi), Decimal(lo), Decimal(hi), lo, hi);
  }

  lemma TempoOfTwoPieces(s: string, x: string, y: string, m: int, n: int)
    requires Split(s, '-') == [x, y]
    requires ParseInt(x) == Some(m) && ParseInt(y) == Some(n)
    ensures ParseTempoNumbers(s) == [m, n]
  {
    var pieces := Split(s, '-');
    var parsed := seq(|pieces|, i requires 0 <= i < |pieces| => ParseInt(pieces[i]));
    assert parsed == [Some(m), Some(n)];
    SomesOfTwo(m, n);
  }

  lemma SomesOfTwo(m: int, n: int)
    ensures Somes([Some(m), Some(n)]) == [m, n]
  {
    var s := [Some(m), Some(n)];
    assert s[1..] == [Some(n)];
    assert s[1..][1..] == [];
  }

  lemma SplitDecimals(lo: nat, hi: nat)
    ensures Split(Decimal(lo) + "-" + Decimal(hi), '-') == [Decimal(lo), Decimal(hi)]
  {
    var a := Decimal(lo);
    var b := Decimal(hi);
    assert '-' !in a && '-' !in b;
    SplitAround(a, '-', b);
    SplitWithoutSep(b, '-');
    assert a + "-" + b == a + ['-'] + b;
  }

  /** The length of an active duration section reads back as that many minutes in milliseconds. */
  lemma DurationRoundTrip(minutes: nat)
    ensures MinMs(Decimal(minutes)) == minutes * 60000
  {
    ParseIntOfDecimal(minutes);
  }

  /** Lower-cased, the twelve mood options are exactly the twelve keys of the backend's mood table. */
  lemma MoodOptionsAreKeys()
    ensures LowerAll(MoodOptions) == MoodKeys
  {
    MoodOptionsLowerFirst();
    MoodOptionsLowerLast();
  }

  lemma MoodOptionsLowerFirst()
    ensures forall i :: 0 <= i < 6 ==> ToLower(MoodOptions[i]) == MoodKeys[i]
  {
  }

  lemma MoodOptionsLowerLast()
    ensures forall i :: 6 <= i < 12 ==> ToLower(MoodOptions[i]) == MoodKeys[i]
  {
  }

  /** Only options have been selected, as the toggle buttons guarantee. */
  predicate ValidSelections(f: FormState)
  {
    && (forall x :: x in f.genres ==> x in GenreOptions)
    && (forall x :: x in f.moods ==> x in MoodOptions)
    && (forall x :: x in f.descriptions ==> x in DescriptionOptions)
  }

  /**
   * The serialise/parse round trip across the front-end and the backend:
   * the backend reads the confirmed form as the selected genres and moods
   * lower-cased, the two tempo slider values, and the duration in
   * milliseconds, each only when its section is active.
   */
  lemma ConfirmRoundTrip(f: FormState)
    requires ValidSelections(f)
    ensures var p := Parse(Confirm(f));
      && p.wantGenres == (if f.genreActive then LowerAll(f.genres) else [])
      && p.wantMoods == (if f.moodActive then LowerAll(f.moods) else [])
      && p.tempo == (if f.tempoActive then Some((f.bpmMin, f.bpmMax)) else None)
      && p.minMs == (if f.durationActive then f.duration * 60000 else 0)
  {
    var c := Confirm(f);
    assert Parse(c) == Parsed(ParseList(c.genre), ParseList(c.mood), TempoBounds(c.bpmRange), MinMs(c.length));
    GenreSection(f);
    MoodSection(f);
    TempoSection(f);
    DurationSection(f);
  }

  lemma GenreSection(f: FormState)
    requires forall x :: x in f.genres ==> x in GenreOptions
    ensures ParseList(Confirm(f).genre) == if f.genreActive then LowerAll(f.genres) else []
  {
    GenreOptionsClean();
    SectionList(f.genreActive, f.genres);
  }

  lemma MoodSection(f: FormState)
    requires forall x :: x in f.moods ==> x in MoodOptions
    ensures ParseList(Confirm(f).mood) == if f.moodActive then LowerAll(f.moods) else []
  {
    MoodOptionsClean();
    SectionList(f.moodActive, f.moods);
  }

  lemma SectionList(active: bool, sel: seq<string>)
    requires forall i :: 0 <= i < |sel| ==> Clean(sel[i])
    ensures ParseList(if active then Join(sel, ", ") else "") == if active then LowerAll(sel) else []
  {
    if active {
      ListRoundTrip(sel);
    } else {
      ListRoundTrip([]);
    }
  }

  lemma TempoSection(f: FormState)
    ensures TempoBounds(Confirm(f).bpmRange) == if f.tempoActive then Some((f.bpmMin, f.bpmMax)) else None
  {
    if f.tempoActive {
      TempoRoundTrip(f.bpmMin, f.bpmMax);
    } else {
      assert Split("", '-') == [""];
    }
  }

  lemma DurationSection(f: FormState)
    ensures MinMs(Confirm(f).length) == if f.durationActive then f.duration * 60000 else 0
  {
    if f.durationActive {
      DurationRoundTrip(f.duration);
    } else {
      DurationRoundTrip(0);
    }
  }

  /** Every mood the backend reads from the form is a key of its mood table. */
  lemma ConfirmedMoodsAreKeys(f: FormState)
    requires ValidSelections(f)
    ensures forall k :: k in Parse(Confirm(f)).wantMoods ==> k in MoodKeys
  {
    ConfirmRoundTrip(f);
    MoodOptionsAreKeys();
    LowerOfSelection(f.moods, MoodOptions, MoodKeys);
  }

  lemma LowerOfSelection(sel: seq<string>, options: seq<string>, keys: seq<string>)
    requires forall x :: x in sel ==> x in options
    requires LowerAll(options) == keys
    ensures forall k :: k in LowerAll(sel) ==> k in keys
  {
    forall k | k in LowerAll(sel) ensures k in keys {
      var i :| 0 <= i < |sel| && LowerAll(sel)[i] == k;
      assert sel[i] in options;
      var j :| 0 <= j < |options| && options[j] == sel[i];
      assert LowerAll(options)[j] == k;
    }
  }

  /** A form with every section inactive sends criteria under which the filter is the identity. */
  lemma InactiveFormUnconstrained(f: FormState)
    requires !f.genreActive && !f.moodActive && !f.tempoActive && !f.durationActive
    ensures Unconstrained(Parse(Confirm(f)))
  {
    EmptyFieldsUnconstrained(Confirm(f));
  }
}
