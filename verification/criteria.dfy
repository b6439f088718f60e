/**
 * How the backend reads the criteria strings of an `/analyze` request:
 * comma lists for genre and mood, a "min-max" tempo range and a whole
 * number of minutes.
 */
module CriteriaParser {
  import opened Wrappers
  import opened Seqs
  import opened JsText

  /**
   * The `criteria` object. A missing or falsy field is the empty string;
   * `length` is the decimal text of a number of minutes. `description` is
   * only passed on to the language model and never read by the filter.
   */
  datatype Criteria = Criteria(
    genre: string,
    mood: string,
    description: string,
    bpmRange: string,
    length: string)

  /** `criteria || {}` for a request without criteria. */
  const NoCriteria := Criteria("", "", "", "", "")

  /** What the filter derives from the criteria before looking at any track. */
  datatype Parsed = Parsed(
    wantGenres: seq<string>,
    wantMoods: seq<string>,
    tempo: Option<(int, int)>,
    minMs: int)

  function TrimAll(parts: seq<string>): (r: seq<string>)
    ensures |r| == |parts|
    ensures forall i :: 0 <= i < |r| ==> r[i] == Trim(parts[i])
    ensures forall i :: 0 <= i < |r| ==> |r[i]| == 0 || (!IsSpace(r[i][0]) && !IsSpace(r[i][|r[i]| - 1]))
    ensures forall c, i :: 0 <= i < |r| && c !in parts[i] ==> c !in r[i]
  {
    seq(|parts|, i requires 0 <= i < |parts| => Trim(parts[i]))
  }

  predicate NonEmpty(w: string) { w != "" }

  /**
   * `s.toLowerCase().split(",").map(s => s.trim()).filter(Boolean)`: the
   * requested words, lower-cased, trimmed, none empty, none with a comma.
   */
  function ParseList(s: string): (r: seq<string>)
    ensures forall i :: 0 <= i < |r| ==> r[i] != "" && ',' !in r[i]
    ensures forall i :: 0 <= i < |r| ==> !IsSpace(r[i][0]) && !IsSpace(r[i][|r[i]| - 1])
  {
    var pieces := TrimAll(Split(ToLower(s), ','));
    ParsedWordsClean(pieces);
    Filter(NonEmpty, pieces)
  }

  /**
   * For any text, the words are the non-empty trimmed pieces of the
   * lower-cased text split at commas: in their order, each as often as it
   * occurs there, and no other.
   */
  lemma ParseListIsCleanPieces(s: string, w: string)
    ensures var pieces := Split(ToLower(s), ',');
      && IsSubseq(ParseList(s), TrimAll(pieces))
      && (w in ParseList(s) <==> w != "" && exists i :: 0 <= i < |pieces| && w == Trim(pieces[i]))
      && Count(ParseList(s), w) == if w == "" then 0 else Count(TrimAll(pieces), w)
  {
    var split := Split(ToLower(s), ',');
    var pieces := TrimAll(split);
    FilterIsSubseq(NonEmpty, pieces);
    FilterCount(NonEmpty, pieces, w);
    if w in pieces {
      var i :| 0 <= i < |pieces| && pieces[i] == w;
      assert w == Trim(split[i]);
    }
  }

  /** Every element of a filter over trimmed comma-free pieces is clean. */
  lemma ParsedWordsClean(pieces: seq<string>)
    requires forall i :: 0 <= i < |pieces| ==> ',' !in pieces[i]
    requires forall i :: 0 <= i < |pieces| ==> |pieces[i]| == 0 || (!IsSpace(pieces[i][0]) && !IsSpace(pieces[i][|pieces[i]| - 1]))
    ensures forall w :: w in Filter(NonEmpty, pieces) ==> w != "" && ',' !in w && !IsSpace(w[0]) && !IsSpace(w[|w| - 1])
  {
  }

  /** `bpmRange.split("-").map(x => parseInt(x, 10)).filter(x => !isNaN(x))`. */
  function ParseTempoNumbers(s: string): seq<int>
  {
    var pieces := Split(s, '-');
    Somes(seq(|pieces|, i requires 0 <= i < |pieces| => ParseInt(pieces[i])))
  }

  /** A tempo constraint exists only when exactly two numbers were read. */
  function TempoBounds(s: string): (r: Option<(int, int)>)
    ensures r.Some? <==> |ParseTempoNumbers(s)| == 2
    ensures r.Some? ==> ParseTempoNumbers(s) == [r.value.0, r.value.1]
  {
    var t := ParseTempoNumbers(s);
    if |t| == 2 then Some((t[0], t[1])) else None
  }

  /**
   * `(parseInt(length || "0", 10) || 0) * 60000`: the length in minutes, as
   * milliseconds, when the text starts with a whole number, and 0 otherwise
   * (the empty text included).
   */
  function MinMs(length: string): (r: int)
    ensures ParseInt(length).Some? ==> r == ParseInt(length).value * 60000
    ensures ParseInt(length).None? ==> r == 0
  {
    ZeroAndEmptyTexts();
    var n := ParseInt(if length == "" then "0" else length);
    n.GetOr(0) * 60000
  }

  /** `parseInt("0")` is 0 and `parseInt("")` is `NaN`: both give no minimum. */
  lemma ZeroAndEmptyTexts()
    ensures ParseInt("0") == Some(0)
    ensures ParseInt("") == None
  {
    ParseIntOfDecimal(0);
    assert Decimal(0) == "0";
    assert LeadingDigits("") == "";
  }

  function Parse(c: Criteria): Parsed
  {
    Parsed(ParseList(c.genre), ParseList(c.mood), TempoBounds(c.bpmRange), MinMs(c.length))
  }

  /** Criteria under which no track is excluded and nothing is trimmed. */
  predicate Unconstrained(p: Parsed)
  {
    |p.wantGenres| == 0 && |p.wantMoods| == 0 && p.tempo.None? && p.minMs <= 0
  }

  /** An empty field is "no constraint" for every one of the four constraints. */
  lemma EmptyFieldsUnconstrained(c: Criteria)
    requires c.genre == "" && c.mood == "" && c.bpmRange == "" && c.length == ""
    ensures Unconstrained(Parse(c))
  {
    EmptyListParsesEmpty();
    EmptyRangeNoTempo();
    EmptyLengthNoMinimum();
  }

  lemma EmptyListParsesEmpty()
    ensures ParseList("") == []
  {
    assert ToLower("") == "";
    assert Split("", ',') == [""];
    assert Trim("") == "";
    assert TrimAll([""]) == [""];
  }

  lemma EmptyRangeNoTempo()
    ensures TempoBounds("") == None
  {
    assert Split("", '-') == [""];
    assert ParseInt("") == None;
    assert ParseTempoNumbers("") == Somes([None]);
  }

  lemma EmptyLengthNoMinimum()
    ensures MinMs("") == 0
  {
    ZeroAndEmptyTexts();
  }

  /** A tempo text without a dash is a single piece, so it never constrains the tempo. */
  lemma TempoWithoutDash(s: string)
    requires '-' !in s
    ensures TempoBounds(s) == None
  {
    SplitWithoutSep(s, '-');
    var t := ParseTempoNumbers(s);
    assert |t| <= 1;
  }

}
