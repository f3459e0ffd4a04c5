/** The MRZ line validator: out of the ranked OCR hypotheses of every detected
    text line, pick the lines that make up one complete block of a catalogued
    MRZ format. */
module Validator {
  import opened Wrappers

  /** One layout of the MRZ format catalog: how many lines the block has and
      how many characters each line has. The catalog itself belongs to the
      parser library, so every operation takes it as a parameter. */
  datatype Format = Format(linesCount: int, lineLength: int)

  /** A selected MRZ line, and the position of the observation (and hence of
      the bounding rectangle) it was read from. */
  datatype ValidatedLine = ValidatedLine(result: string, index: int)

  /** Swift's `Character.isWhitespace`: the Unicode White_Space property. */
  predicate IsWhitespace(c: char) {
    || '\t' <= c <= '\r'
    || c == ' ' || c == '\U{85}' || c == '\U{A0}' || c == '\U{1680}'
    || '\U{2000}' <= c <= '\U{200A}'
    || c == '\U{2028}' || c == '\U{2029}' || c == '\U{202F}' || c == '\U{205F}'
    || c == '\U{3000}'
  }

  /** The string with every whitespace character removed, the rest kept in order. */
  function StripWhitespace(s: string): (r: string)
    ensures |r| <= |s|
  {
    if s == [] then []
    else (if IsWhitespace(s[0]) then [] else [s[0]]) + StripWhitespace(s[1..])
  }

  /** Stripping is the character filter: it drops a whitespace character,
      keeps any other, and distributes over concatenation, so it is determined
      character by character, order included. */
  lemma {:induction false} StripWhitespaceFilters(a: string, b: string, c: char)
    ensures StripWhitespace([c]) == if IsWhitespace(c) then [] else [c]
    ensures StripWhitespace(a + b) == StripWhitespace(a) + StripWhitespace(b)
  {
    assert [c][1..] == [];
    if a == [] {
      assert a + b == b;
    } else {
      StripWhitespaceFilters(a[1..], b, c);
      assert (a + b)[0] == a[0];
      assert (a + b)[1..] == a[1..] + b;
    }
  }

  /** Stripping keeps exactly the non-whitespace characters, never lengthens
      the string, and leaves a whitespace-free string unchanged. */
  lemma {:induction false} WhitespaceStripped(s: string)
    ensures var r := StripWhitespace(s);
      && |r| <= |s|
      && (forall c :: c in r <==> c in s && !IsWhitespace(c))
      && ((forall i :: 0 <= i < |s| ==> !IsWhitespace(s[i])) ==> r == s)
  {
    if s != [] {
      WhitespaceStripped(s[1..]);
      assert s == [s[0]] + s[1..];
    }
  }

  /** The candidate pick of one observation (lines 17-18): the first candidate,
      in rank order, whose whitespace-free form is `length` characters long. */
  function FirstFitting(candidates: seq<string>, length: int): (r: Option<string>)
    ensures r.Some? ==> |r.value| == length
  {
    if candidates == [] then None
    else if |StripWhitespace(candidates[0])| == length then Some(StripWhitespace(candidates[0]))
    else FirstFitting(candidates[1..], length)
  }

  /** The pick is a whitespace-stripped candidate of the requested length, and
      no candidate ranked before it has that length; there is no pick exactly
      when no candidate has that length. */
  lemma {:induction false} FirstFittingIsFirstInRank(candidates: seq<string>, length: int)
    ensures var r := FirstFitting(candidates, length);
      && (r.Some? ==>
            exists k :: 0 <= k < |candidates| && r.value == StripWhitespace(candidates[k])
              && |r.value| == length
              && forall j :: 0 <= j < k ==> |StripWhitespace(candidates[j])| != length)
      && (r.None? <==>
            forall k :: 0 <= k < |candidates| ==> |StripWhitespace(candidates[k])| != length)
  {
    if candidates != [] && |StripWhitespace(candidates[0])| != length {
      FirstFittingIsFirstInRank(candidates[1..], length);
      assert forall k :: 1 <= k < |candidates| ==> candidates[k] == candidates[1..][k - 1];
    }
  }

  /** Every observation among the first `n` that has a candidate of `length`
      characters, in detection order, as the line it would contribute. */
  function Matches(lines: seq<seq<string>>, length: int, n: nat): seq<ValidatedLine>
    requires n <= |lines|
  {
    if n == 0 then []
    else
      var prefix := Matches(lines, length, n - 1);
      match FirstFitting(lines[n - 1], length)
      case Some(s) => prefix + [ValidatedLine(s, n - 1)]
      case None => prefix
  }

  /** The fitting observations of a prefix: one line per observation at most,
      in strictly increasing detection order, each the pick of its observation. */
  lemma {:induction false} MatchesPicks(lines: seq<seq<string>>, length: int, n: nat)
    requires n <= |lines|
    ensures var m := Matches(lines, length, n);
      && |m| <= n
      && (forall j :: 0 <= j < |m| ==>
            0 <= m[j].index < n && FirstFitting(lines[m[j].index], length) == Some(m[j].result))
      && (forall j, k :: 0 <= j < k < |m| ==> m[j].index < m[k].index)
  {
    if n > 0 {
      MatchesPicks(lines, length, n - 1);
      var prefix := Matches(lines, length, n - 1);
      var pick := FirstFitting(lines[n - 1], length);
      if pick.Some? {
        assert Matches(lines, length, n) == prefix + [ValidatedLine(pick.value, n - 1)];
      }
    }
  }

  /** Every observation of the prefix that has a pick contributes that pick,
      with its own index. */
  lemma {:induction false} MatchesComplete(lines: seq<seq<string>>, length: int, n: nat)
    requires n <= |lines|
    ensures forall i :: 0 <= i < n && FirstFitting(lines[i], length).Some? ==>
      ValidatedLine(FirstFitting(lines[i], length).value, i) in Matches(lines, length, n)
  {
    if n > 0 {
      MatchesComplete(lines, length, n - 1);
      var prefix := Matches(lines, length, n - 1);
      var pick := FirstFitting(lines[n - 1], length);
      assert Matches(lines, length, n)
        == if pick.Some? then prefix + [ValidatedLine(pick.value, n - 1)] else prefix;
    }
  }

  /** The first `k` elements of `s`, or all of them when there are fewer. */
  function Take<T>(s: seq<T>, k: int): (r: seq<T>)
    ensures |r| == if k <= 0 then 0 else if k < |s| then k else |s|
    ensures r <= s
  {
    if k <= 0 then [] else if k < |s| then s[..k] else s
  }

  /** One pass of the outer loop for format `format`, from accumulator `acc`:
      skipped when `acc` already holds enough lines; otherwise `acc` is topped up
      greedily, in detection order, and emptied unless it then holds exactly
      `linesCount` lines. */
  function Attempt(format: Format, lines: seq<seq<string>>, acc: seq<ValidatedLine>): seq<ValidatedLine>
  {
    if |acc| < format.linesCount then
      var filled := acc + Take(Matches(lines, format.lineLength, |lines|), format.linesCount - |acc|);
      if |filled| != format.linesCount then [] else filled
    else acc
  }

  /** The accumulator after the first `n` formats of the catalog. */
  function ValidatedAfter(catalog: seq<Format>, lines: seq<seq<string>>, n: nat): seq<ValidatedLine>
    requires n <= |catalog|
  {
    if n == 0 then [] else Attempt(catalog[n - 1], lines, ValidatedAfter(catalog, lines, n - 1))
  }

  /** What `getValidatedResults` returns. */
  function Validated(catalog: seq<Format>, lines: seq<seq<string>>): seq<ValidatedLine> {
    ValidatedAfter(catalog, lines, |catalog|)
  }

  /** One observation of a pass: the top-up of the first `index + 1`
      observations extends that of the first `index` by this observation's pick
      exactly when the top-up is still short and the observation has a pick. */
  lemma PassStep(lines: seq<seq<string>>, length: int, need: int, index: nat)
    requires index < |lines|
    ensures var before := Take(Matches(lines, length, index), need);
      var pick := FirstFitting(lines[index], length);
      |before| < need && pick.Some? ==>
        Take(Matches(lines, length, index + 1), need) == before + [ValidatedLine(pick.value, index)]
    ensures var before := Take(Matches(lines, length, index), need);
      var pick := FirstFitting(lines[index], length);
      !(|before| < need && pick.Some?) ==>
        Take(Matches(lines, length, index + 1), need) == before
  {
    var m := Matches(lines, length, index);
    var pick := FirstFitting(lines[index], length);
    if pick.Some? {
      var x := ValidatedLine(pick.value, index);
      assert Matches(lines, length, index + 1) == m + [x];
      if 0 < need && |m| < need {
        assert Take(m + [x], need) == m + [x];
      } else if 0 < need {
        assert (m + [x])[..need] == m[..need];
      }
    }
  }

  /** The inner loop of `getValidatedResults` for one format: walk the
      observations in detection order and, while `validLines` is short of
      `format.linesCount`, append each observation's pick. */
  method TopUp(format: Format, lines: seq<seq<string>>, acc: seq<ValidatedLine>)
    returns (validLines: seq<ValidatedLine>)
    ensures validLines == acc + Take(Matches(lines, format.lineLength, |lines|), format.linesCount - |acc|)
  {
    ghost var need := format.linesCount - |acc|;
    ghost var topUp: seq<ValidatedLine> := [];
    validLines := acc;
    for index := 0 to |lines|
      invariant topUp == Take(Matches(lines, format.lineLength, index), need)
      invariant validLines == acc + topUp
    {
      PassStep(lines, format.lineLength, need, index);
      var mostLikelyLine := FirstFitting(lines[index], format.lineLength);
      assert |validLines| < format.linesCount <==> |topUp| < need;
      if |validLines| < format.linesCount && mostLikelyLine.Some? {
        var line := ValidatedLine(mostLikelyLine.value, index);
        assert acc + (topUp + [line]) == validLines + [line];
        topUp := topUp + [line];
        validLines := validLines + [line];
      }
    }
  }

  /** `getValidatedResults`: for every format of the catalog, in order, and
      while the accumulator holds fewer lines than the format needs, append at
      most one line per observation; then throw away a partial block. */
  method GetValidatedResults(catalog: seq<Format>, lines: seq<seq<string>>)
    returns (validLines: seq<ValidatedLine>)
    ensures validLines == Validated(catalog, lines)
  {
    validLines := [];
    for f := 0 to |catalog|
      invariant validLines == ValidatedAfter(catalog, lines, f)
    {
      var format := catalog[f];
      if |validLines| < format.linesCount {
        validLines := TopUp(format, lines, validLines);
        if |validLines| != format.linesCount {
          validLines := [];
        }
      }
    }
  }

  // ----- What the selection guarantees -----

  /** A format "fills" when a fresh pass for it finds enough fitting observations. */
  predicate Fills(format: Format, lines: seq<seq<string>>) {
    0 < format.linesCount <= |Matches(lines, format.lineLength, |lines|)|
  }

  /** What a pass does to the accumulator: a skipped format leaves it alone; an
      attempted one either empties it or tops it up to exactly `linesCount`
      lines with the first fitting observations in detection order. */
  lemma AttemptOutcome(format: Format, lines: seq<seq<string>>, acc: seq<ValidatedLine>)
    ensures var r := Attempt(format, lines, acc);
      && (format.linesCount <= |acc| ==> r == acc)
      && (|acc| < format.linesCount ==>
            && (r != [] <==> |acc| + |Matches(lines, format.lineLength, |lines|)| >= format.linesCount)
            && (r != [] ==>
                  && |r| == format.linesCount && r[..|acc|] == acc
                  && r[|acc|..] == Matches(lines, format.lineLength, |lines|)[..format.linesCount - |acc|]))
  {
    var r := Attempt(format, lines, acc);
    if |acc| < format.linesCount && r != [] {
      assert r[..|acc|] == acc;
      assert r[|acc|..] == Take(Matches(lines, format.lineLength, |lines|), format.linesCount - |acc|);
    }
  }

  /** Every line of `out` points at an observation of `lines` and is the pick
      of that observation for the line length of one of the first `n` formats. */
  ghost predicate PicksOf(catalog: seq<Format>, n: nat, lines: seq<seq<string>>, out: seq<ValidatedLine>)
    requires n <= |catalog|
  {
    forall j :: 0 <= j < |out| ==>
      && 0 <= out[j].index < |lines|
      && exists i :: 0 <= i < n && |out[j].result| == catalog[i].lineLength
           && FirstFitting(lines[out[j].index], catalog[i].lineLength) == Some(out[j].result)
  }

  /** Every selected line is a whitespace-free candidate of the observation it
      points at, of the line length of some catalogued format, and (with
      FirstFittingIsFirstInRank) the first candidate of that observation, in
      rank order, with that length. */
  lemma {:induction false} ValidatedLinesFit(catalog: seq<Format>, lines: seq<seq<string>>, n: nat)
    requires n <= |catalog|
    ensures PicksOf(catalog, n, lines, ValidatedAfter(catalog, lines, n))
  {
    if n > 0 {
      ValidatedLinesFit(catalog, lines, n - 1);
      var acc := ValidatedAfter(catalog, lines, n - 1);
      var length := catalog[n - 1].lineLength;
      var out := ValidatedAfter(catalog, lines, n);
      var m := Matches(lines, length, |lines|);
      MatchesPicks(lines, length, |lines|);
      AttemptOutcome(catalog[n - 1], lines, acc);
      forall j | 0 <= j < |out|
        ensures 0 <= out[j].index < |lines|
        ensures exists i :: (0 <= i < n && |out[j].result| == catalog[i].lineLength
          && FirstFitting(lines[out[j].index], catalog[i].lineLength) == Some(out[j].result))
      {
        if j < |acc| {
          assert out[j] == acc[j];
        } else {
          assert out[j] == out[|acc|..][j - |acc|] == m[j - |acc|];
          FirstFittingIsFirstInRank(lines[m[j - |acc|].index], length);
          assert |out[j].result| == catalog[n - 1].lineLength;
        }
      }
    }
  }

  /** The result is empty, or holds exactly the `linesCount` lines of the last
      format that was attempted: every format after it was skipped because it
      needs no more lines than the result already holds. */
  lemma {:induction false} ValidatedSize(catalog: seq<Format>, lines: seq<seq<string>>, n: nat)
    requires n <= |catalog|
    ensures var out := ValidatedAfter(catalog, lines, n);
      out == [] || exists k :: (0 <= k < n && |out| == catalog[k].linesCount
                                && forall j :: k < j < n ==> catalog[j].linesCount <= |out|)
  {
    if n > 0 {
      ValidatedSize(catalog, lines, n - 1);
      var acc := ValidatedAfter(catalog, lines, n - 1);
      var out := ValidatedAfter(catalog, lines, n);
      AttemptOutcome(catalog[n - 1], lines, acc);
      if catalog[n - 1].linesCount <= |acc| {
        assert out == acc;
        if acc != [] {
          var k :| 0 <= k < n - 1 && |acc| == catalog[k].linesCount
            && forall j :: k < j < n - 1 ==> catalog[j].linesCount <= |acc|;
          assert forall j :: k < j < n ==> catalog[j].linesCount <= |out|;
        }
      } else if out != [] {
        assert |out| == catalog[n - 1].linesCount;
      }
    }
  }

  /** When no format of the catalog fills, nothing is selected. */
  lemma {:induction false} NoneFillsMeansEmpty(catalog: seq<Format>, lines: seq<seq<string>>, n: nat)
    requires n <= |catalog|
    requires forall k :: 0 <= k < n ==> !Fills(catalog[k], lines)
    ensures ValidatedAfter(catalog, lines, n) == []
  {
    if n > 0 {
      NoneFillsMeansEmpty(catalog, lines, n - 1);
      AttemptOutcome(catalog[n - 1], lines, []);
    }
  }

  /** No observations, no selected lines, whatever the catalog. */
  lemma EmptyInputSelectsNothing(catalog: seq<Format>)
    ensures Validated(catalog, []) == []
  {
    NoneFillsMeansEmpty(catalog, [], |catalog|);
  }

  /** A catalog whose formats need ever fewer (or equally many) lines. */
  predicate NonIncreasing(catalog: seq<Format>) {
    forall i, j :: 0 <= i < j < |catalog| ==> catalog[j].linesCount <= catalog[i].linesCount
  }

  /** With a non-increasing catalog, the first format that fills wins: the
      result is the first `linesCount` fitting observations for that format, and
      the formats after it are skipped. */
  lemma {:induction false} FirstFillingFormatWins(catalog: seq<Format>, lines: seq<seq<string>>, n: nat, k: nat)
    requires NonIncreasing(catalog)
    requires k < n <= |catalog|
    requires Fills(catalog[k], lines)
    requires forall i :: 0 <= i < k ==> !Fills(catalog[i], lines)
    ensures ValidatedAfter(catalog, lines, n)
      == Matches(lines, catalog[k].lineLength, |lines|)[..catalog[k].linesCount]
  {
    var m := Matches(lines, catalog[k].lineLength, |lines|);
    if n == k + 1 {
      NoneFillsMeansEmpty(catalog, lines, k);
      assert [] + Take(m, catalog[k].linesCount) == m[..catalog[k].linesCount];
    } else {
      FirstFillingFormatWins(catalog, lines, n - 1, k);
      assert catalog[n - 1].linesCount <= catalog[k].linesCount;
      assert |ValidatedAfter(catalog, lines, n - 1)| == catalog[k].linesCount;
    }
  }

  /** Within one attempted pass, the appended lines come from distinct
      observations, in strictly increasing detection order, each within range. */
  lemma PassIndicesIncrease(format: Format, lines: seq<seq<string>>, acc: seq<ValidatedLine>)
    requires |acc| < format.linesCount
    ensures var added := Attempt(format, lines, acc);
      added != [] ==>
        && (forall j :: |acc| <= j < |added| ==> 0 <= added[j].index < |lines|)
        && (forall i, j :: |acc| <= i < j < |added| ==> added[i].index < added[j].index)
  {
    AttemptOutcome(format, lines, acc);
    var r := Attempt(format, lines, acc);
    var m := Matches(lines, format.lineLength, |lines|);
    MatchesPicks(lines, format.lineLength, |lines|);
    if r != [] {
      forall j | |acc| <= j < |r| ensures r[j] == m[j - |acc|] {
        assert r[j] == r[|acc|..][j - |acc|];
      }
    }
  }

  // ----- A concrete run -----

  /** The three ICAO 9303 layouts, TD1 (3 lines of 30 characters), TD2 (2 of
      36) and TD3 (2 of 44), as an example catalog. */
  const StandardCatalog: seq<Format> := [Format(3, 30), Format(2, 36), Format(2, 44)]

  lemma StandardCatalogNonIncreasing()
    ensures NonIncreasing(StandardCatalog)
  {
  }

  /** The MRZ character set of ICAO 9303: capital letters, digits and the filler `<`. */
  predicate MrzCharacter(c: char) {
    'A' <= c <= 'Z' || '0' <= c <= '9' || c == '<'
  }

  /** An observation with one whitespace-free candidate picks it for its own
      length and nothing for any other length. */
  lemma SingleCandidatePick(s: string, length: int)
    requires forall i :: 0 <= i < |s| ==> !IsWhitespace(s[i])
    ensures FirstFitting([s], length) == if |s| == length then Some(s) else None
  {
    WhitespaceStripped(s);
    assert [s][1..] == [];
  }

  /** Two 44-character observations written in the MRZ character set make a
      TD3 block with indices 0 and 1. */
  lemma {:induction false} TwoPassportLinesSelected(first: string, second: string)
    requires |first| == 44 && |second| == 44
    requires forall i :: 0 <= i < |first| ==> MrzCharacter(first[i])
    requires forall i :: 0 <= i < |second| ==> MrzCharacter(second[i])
    ensures Validated(StandardCatalog, [[first], [second]])
      == [ValidatedLine(first, 0), ValidatedLine(second, 1)]
  {
    var lines := [[first], [second]];
    forall length | length in {30, 36, 44}
      ensures FirstFitting(lines[0], length) == if length == 44 then Some(first) else None
      ensures FirstFitting(lines[1], length) == if length == 44 then Some(second) else None
    {
      SingleCandidatePick(first, length);
      SingleCandidatePick(second, length);
    }
    assert Matches(lines, 44, 1) == [ValidatedLine(first, 0)];
    assert Matches(lines, 44, 2) == [ValidatedLine(first, 0), ValidatedLine(second, 1)];
    assert Matches(lines, 30, 1) == [];
    assert Matches(lines, 30, 2) == [];
    assert Matches(lines, 36, 1) == [];
    assert Matches(lines, 36, 2) == [];
    StandardCatalogNonIncreasing();
    FirstFillingFormatWins(StandardCatalog, lines, 3, 2);
  }

  /** The specimen passport of ICAO 9303 read cleanly: both lines selected, in order. */
  lemma SpecimenPassportSelected()
    ensures Validated(StandardCatalog,
        [["P<UTOERIKSSON<<ANNA<MARIA<<<<<<<<<<<<<<<<<<<"], ["L898902C<3UTO6908061F9406236ZE184226B<<<<<10"]])
      == [ValidatedLine("P<UTOERIKSSON<<ANNA<MARIA<<<<<<<<<<<<<<<<<<<", 0),
          ValidatedLine("L898902C<3UTO6908061F9406236ZE184226B<<<<<10", 1)]
  {
    TwoPassportLinesSelected("P<UTOERIKSSON<<ANNA<MARIA<<<<<<<<<<<<<<<<<<<", "L898902C<3UTO6908061F9406236ZE184226B<<<<<10");
  }

  /** One 44-character and one 30-character observation fit no layout. */
  lemma {:induction false} MixedLengthsSelectNothing(first: string, second: string)
    requires |first| == 44 && |second| == 30
    requires forall i :: 0 <= i < |first| ==> !IsWhitespace(first[i])
    requires forall i :: 0 <= i < |second| ==> !IsWhitespace(second[i])
    ensures Validated(StandardCatalog, [[first], [second]]) == []
  {
    var lines := [[first], [second]];
    forall length | length in {30, 36, 44}
      ensures FirstFitting(lines[0], length) == if length == 44 then Some(first) else None
      ensures FirstFitting(lines[1], length) == if length == 30 then Some(second) else None
    {
      SingleCandidatePick(first, length);
      SingleCandidatePick(second, length);
    }
    assert Matches(lines, 44, 1) == [ValidatedLine(first, 0)];
    assert Matches(lines, 44, 2) == [ValidatedLine(first, 0)];
    assert Matches(lines, 30, 1) == [];
    assert Matches(lines, 30, 2) == [ValidatedLine(second, 1)];
    assert Matches(lines, 36, 1) == [];
    assert Matches(lines, 36, 2) == [];
    NoneFillsMeansEmpty(StandardCatalog, lines, 3);
  }
}
