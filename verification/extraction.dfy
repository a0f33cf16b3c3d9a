/**
 Field extraction from the text of a work-order report (`extract_data_from_pdf`).

 The four regular expressions the extractor uses are fixed, so each is written
 out as a predicate "matches at position i" with its capture group, and the two
 ways the extractor uses them are written as scanners: `Search` (the leftmost
 match, as `re.search` finds it) and `DatePositions` (the non-overlapping
 matches from left to right, as `re.findall` collects them).
 */
module Extraction {
  import opened Wrappers
  import opened Text

  /** The label before the work-order number: `WO Number: `. */
  const WoLabel: string := "WO Number: "
  /** The length of a facility code: "FM" and four digits. */
  const CodeWidth: nat := 6
  /** The length of a date token `dd.mm.yyyy`. */
  const DateWidth: nat := 10

  /** The four patterns of the extractor. */
  datatype Pattern =
    | WoNumber      // WO Number: (\d+)
    | FacilityCode  // (FM\d{4})
    | FacilityLine  // FM\d{4} (.+)
    | Date          // (\d{2}\.\d{2}\.\d{4})

  /**
   Whether pattern `p` matches `s` starting at position `i`. A greedy `\d+`
   or `.+` needs one character to match; how far it extends is left to the
   field it fills. `.` matches every character except a line feed.
   */
  predicate MatchesAt(p: Pattern, s: string, i: nat) {
    match p
    case WoNumber => LabelAt(s, i) && i + |WoLabel| < |s| && IsDigit(s[i + |WoLabel|])
    case FacilityCode => CodeAt(s, i)
    case FacilityLine => CodeAt(s, i) && i + CodeWidth + 1 < |s| && s[i + CodeWidth] == ' ' && s[i + CodeWidth + 1] != '\n'
    case Date => DateAt(s, i)
  }

  /** The label "WO Number: " starting at position `i`. */
  predicate LabelAt(s: string, i: nat) {
    && i + |WoLabel| <= |s|
    && s[i] == 'W' && s[i + 1] == 'O' && s[i + 2] == ' '
    && s[i + 3] == 'N' && s[i + 4] == 'u' && s[i + 5] == 'm' && s[i + 6] == 'b' && s[i + 7] == 'e' && s[i + 8] == 'r'
    && s[i + 9] == ':' && s[i + 10] == ' '
  }

  /** `FM\d{4}` starting at position `i`. */
  predicate CodeAt(s: string, i: nat) {
    && i + CodeWidth <= |s|
    && s[i] == 'F' && s[i + 1] == 'M'
    && IsDigit(s[i + 2]) && IsDigit(s[i + 3]) && IsDigit(s[i + 4]) && IsDigit(s[i + 5])
  }

  /** `\d{2}\.\d{2}\.\d{4}` starting at position `i`. */
  predicate DateAt(s: string, i: nat) {
    && i + 10 <= |s|
    && IsDigit(s[i]) && IsDigit(s[i + 1]) && s[i + 2] == '.'
    && IsDigit(s[i + 3]) && IsDigit(s[i + 4]) && s[i + 5] == '.'
    && IsDigit(s[i + 6]) && IsDigit(s[i + 7]) && IsDigit(s[i + 8]) && IsDigit(s[i + 9])
  }

  /** A token of the date pattern on its own: two digits, a dot, two digits, a dot, four digits. */
  predicate DateShaped(t: string) {
    |t| == DateWidth && DateAt(t, 0)
  }

  /** "FM" followed by four digits. */
  predicate IsFacilityCode(c: string) {
    |c| == CodeWidth && CodeAt(c, 0)
  }

  /** Some position of `s` matches `p`. */
  ghost predicate Occurs(p: Pattern, s: string) {
    exists i: nat :: MatchesAt(p, s, i)
  }

  /** `i` is the leftmost position of `s` where `p` matches. */
  ghost predicate Leftmost(p: Pattern, s: string, i: nat) {
    MatchesAt(p, s, i) && forall j: nat :: j < i ==> !MatchesAt(p, s, j)
  }

  /** The end of the longest run of digits starting at `j` (a greedy `\d+`). */
  function DigitRunEnd(s: string, j: nat): (e: nat)
    requires j <= |s|
    ensures j <= e <= |s|
    ensures forall k :: j <= k < e ==> IsDigit(s[k])
    ensures e == |s| || !IsDigit(s[e])
    decreases |s| - j
  {
    if j < |s| && IsDigit(s[j]) then DigitRunEnd(s, j + 1) else j
  }

  /** The end of the line that position `j` is on (a greedy `.+`): the next line feed, or the end of `s`. */
  function LineEnd(s: string, j: nat): (e: nat)
    requires j <= |s|
    ensures j <= e <= |s|
    ensures forall k :: j <= k < e ==> s[k] != '\n'
    ensures e == |s| || s[e] == '\n'
    decreases |s| - j
  {
    if j < |s| && s[j] != '\n' then LineEnd(s, j + 1) else j
  }

  /** What a greedy `.+` starting at `j` captures: the text up to the next line feed. */
  function RestOfLine(s: string, j: nat): (r: string)
    requires j <= |s|
    ensures '\n' !in r
    ensures j + |r| <= |s| && r == s[j..j + |r|] && (j + |r| == |s| || s[j + |r|] == '\n')
  {
    var e := LineEnd(s, j);
    assert forall k :: 0 <= k < e - j ==> s[j..e][k] == s[j + k];
    s[j..e]
  }

  /** Scan positions `from`, `from + 1`, ... for the first match of `p`. */
  function SearchFrom(p: Pattern, s: string, from: nat): (r: Option<nat>)
    ensures r.Some? ==> from <= r.value && MatchesAt(p, s, r.value)
    ensures r.Some? ==> forall j: nat :: from <= j < r.value ==> !MatchesAt(p, s, j)
    ensures r.None? ==> forall j: nat :: from <= j ==> !MatchesAt(p, s, j)
    decreases |s| + 1 - from
  {
    if from > |s| then None
    else if MatchesAt(p, s, from) then Some(from)
    else SearchFrom(p, s, from + 1)
  }

  /** `re.search`: the leftmost match of `p` in `s`, if there is one. */
  function Search(p: Pattern, s: string): (r: Option<nat>)
    ensures r.None? <==> !Occurs(p, s)
    ensures r.Some? ==> Leftmost(p, s, r.value)
  {
    SearchFrom(p, s, 0)
  }

  /**
   `re.findall` for the date pattern, as start positions: the leftmost match at
   or after `from`, then the leftmost at or after the end of that one, and so on
   until no match is left.
   */
  function DatePositions(s: string, from: nat): seq<nat>
    decreases |s| + 1 - from
  {
    match SearchFrom(Date, s, from)
    case None => []
    case Some(i) => [i] + DatePositions(s, i + DateWidth)
  }

  /** Where the scan for the `k`-th token began: `from`, or the end of token `k - 1`. */
  function GapStart(from: nat, ps: seq<nat>, k: nat): nat
    requires k < |ps|
  {
    if k == 0 then from else ps[k - 1] + DateWidth
  }

  /** Where the scan stopped finding tokens: `from`, or the end of the last token. */
  function ScanEnd(from: nat, ps: seq<nat>): nat {
    if ps == [] then from else ps[|ps| - 1] + DateWidth
  }

  /**
   `ps` are the successive leftmost searches from `from`: token `k` is the
   leftmost date at or after the end of token `k - 1` (at or after `from` for
   the first), and no date begins at or after the end of the last.
   */
  ghost predicate SuccessiveSearches(s: string, from: nat, ps: seq<nat>) {
    && (forall k :: 0 <= k < |ps| ==> SearchFrom(Date, s, GapStart(from, ps, k)) == Some(ps[k]))
    && SearchFrom(Date, s, ScanEnd(from, ps)) == None
  }

  /**
   The positions `findall` reports are exactly the successive leftmost
   searches, so the tokens are in order, never overlap and skip no date.
   */
  lemma {:induction false} DatePositionsAreSuccessiveSearches(s: string, from: nat)
    ensures SuccessiveSearches(s, from, DatePositions(s, from))
    decreases |s| + 1 - from
  {
    match SearchFrom(Date, s, from)
    case None =>
      assert DatePositions(s, from) == [];
    case Some(i) =>
      var ps, rest := DatePositions(s, from), DatePositions(s, i + DateWidth);
      DatePositionsAreSuccessiveSearches(s, i + DateWidth);
      assert ps == [i] + rest;
      assert ScanEnd(from, ps) == ScanEnd(i + DateWidth, rest);
      forall k | 0 <= k < |ps|
        ensures SearchFrom(Date, s, GapStart(from, ps, k)) == Some(ps[k])
      {
        if k > 0 {
          assert ps[k] == rest[k - 1];
          assert GapStart(from, ps, k) == GapStart(i + DateWidth, rest, k - 1);
        }
      }
  }

  /** The date tokens `re.findall` returns from position `from` on, in order of appearance. */
  function DateTokensFrom(s: string, from: nat): seq<string>
    decreases |s| + 1 - from
  {
    match SearchFrom(Date, s, from)
    case None => []
    case Some(i) => [s[i..i + DateWidth]] + DateTokensFrom(s, i + DateWidth)
  }

  /** The date tokens `re.findall` returns for the whole text. */
  function DateTokens(s: string): seq<string> {
    DateTokensFrom(s, 0)
  }

  /** `ts` holds the text of width ten at each position of `ps`, in the same order. */
  ghost predicate TokensAtPositions(s: string, ps: seq<nat>, ts: seq<string>) {
    && |ts| == |ps|
    && forall k :: 0 <= k < |ts| ==> ps[k] + DateWidth <= |s| && ts[k] == s[ps[k]..ps[k] + DateWidth]
  }

  /** Token `k` is the text at the `k`-th position of the scan. */
  lemma {:induction false} DateTokensFromAt(s: string, from: nat)
    ensures TokensAtPositions(s, DatePositions(s, from), DateTokensFrom(s, from))
    decreases |s| + 1 - from
  {
    match SearchFrom(Date, s, from)
    case None =>
      assert DatePositions(s, from) == [] && DateTokensFrom(s, from) == [];
    case Some(i) =>
      var ts, ps := DateTokensFrom(s, from), DatePositions(s, from);
      var ts', ps' := DateTokensFrom(s, i + DateWidth), DatePositions(s, i + DateWidth);
      DateTokensFromAt(s, i + DateWidth);
      assert ts == [s[i..i + DateWidth]] + ts';
      assert ps == [i] + ps';
      forall k | 0 <= k < |ts|
        ensures ps[k] + DateWidth <= |s| && ts[k] == s[ps[k]..ps[k] + DateWidth]
      {
        if k == 0 {
          assert ts[k] == s[i..i + DateWidth] && ps[k] == i;
        } else {
          assert ts[k] == ts'[k - 1] && ps[k] == ps'[k - 1];
        }
      }
  }

  /** The tokens of the whole text, read off at the positions of the scan from the start. */
  lemma DateTokensAt(s: string)
    ensures TokensAtPositions(s, DatePositions(s, 0), DateTokens(s))
  {
    DateTokensFromAt(s, 0);
  }

  /** A slice of width ten at a position where the date pattern matches has the date shape. */
  lemma DateSliceShaped(s: string, i: nat)
    requires DateAt(s, i)
    ensures DateShaped(s[i..i + DateWidth])
  {
    var t := s[i..i + DateWidth];
    assert forall k :: 0 <= k < DateWidth ==> t[k] == s[i + k];
  }

  /** Every token the scan from `from` returns has the date shape. */
  lemma {:induction false} DateTokensFromShaped(s: string, from: nat)
    ensures forall k :: 0 <= k < |DateTokensFrom(s, from)| ==> DateShaped(DateTokensFrom(s, from)[k])
    decreases |s| + 1 - from
  {
    match SearchFrom(Date, s, from)
    case None =>
    case Some(i) =>
      DateSliceShaped(s, i);
      DateTokensFromShaped(s, i + DateWidth);
      var ts := DateTokensFrom(s, from);
      assert ts == [s[i..i + DateWidth]] + DateTokensFrom(s, i + DateWidth);
      forall k | 0 < k < |ts| ensures DateShaped(ts[k]) {
        assert ts[k] == DateTokensFrom(s, i + DateWidth)[k - 1];
      }
  }

  /** Every token `findall` returns has the date shape. */
  lemma DateTokensShaped(s: string)
    ensures forall k :: 0 <= k < |DateTokens(s)| ==> DateShaped(DateTokens(s)[k])
  {
    DateTokensFromShaped(s, 0);
  }

  /** There are date tokens exactly when a date occurs somewhere in the text. */
  lemma DateTokensEmpty(s: string)
    ensures DateTokens(s) == [] <==> !Occurs(Date, s)
  {
    assert DateTokens(s) == [] <==> SearchFrom(Date, s, 0).None?;
  }

  /** `r` is the whole run of digits that starts at position `j` of `s`, and it is not empty. */
  predicate MaximalDigitRunAt(s: string, j: nat, r: string) {
    && r != []
    && j + |r| <= |s|
    && r == s[j..j + |r|]
    && AllDigits(r)
    && (j + |r| == |s| || !IsDigit(s[j + |r|]))
  }

  /**
   WO_NUMBER: the whole run of digits right after the leftmost "WO Number: "
   that a digit follows, or "" when there is none.
   */
  function WoNumberOf(text: string): (r: string)
    ensures r == "" <==> !Occurs(WoNumber, text)
  {
    match Search(WoNumber, text)
    case None => ""
    case Some(i) =>
      var e := DigitRunEnd(text, i + |WoLabel|);
      assert text[i + |WoLabel|..e][0] == text[i + |WoLabel|];
      text[i + |WoLabel|..e]
  }

  /** The slice up to the end of a digit run holds digits only. */
  lemma DigitRunSlice(s: string, j: nat)
    requires j <= |s|
    ensures AllDigits(s[j..DigitRunEnd(s, j)])
  {
    var e := DigitRunEnd(s, j);
    forall k | 0 <= k < e - j ensures IsDigit(s[j..e][k]) {
      assert s[j..e][k] == s[j + k];
    }
  }

  /** WO_NUMBER holds digits only (it is "" or a run of `\d`). */
  lemma WoNumberDigits(text: string)
    ensures AllDigits(WoNumberOf(text))
  {
    match Search(WoNumber, text)
    case None =>
    case Some(i) =>
      DigitRunSlice(text, i + |WoLabel|);
  }

  /** Where the work-order number comes from, given the leftmost label position `i`. */
  lemma WoNumberAt(text: string, i: nat)
    requires Leftmost(WoNumber, text, i)
    ensures MaximalDigitRunAt(text, i + |WoLabel|, WoNumberOf(text))
  {
    assert Search(WoNumber, text) == Some(i);
    var j := i + |WoLabel|;
    var e := DigitRunEnd(text, j);
    DigitRunSlice(text, j);
    assert WoNumberOf(text) == text[j..e];
    assert e > j;
  }

  /** FACILITY_CODE: "FM" and four digits from the leftmost place they occur, or "". */
  function FacilityCodeOf(text: string): (r: string)
    ensures r == "" <==> !Occurs(FacilityCode, text)
    ensures r == "" || IsFacilityCode(r)
  {
    match Search(FacilityCode, text)
    case None => ""
    case Some(i) => text[i..i + CodeWidth]
  }

  /** A non-empty FACILITY_CODE is six characters: "FM", then four digits. */
  lemma FacilityCodeShape(text: string)
    ensures var r := FacilityCodeOf(text);
      r == "" || (|r| == CodeWidth && r[..2] == "FM" && AllDigits(r[2..]))
  {
    var r := FacilityCodeOf(text);
    if r != "" {
      assert r[..2] == "FM";
      assert forall k :: 0 <= k < 4 ==> r[2..][k] == r[k + 2];
    }
  }

  /** The code is taken from the leftmost occurrence `i`. */
  lemma FacilityCodeAtLeftmost(text: string, i: nat)
    requires Leftmost(FacilityCode, text, i)
    ensures FacilityCodeOf(text) == text[i..i + CodeWidth]
  {
    assert Search(FacilityCode, text) == Some(i);
  }

  /**
   FACILITY_LOCATION: the rest of the line after the leftmost "FM" + four
   digits + space that is followed by something, stripped; "" when there is
   none.
   */
  function FacilityLocationOf(text: string): string {
    match Search(FacilityLine, text)
    case None => ""
    case Some(i) => Strip(RestOfLine(text, i + CodeWidth + 1))
  }

  /**
   The location is "" when no code line occurs; it holds no line feed and
   neither starts nor ends with whitespace.
   */
  lemma FacilityLocationShape(text: string)
    ensures var r := FacilityLocationOf(text);
      && (!Occurs(FacilityLine, text) ==> r == "")
      && '\n' !in r
      && (r == "" || (!IsSpace(r[0]) && !IsSpace(r[|r| - 1])))
  {
    match Search(FacilityLine, text)
    case None =>
    case Some(i) =>
      var line := RestOfLine(text, i + CodeWidth + 1);
      assert FacilityLocationOf(text) == Strip(line);
      StripChars(line);
      StripEnds(line);
  }

  /** The location is the stripped rest of the line of the leftmost match `i`. */
  lemma FacilityLocationAtLeftmost(text: string, i: nat)
    requires Leftmost(FacilityLine, text, i)
    ensures FacilityLocationOf(text) == Strip(RestOfLine(text, i + CodeWidth + 1))
  {
    assert Search(FacilityLine, text) == Some(i);
  }

  /**
   The location is only ever taken after an "FM" code, so a report without a
   facility code has no location either, and the code FACILITY_CODE reports is
   never to the right of the one the location follows.
   */
  lemma LocationNeedsCode(text: string)
    ensures FacilityCodeOf(text) == "" ==> FacilityLocationOf(text) == ""
    ensures Search(FacilityLine, text).Some? ==>
              Search(FacilityCode, text).Some? &&
              Search(FacilityCode, text).value <= Search(FacilityLine, text).value
  {
    match Search(FacilityLine, text)
    case None =>
    case Some(i) =>
      assert MatchesAt(FacilityCode, text, i);
  }

  /** The six fields of a report; a field whose pattern did not match is "". */
  datatype ExtractedFields = ExtractedFields(
    woNumber: string,
    facilityCode: string,
    facilityLocation: string,
    reportedOn: string,
    issuedOn: string,
    estCompletionDate: string)

  /** ISSUED_ON: the first date token, or "" when there is none. */
  function IssuedOnOf(text: string): string {
    var t := DateTokens(text);
    if t != [] then t[0] else ""
  }

  /** REPORTED_ON: the last date token, or "" when there is none. */
  function ReportedOnOf(text: string): string {
    var t := DateTokens(text);
    if t != [] then t[|t| - 1] else ""
  }

  /** EST_COMPLETION_DATE: the second date token, or "" when there are fewer than two. */
  function EstCompletionDateOf(text: string): string {
    var t := DateTokens(text);
    if |t| >= 2 then t[1] else ""
  }

  /** `extract_data_from_pdf` after the page text is joined: the six fields of the report. */
  function Extract(text: string): ExtractedFields {
    ExtractedFields(
      woNumber := WoNumberOf(text),
      facilityCode := FacilityCodeOf(text),
      facilityLocation := FacilityLocationOf(text),
      reportedOn := ReportedOnOf(text),
      issuedOn := IssuedOnOf(text),
      estCompletionDate := EstCompletionDateOf(text))
  }

  /**
   Extraction never fails: every field is present, and one whose pattern does
   not occur is "". An estimated completion date implies the other two dates.
   */
  lemma ExtractPresence(text: string)
    ensures var r := Extract(text);
      && (r.woNumber == "" <==> !Occurs(WoNumber, text))
      && (r.facilityCode == "" <==> !Occurs(FacilityCode, text))
      && (!Occurs(FacilityLine, text) ==> r.facilityLocation == "")
      && (r.issuedOn == "" <==> !Occurs(Date, text))
      && (r.reportedOn == "" <==> !Occurs(Date, text))
      && (r.estCompletionDate != "" ==> r.issuedOn != "" && r.reportedOn != "")
  {
    DateTokensEmpty(text);
    DateTokensShaped(text);
  }

  /**
   The keys of the report dictionaries: the six the extractor fills, then
   DOC_ID and GENERATED_DATE, which the batch adds.
   */
  datatype Key =
    | WoNumberKey | FacilityCodeKey | FacilityLocationKey
    | ReportedOnKey | IssuedOnKey | EstCompletionDateKey
    | DocIdKey | GeneratedDateKey

  /** The string each key has in the dictionaries, the CSV header and the template. */
  function KeyName(k: Key): string {
    match k
    case WoNumberKey => "WO_NUMBER"
    case FacilityCodeKey => "FACILITY_CODE"
    case FacilityLocationKey => "FACILITY_LOCATION"
    case ReportedOnKey => "REPORTED_ON"
    case IssuedOnKey => "ISSUED_ON"
    case EstCompletionDateKey => "EST_COMPLETION_DATE"
    case DocIdKey => "DOC_ID"
    case GeneratedDateKey => "GENERATED_DATE"
  }

  /** Different keys have different names, so a dictionary keyed by `Key` is one keyed by the names. */
  lemma KeyNameInjective(a: Key, b: Key)
    ensures KeyName(a) == KeyName(b) <==> a == b
  {
  }

  /** The six keys `extract_data_from_pdf` returns. */
  const FieldNames: set<Key> :=
    {WoNumberKey, FacilityCodeKey, FacilityLocationKey, ReportedOnKey, IssuedOnKey, EstCompletionDateKey}

  /** The fields as the dictionary the extractor returns. */
  function AsRecord(f: ExtractedFields): map<Key, string> {
    map[
      WoNumberKey := f.woNumber,
      FacilityCodeKey := f.facilityCode,
      FacilityLocationKey := f.facilityLocation,
      ReportedOnKey := f.reportedOn,
      IssuedOnKey := f.issuedOn,
      EstCompletionDateKey := f.estCompletionDate]
  }

  /** The dictionary always has all six keys, each with its field. */
  lemma AsRecordFields(f: ExtractedFields)
    ensures AsRecord(f).Keys == FieldNames
    ensures AsRecord(f)[WoNumberKey] == f.woNumber && AsRecord(f)[FacilityCodeKey] == f.facilityCode
    ensures AsRecord(f)[FacilityLocationKey] == f.facilityLocation && AsRecord(f)[ReportedOnKey] == f.reportedOn
    ensures AsRecord(f)[IssuedOnKey] == f.issuedOn && AsRecord(f)[EstCompletionDateKey] == f.estCompletionDate
  {
  }

  /**
   With date tokens t[0..N): ISSUED_ON is t[0] and REPORTED_ON is t[N-1];
   EST_COMPLETION_DATE is t[1] when N >= 2 and "" otherwise; all three are ""
   when N == 0, and ISSUED_ON equals REPORTED_ON when N == 1. Every date field
   that is not "" has the date shape.
   */
  lemma DateFields(text: string)
    ensures Extract(text).issuedOn == "" <==> !Occurs(Date, text)
    ensures Extract(text).reportedOn == "" <==> !Occurs(Date, text)
    ensures DateTokens(text) == [] ==>
              Extract(text).issuedOn == "" && Extract(text).reportedOn == "" && Extract(text).estCompletionDate == ""
    ensures DateTokens(text) != [] ==>
              Extract(text).issuedOn == DateTokens(text)[0] &&
              Extract(text).reportedOn == DateTokens(text)[|DateTokens(text)| - 1]
    ensures Extract(text).estCompletionDate == (if |DateTokens(text)| >= 2 then DateTokens(text)[1] else "")
    ensures |DateTokens(text)| == 1 ==> Extract(text).issuedOn == Extract(text).reportedOn
    ensures Extract(text).issuedOn != "" ==> DateShaped(Extract(text).issuedOn) && DateShaped(Extract(text).reportedOn)
    ensures Extract(text).estCompletionDate != "" ==> DateShaped(Extract(text).estCompletionDate)
  {
    DateTokensEmpty(text);
    DateTokensShaped(text);
  }

  /**
   Where the date tokens sit in the text: the first is the leftmost date, and
   the second begins at or after the end of the first.
   */
  lemma DatesInText(text: string, i: nat)
    requires Leftmost(Date, text, i)
    ensures DatePositions(text, 0) != [] && DatePositions(text, 0)[0] == i
    ensures |DatePositions(text, 0)| >= 2 ==> i + DateWidth <= DatePositions(text, 0)[1]
  {
    assert SearchFrom(Date, text, 0) == Some(i);
    assert DatePositions(text, 0) == [i] + DatePositions(text, i + DateWidth);
  }

  /** No date begins at or after the end of the last token: `findall` misses none at the end. */
  lemma NoDateAfterLast(text: string)
    ensures forall j: nat :: ScanEnd(0, DatePositions(text, 0)) <= j ==> !MatchesAt(Date, text, j)
  {
    DatePositionsAreSuccessiveSearches(text, 0);
  }

  /** ISSUED_ON is the text of the leftmost date. */
  lemma IssuedOnIsLeftmostDate(text: string, i: nat)
    requires Leftmost(Date, text, i)
    ensures i + DateWidth <= |text| && Extract(text).issuedOn == text[i..i + DateWidth]
  {
    assert SearchFrom(Date, text, 0) == Some(i);
    assert DateTokens(text) == [text[i..i + DateWidth]] + DateTokensFrom(text, i + DateWidth);
  }
}
