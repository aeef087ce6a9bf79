/** Persisted player ids: printing a match-scoped id, reading the join index back, and mapping a whole roster. */
module PlayerIds {
  import opened Collections
  import opened Naming

  const PLAYER_PREFIX := "player-"

  // ---- strings ----

  /** The parts of a string between dashes; there is always at least one. */
  function Split(s: string): (parts: seq<string>)
    ensures |parts| >= 1
  {
    if s == "" then [""]
    else
      var rest := Split(s[1..]);
      if s[0] == '-' then [""] + rest else [[s[0]] + rest[0]] + rest[1..]
  }

  function Undashed(s: string): string {
    Filter((c: char) => c != '-', s)
  }

  ghost predicate NoDash(s: string) {
    '-' !in s
  }

  function PadLeft(s: string, width: nat, c: char): string {
    seq(if |s| < width then width - |s| else 0, i => c) + s
  }

  function PadRight(s: string, width: nat, c: char): string {
    s + seq(if |s| < width then width - |s| else 0, i => c)
  }

  function FirstChars(s: string, n: nat): string {
    if |s| <= n then s else s[..n]
  }

  function LastChars(s: string, n: nat): string {
    if |s| <= n then s else s[|s| - n..]
  }

  // ---- printing ----

  function JoinSegment(index: nat): string {
    PadLeft(Numeral(index, 16), 12, '0')
  }

  /** The 20 characters taken from the match id: its first 16 and last 4, filled up with f. */
  function MatchPrefix(matchId: string): (prefix: string)
    ensures |prefix| == 20
  {
    var cleaned := Undashed(matchId);
    PadRight(FirstChars(cleaned, 16) + LastChars(cleaned, 4), 20, 'f')
  }

  /** The prefix holds the first sixteen characters of the match id and then its last four, dashes not counted, and ends in f's. */
  lemma PrefixInWords(matchId: string, i: nat)
    requires i < 20
    ensures var text := Filter((c: char) => c != '-', matchId);
      var head, tail := if |text| < 16 then |text| else 16, if |text| < 4 then |text| else 4;
      MatchPrefix(matchId)[i] ==
        if i < head then text[i] else if i < head + tail then text[|text| - tail + (i - head)] else 'f'
  {
  }

  function MatchScopedId(matchId: string, index: nat): string {
    var prefix := MatchPrefix(matchId);
    prefix[..8] + "-" + prefix[8..12] + "-" + prefix[12..16] + "-" + prefix[16..20] + "-" + JoinSegment(index)
  }

  function JoinedId(index: nat): string {
    "ffffffff-ffff-ffff-ffff-" + JoinSegment(index)
  }

  // ---- reading ----

  predicate IsSpace(c: char) {
    c == ' ' || '\t' <= c <= '\r' || '\U{1c}' <= c <= '\U{1f}'
  }

  function StripLeft(s: string): string {
    if s != "" && IsSpace(s[0]) then StripLeft(s[1..]) else s
  }

  function StripRight(s: string): string {
    if s != "" && IsSpace(s[|s| - 1]) then StripRight(s[..|s| - 1]) else s
  }

  /** Digits with single underscores between them, without the underscores. */
  function Ungrouped(s: string): Option<string> {
    if s == "" || s[|s| - 1] == '_' then None
    else if |s| == 1 then Some(s)
    else
      var front := if s[|s| - 2] == '_' then s[..|s| - 2] else s[..|s| - 1];
      match Ungrouped(front)
      case None => None
      case Some(digits) => Some(digits + [s[|s| - 1]])
  }

  function Digits(s: string): Option<nat> {
    match Ungrouped(s)
    case None => None
    case Some(digits) => Value(digits, 16)
  }

  predicate Prefixed(s: string) {
    |s| >= 2 && s[0] == '0' && (s[1] == 'x' || s[1] == 'X')
  }

  /**
   * A dash-free segment read as a base-16 integer, as leniently as the runtime does: surrounding blanks, a plus sign,
   * a 0x prefix and single underscores are all accepted.
   */
  function ParseHex(segment: string): Option<nat> {
    var text := StripRight(StripLeft(segment));
    var unsigned := if text != "" && text[0] == '+' then text[1..] else text;
    if !Prefixed(unsigned) then Digits(unsigned)
    else if |unsigned| > 2 && unsigned[2] == '_' then Digits(unsigned[3..])
    else Digits(unsigned[2..])
  }

  function Canonical(persisted: string, canonicalIds: set<string>): Option<string> {
    var segments := Split(persisted);
    if |segments| != 5 then None
    else match ParseHex(segments[4])
      case None => None
      case Some(index) =>
        if Numbered(PLAYER_PREFIX, index) in canonicalIds then Some(Numbered(PLAYER_PREFIX, index)) else None
  }

  // ---- what printing guarantees ----

  lemma {:induction false} SplitDashFree(s: string)
    requires NoDash(s)
    ensures Split(s) == [s]
  {
    if s != "" {
      SplitDashFree(s[1..]);
      assert s == [s[0]] + s[1..];
    }
  }

  lemma {:induction false} SplitAtDash(a: string, b: string)
    requires NoDash(a)
    ensures Split(a + "-" + b) == [a] + Split(b)
  {
    var all := a + "-" + b;
    if a == "" {
      assert all[1..] == b;
    } else {
      assert all[1..] == a[1..] + "-" + b;
      SplitAtDash(a[1..], b);
      assert a == [a[0]] + a[1..];
    }
  }

  lemma {:induction false} NumeralIsPlain(n: nat)
    ensures forall c :: c in Numeral(n, 16) ==> DigitValue(c).Some? && c != '-' && c != '+' && c != '_' && !IsSpace(c) && c != 'x' && c != 'X'
  {
    if n >= 16 {
      DivMod(n, 16);
      NumeralIsPlain(n / 16);
    }
  }

  lemma SegmentIsPlain(n: nat)
    ensures forall c :: c in JoinSegment(n) ==> c != '-' && c != '+' && c != '_' && !IsSpace(c) && c != 'x' && c != 'X'
    ensures JoinSegment(n) != ""
  {
    NumeralIsPlain(n);
  }

  lemma {:induction false} UngroupedPlain(s: string)
    requires s != "" && '_' !in s
    ensures Ungrouped(s) == Some(s)
  {
    if |s| > 1 {
      assert s[|s| - 2] in s;
      UngroupedPlain(s[..|s| - 1]);
      assert s == s[..|s| - 1] + [s[|s| - 1]];
    }
  }

  lemma {:induction false} ValueOfPadded(zeros: string, s: string)
    requires forall i :: 0 <= i < |zeros| ==> zeros[i] == '0'
    ensures Value(zeros + s, 16) == Value(s, 16)
  {
    if s == "" {
      assert zeros + s == zeros;
      ValueOfZeros(zeros);
    } else {
      assert (zeros + s)[..|zeros + s| - 1] == zeros + s[..|s| - 1];
      ValueOfPadded(zeros, s[..|s| - 1]);
    }
  }

  lemma {:induction false} ValueOfZeros(zeros: string)
    requires forall i :: 0 <= i < |zeros| ==> zeros[i] == '0'
    ensures Value(zeros, 16) == Some(0)
  {
    if zeros != "" {
      ValueOfZeros(zeros[..|zeros| - 1]);
    }
  }

  /** Plain digits read as the number they denote: there is nothing for the reader to be lenient about. */
  lemma PlainReads(segment: string)
    requires segment != "" && forall c :: c in segment ==> c != '+' && c != '_' && !IsSpace(c) && c != 'x' && c != 'X'
    ensures ParseHex(segment) == Value(segment, 16)
  {
    assert segment[0] in segment && segment[|segment| - 1] in segment;
    if |segment| >= 2 { assert segment[1] in segment; }
    UngroupedPlain(segment);
  }

  /** The printed join segment reads back as the index, however many digits it needs. */
  lemma SegmentReadsBack(index: nat)
    ensures ParseHex(JoinSegment(index)) == Some(index)
  {
    var segment := JoinSegment(index);
    SegmentIsPlain(index);
    PlainReads(segment);
    ValueOfPadded(segment[..|segment| - |Numeral(index, 16)|], Numeral(index, 16));
    assert segment == segment[..|segment| - |Numeral(index, 16)|] + Numeral(index, 16);
    ValueOfNumeral(index, 16);
  }

  lemma PrefixHasNoDash(matchId: string)
    ensures NoDash(MatchPrefix(matchId))
  {
    FilterMember((c: char) => c != '-', matchId, '-');
  }

  /** Five parts of 8, 4, 4, 4 and at least 12 characters. */
  lemma PrintedSegments(matchId: string, index: nat)
    ensures var segments := Split(MatchScopedId(matchId, index));
      && |segments| == 5 && |segments[0]| == 8 && |segments[1]| == |segments[2]| == |segments[3]| == 4
      && segments[4] == JoinSegment(index) && |segments[4]| >= 12
  {
    PrefixHasNoDash(matchId);
    SegmentIsPlain(index);
    SplitPrefixed(MatchPrefix(matchId), JoinSegment(index));
  }

  lemma SplitPrefixed(prefix: string, last: string)
    requires |prefix| == 20 && NoDash(prefix) && NoDash(last)
    ensures Split(prefix[..8] + "-" + prefix[8..12] + "-" + prefix[12..16] + "-" + prefix[16..20] + "-" + last)
         == [prefix[..8], prefix[8..12], prefix[12..16], prefix[16..20], last]
  {
    var a, b, c, d := prefix[..8], prefix[8..12], prefix[12..16], prefix[16..20];
    SplitFive(a, b, c, d, last);
    RegroupFive(a, b, c, d, last);
  }

  lemma RegroupFive(a: string, b: string, c: string, d: string, e: string)
    ensures a + "-" + b + "-" + c + "-" + d + "-" + e == a + "-" + (b + "-" + (c + "-" + (d + "-" + e)))
  {
  }

  lemma SplitFive(a: string, b: string, c: string, d: string, e: string)
    requires NoDash(a) && NoDash(b) && NoDash(c) && NoDash(d) && NoDash(e)
    ensures Split(a + "-" + (b + "-" + (c + "-" + (d + "-" + e)))) == [a, b, c, d, e]
  {
    SplitDashFree(e);
    SplitAtDash(d, e);
    SplitAtDash(c, d + "-" + e);
    SplitAtDash(b, c + "-" + (d + "-" + e));
    SplitAtDash(a, b + "-" + (c + "-" + (d + "-" + e)));
  }

  /** Reading a printed id gives back the player of its join index, for every match id and every index on the roster. */
  lemma PrintedIdReadsBack(matchId: string, index: nat, canonicalIds: set<string>)
    ensures Canonical(MatchScopedId(matchId, index), canonicalIds)
      == if Numbered(PLAYER_PREFIX, index) in canonicalIds then Some(Numbered(PLAYER_PREFIX, index)) else None
  {
    PrintedSegments(matchId, index);
    SegmentReadsBack(index);
  }

  lemma JoinedIdReadsBack(index: nat, canonicalIds: set<string>)
    ensures Canonical(JoinedId(index), canonicalIds)
      == if Numbered(PLAYER_PREFIX, index) in canonicalIds then Some(Numbered(PLAYER_PREFIX, index)) else None
  {
    SegmentIsPlain(index);
    SplitFive("ffffffff", "ffff", "ffff", "ffff", JoinSegment(index));
    assert JoinedId(index) == "ffffffff" + "-" + ("ffff" + "-" + ("ffff" + "-" + ("ffff" + "-" + JoinSegment(index))));
    SegmentReadsBack(index);
  }

  /** Distinct indexes print distinct ids, even across matches. */
  lemma PrintedIdsDistinct(matchA: string, matchB: string, i: nat, j: nat)
    requires MatchScopedId(matchA, i) == MatchScopedId(matchB, j)
    ensures i == j
  {
    PrintedSegments(matchA, i);
    PrintedSegments(matchB, j);
    SegmentReadsBack(i);
    SegmentReadsBack(j);
  }

  lemma LenientSegment()
    ensures ParseHex("+0x_1") == Some(1)
  {
    assert "+0x_1"[1..] == "0x_1";
    assert "0x_1"[3..] == "1";
    assert "1"[..0] == "";
    assert Value("", 16) == Some(0);
    assert StripLeft("+0x_1") == "+0x_1" && StripRight("+0x_1") == "+0x_1";
  }

  /** Reading does not undo into printing: the reader also accepts ids that no index prints. */
  lemma ReaderIsLenient(matchId: string, index: nat)
    ensures Canonical("a-b-c-d-+0x_1", {Numbered(PLAYER_PREFIX, 1)}) == Some(Numbered(PLAYER_PREFIX, 1))
    ensures MatchScopedId(matchId, index) != "a-b-c-d-+0x_1"
  {
    LenientSplit();
    LenientSegment();
    PrintedSegments(matchId, index);
  }

  lemma LenientSplit()
    ensures Split("a-b-c-d-+0x_1") == ["a", "b", "c", "d", "+0x_1"]
  {
    SplitFive("a", "b", "c", "d", "+0x_1");
    assert "a-b-c-d-+0x_1" == "a" + "-" + ("b" + "-" + ("c" + "-" + ("d" + "-" + "+0x_1")));
  }

  // ---- mapping a roster ----

  type Reader = string -> Option<string>

  function ReaderOf(canonicalIds: set<string>): Reader {
    (id: string) => Canonical(id, canonicalIds)
  }

  /** Two persisted ids, or one listed twice, stand for the same player. */
  ghost predicate Clash(persisted: seq<string>, read: Reader) {
    exists i, j :: 0 <= i < j < |persisted| && read(persisted[i]).Some? && read(persisted[i]) == read(persisted[j])
  }

  /** The mapping holds exactly the readable ids, each with the player it reads as. */
  ghost predicate MapsReadable(mapping: map<string, string>, persisted: seq<string>, read: Reader) {
    && (forall id :: id in mapping <==> id in persisted && read(id).Some?)
    && (forall id :: id in mapping ==> read(id) == Some(mapping[id]))
  }

  method BuildPersistedPlayerMapping(canonicalIds: seq<string>, persisted: seq<string>) returns (mapping: map<string, string>)
    ensures if Clash(persisted, ReaderOf(Elements(canonicalIds))) then mapping == map[]
            else MapsReadable(mapping, persisted, ReaderOf(Elements(canonicalIds)))
  {
    var known := set id | id in canonicalIds;
    assert known == Elements(canonicalIds);
    mapping := MapReadable(persisted, ReaderOf(known));
  }

  method MapReadable(persisted: seq<string>, read: Reader) returns (mapping: map<string, string>)
    ensures if Clash(persisted, read) then mapping == map[] else MapsReadable(mapping, persisted, read)
  {
    mapping := map[];
    var seen: set<string> := {};
    var i := 0;
    while i < |persisted|
      invariant 0 <= i <= |persisted|
      invariant !Clash(persisted[..i], read) && MapsReadable(mapping, persisted[..i], read)
      invariant forall p :: p in seen <==> SeenBefore(persisted, i, read, p)
    {
      var id := persisted[i];
      assert persisted[..i + 1] == persisted[..i] + [id];
      var canonical := read(id);
      if canonical.Some? && canonical.value in seen {
        var k :| 0 <= k < i && read(persisted[k]) == Some(canonical.value);
        return map[];
      }
      NoNewClash(persisted, i, read);
      if canonical.Some? {
        mapping := mapping[id := canonical.value];
        seen := seen + {canonical.value};
      }
      forall p ensures SeenBefore(persisted, i + 1, read, p) <==> SeenBefore(persisted, i, read, p) || canonical == Some(p) { }
      i := i + 1;
    }
    assert persisted[..i] == persisted;
  }

  ghost predicate SeenBefore(persisted: seq<string>, i: nat, read: Reader, p: string)
    requires i <= |persisted|
  {
    exists k :: 0 <= k < i && read(persisted[k]) == Some(p)
  }

  lemma NoNewClash(persisted: seq<string>, i: nat, read: Reader)
    requires i < |persisted| && !Clash(persisted[..i], read)
    requires read(persisted[i]).Some? ==> !SeenBefore(persisted, i, read, read(persisted[i]).value)
    ensures !Clash(persisted[..i + 1], read)
  {
    var more := persisted[..i + 1];
    forall a, b | 0 <= a < b < |more| && read(more[a]).Some? ensures read(more[a]) != read(more[b]) {
      assert more[a] == persisted[..i][a];
      if b < i { assert more[b] == persisted[..i][b]; }
    }
  }

  function PrintedRoster(matchId: string, n: nat): seq<string> {
    seq(n, i requires 0 <= i => MatchScopedId(matchId, i + 1))
  }

  ghost function CanonicalRoster(n: nat): set<string> {
    set i: nat | 1 <= i <= n :: Numbered(PLAYER_PREFIX, i)
  }

  /** Each printed id of the roster reads as the player of its place. */
  ghost predicate ReadsInPlace(roster: seq<string>, read: Reader) {
    forall i :: 0 <= i < |roster| ==> read(roster[i]) == Some(Numbered(PLAYER_PREFIX, i + 1))
  }

  lemma RosterReadsInPlace(matchId: string, n: nat)
    ensures ReadsInPlace(PrintedRoster(matchId, n), ReaderOf(CanonicalRoster(n)))
  {
    var known := CanonicalRoster(n);
    forall i: nat | i < n ensures ReaderOf(known)(PrintedRoster(matchId, n)[i]) == Some(Numbered(PLAYER_PREFIX, i + 1)) {
      PrintedIdReadsBack(matchId, i + 1, known);
      assert Numbered(PLAYER_PREFIX, i + 1) in known;
    }
  }

  lemma NoClashInPlace(roster: seq<string>, read: Reader)
    requires ReadsInPlace(roster, read)
    ensures !Clash(roster, read)
  {
    forall i, j | 0 <= i < j < |roster| ensures read(roster[i]) != read(roster[j]) {
      if read(roster[i]) == read(roster[j]) { NumberedInjective(PLAYER_PREFIX, i + 1, j + 1); }
    }
  }

  /** The mapping of a full roster of printed ids pairs them one to one with player-1 to player-n. */
  lemma RosterMapsOneToOne(matchId: string, n: nat, mapping: map<string, string>)
    requires var read := ReaderOf(CanonicalRoster(n));
      if Clash(PrintedRoster(matchId, n), read) then mapping == map[] else MapsReadable(mapping, PrintedRoster(matchId, n), read)
    ensures mapping.Keys == Elements(PrintedRoster(matchId, n))
    ensures forall i :: 0 <= i < n ==> mapping[PrintedRoster(matchId, n)[i]] == Numbered(PLAYER_PREFIX, i + 1)
    ensures forall a, b :: a in mapping && b in mapping && mapping[a] == mapping[b] ==> a == b
  {
    RosterReadsInPlace(matchId, n);
    MapsInPlace(PrintedRoster(matchId, n), ReaderOf(CanonicalRoster(n)), mapping);
  }

  lemma MapsInPlace(roster: seq<string>, read: Reader, mapping: map<string, string>)
    requires ReadsInPlace(roster, read) && (!Clash(roster, read) ==> MapsReadable(mapping, roster, read))
    ensures mapping.Keys == Elements(roster)
    ensures forall i :: 0 <= i < |roster| ==> roster[i] in mapping && mapping[roster[i]] == Numbered(PLAYER_PREFIX, i + 1)
    ensures forall a, b :: a in mapping && b in mapping && mapping[a] == mapping[b] ==> a == b
  {
    NoClashInPlace(roster, read);
    forall id | id in roster ensures read(id).Some? {
      var i :| 0 <= i < |roster| && roster[i] == id;
    }
    forall a, b | a in mapping && b in mapping && mapping[a] == mapping[b] ensures a == b {
      var i :| 0 <= i < |roster| && roster[i] == a;
      var j :| 0 <= j < |roster| && roster[j] == b;
      NumberedInjective(PLAYER_PREFIX, i + 1, j + 1);
    }
  }
}
