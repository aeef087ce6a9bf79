/** Exactly which persisted ids are printed ones, told from their text, and so which accepted ids print again unchanged. */
module PrintedIds {
  import opened Collections
  import opened Naming
  import opened PlayerIds

  // ---- splitting at dashes and joining again ----

  function Dashed(parts: seq<string>): string
    requires parts != []
  {
    if |parts| == 1 then parts[0] else parts[0] + "-" + Dashed(parts[1..])
  }

  lemma {:induction false} SplitJoins(s: string)
    ensures Dashed(Split(s)) == s && forall part :: part in Split(s) ==> NoDash(part)
  {
    if s != "" {
      var rest := Split(s[1..]);
      SplitJoins(s[1..]);
      assert rest[0] in rest && s == [s[0]] + s[1..];
      if s[0] == '-' {
        assert ([""] + rest)[1..] == rest;
      } else {
        var parts := [[s[0]] + rest[0]] + rest[1..];
        assert parts[1..] == rest[1..];
        assert forall part :: part in rest[1..] ==> part in rest;
        assert Dashed(parts) == [s[0]] + Dashed(rest);
      }
    }
  }

  lemma DashedFive(parts: seq<string>)
    requires |parts| == 5
    ensures Dashed(parts) == parts[0] + "-" + parts[1] + "-" + parts[2] + "-" + parts[3] + "-" + parts[4]
  {
    assert parts[1..][1..] == parts[2..] && parts[2..][1..] == parts[3..] && parts[3..][1..] == parts[4..];
    assert Dashed(parts[4..]) == parts[4];
    assert Dashed(parts[3..]) == parts[3] + "-" + parts[4];
    assert Dashed(parts[2..]) == parts[2] + "-" + Dashed(parts[3..]);
    assert Dashed(parts[1..]) == parts[1] + "-" + Dashed(parts[2..]);
    RegroupFive(parts[0], parts[1], parts[2], parts[3], parts[4]);
  }

  // ---- join segments by their text ----

  predicate PlainDigit(c: char) {
    '0' <= c <= '9' || 'a' <= c <= 'f'
  }

  predicate PlainDigits(s: string) {
    forall i :: 0 <= i < |s| ==> PlainDigit(s[i])
  }

  /** At least twelve lower-case digits, and no zero in front of more than twelve. */
  predicate JoinText(s: string) {
    |s| >= 12 && PlainDigits(s) && (|s| > 12 ==> s[0] != '0')
  }

  lemma {:induction false} NumeralText(n: nat)
    ensures PlainDigits(Numeral(n, 16)) && (n > 0 ==> Numeral(n, 16)[0] != '0') && (n < 16 ==> |Numeral(n, 16)| == 1)
  {
    if n >= 16 {
      DivMod(n, 16);
      NumeralText(n / 16);
    }
  }

  /** Plain digits without a leading zero are the numeral of the number they denote. */
  lemma {:induction false} NumeralOfValue(s: string) returns (n: nat)
    requires PlainDigits(s) && s != "" && (|s| > 1 ==> s[0] != '0')
    ensures Numeral(n, 16) == s
  {
    var low := DigitValue(s[|s| - 1]).value;
    assert Digit(low) == s[|s| - 1];
    if |s| == 1 {
      n := low;
    } else {
      var front := s[..|s| - 1];
      var high := NumeralOfValue(front);
      assert high != 0;
      n := high * 16 + low;
      assert n / 16 == high && n % 16 == low;
      assert s == front + [s[|s| - 1]];
    }
  }

  lemma ZerosInFront(s: string) returns (k: nat)
    requires |s| > 0
    ensures k < |s| && (forall i :: 0 <= i < k ==> s[i] == '0') && (k < |s| - 1 ==> s[k] != '0')
  {
    k := 0;
    while k < |s| - 1 && s[k] == '0'
      invariant k < |s| && forall i :: 0 <= i < k ==> s[i] == '0'
    {
      k := k + 1;
    }
  }

  lemma PaddedText(index: nat)
    ensures JoinText(JoinSegment(index))
  {
    NumeralText(index);
    var numeral := Numeral(index, 16);
    if |numeral| > 12 { assert JoinSegment(index) == numeral; }
  }

  lemma TextIsPadded(s: string) returns (index: nat)
    requires JoinText(s)
    ensures s == JoinSegment(index)
  {
    var k := ZerosInFront(s);
    index := NumeralOfValue(s[k..]);
    assert s == s[..k] + s[k..];
  }

  /** The texts that some join index prints. */
  lemma JoinSegmentIff(s: string)
    ensures (exists index: nat :: s == JoinSegment(index)) <==> JoinText(s)
  {
    forall index: nat | s == JoinSegment(index) ensures JoinText(s) { PaddedText(index); }
    if JoinText(s) {
      var index := TextIsPadded(s);
    }
  }

  // ---- whole ids ----

  predicate PrefixShaped(parts: seq<string>) {
    |parts| == 5 && |parts[0]| == 8 && |parts[1]| == 4 && |parts[2]| == 4 && |parts[3]| == 4
  }

  lemma TwentyAreTheirPrefix(matchId: string)
    requires |matchId| == 20 && NoDash(matchId)
    ensures MatchPrefix(matchId) == matchId
  {
    FilterAll((c: char) => c != '-', matchId);
    assert matchId[..16] + matchId[16..] == matchId;
  }

  lemma TwentyInParts(a: string, b: string, c: string, d: string)
    requires |a| == 8 && |b| == |c| == |d| == 4
    ensures var all := a + b + c + d; |all| == 20 && all[..8] == a && all[8..12] == b && all[12..16] == c && all[16..20] == d
  {
  }

  /** The four segments of the match, run together, are a match id that prints them. */
  lemma PrintedAgain(id: string, index: nat)
    requires var parts := Split(id); PrefixShaped(parts) && parts[4] == JoinSegment(index)
    ensures var parts := Split(id); id == MatchScopedId(parts[0] + parts[1] + parts[2] + parts[3], index)
  {
    var parts := Split(id);
    SplitJoins(id);
    assert parts[0] in parts && parts[1] in parts && parts[2] in parts && parts[3] in parts;
    TwentyInParts(parts[0], parts[1], parts[2], parts[3]);
    TwentyAreTheirPrefix(parts[0] + parts[1] + parts[2] + parts[3]);
    DashedFive(parts);
  }

  /** An id is printed for some match and index exactly when its segments have the printed lengths and the last is a join segment. */
  lemma PrintedIff(id: string)
    ensures (exists matchId, index: nat :: id == MatchScopedId(matchId, index))
      <==> PrefixShaped(Split(id)) && exists index: nat :: Split(id)[4] == JoinSegment(index)
    ensures (exists matchId, index: nat :: id == MatchScopedId(matchId, index))
      <==> PrefixShaped(Split(id)) && JoinText(Split(id)[4])
  {
    forall matchId, index: nat | id == MatchScopedId(matchId, index) ensures PrefixShaped(Split(id)) && Split(id)[4] == JoinSegment(index) {
      PrintedSegments(matchId, index);
    }
    if PrefixShaped(Split(id)) {
      JoinSegmentIff(Split(id)[4]);
      if JoinText(Split(id)[4]) {
        var index: nat :| Split(id)[4] == JoinSegment(index);
        PrintedAgain(id, index);
      }
    }
  }

  /** An accepted id is what printing its player's index gives back, for some match, exactly when it has the printed text. */
  lemma AcceptedPrintsAgainIff(id: string, n: nat, canonicalIds: set<string>)
    requires Canonical(id, canonicalIds) == Some(Numbered(PLAYER_PREFIX, n))
    ensures (exists matchId :: id == MatchScopedId(matchId, n)) <==> PrefixShaped(Split(id)) && JoinText(Split(id)[4])
  {
    PrintedIff(id);
    if PrefixShaped(Split(id)) && JoinText(Split(id)[4]) {
      var matchId, index: nat :| id == MatchScopedId(matchId, index);
      PrintedIdReadsBack(matchId, index, canonicalIds);
      NumberedInjective(PLAYER_PREFIX, index, n);
    }
  }
}
