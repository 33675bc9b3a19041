/**
 * The client identifier check of the device table: validator.js's
 * isUUID(value, 4), which Sequelize runs before it stores a row. It accepts
 * the string form of section 3 of RFC 4122 (hex groups of 8, 4, 4, 4 and 12
 * digits joined by '-', either case) whose version nibble is 4 (section
 * 4.1.3) and whose variant bits are 10 (section 4.1.1).
 */
module Uuid {

  predicate IsHexDigit(c: char) {
    '0' <= c <= '9' || 'a' <= c <= 'f' || 'A' <= c <= 'F'
  }

  function HexValue(c: char): (v: nat)
    requires IsHexDigit(c)
    ensures v < 16
  {
    if '0' <= c <= '9' then (c as int) - ('0' as int)
    else if 'a' <= c <= 'f' then (c as int) - ('a' as int) + 10
    else (c as int) - ('A' as int) + 10
  }

  /** Positions of the four separators in the 36-character form. */
  predicate IsDashPosition(i: int) {
    i == 8 || i == 13 || i == 18 || i == 23
  }

  /** The version-4 pattern: 8-4-4-4-12 hex digits, '4' at 14, one of 8, 9, a, b at 19. */
  predicate IsUuidV4(s: string) {
    && |s| == 36
    && (forall i :: 0 <= i < |s| ==> if IsDashPosition(i) then s[i] == '-' else IsHexDigit(s[i]))
    && s[14] == '4'
    && s[19] in "89abAB"
  }

  predicate HexGroup(g: string, n: nat) {
    |g| == n && forall i :: 0 <= i < |g| ==> IsHexDigit(g[i])
  }

  /** The string form of section 3 of RFC 4122, built from its five fields. */
  function Join(timeLow: string, timeMid: string, timeHigh: string, clockSeq: string, node: string): string {
    timeLow + "-" + timeMid + "-" + timeHigh + "-" + clockSeq + "-" + node
  }

  /**
   * The first hex digit of the clock-sequence field is one of 8, 9, a, b
   * exactly when its two high bits are 1 and 0, the RFC 4122 variant.
   */
  lemma VariantDigit(c: char)
    requires IsHexDigit(c)
    ensures c in "89abAB" <==> HexValue(c) / 4 == 2
  {
  }

  /** A version-4 identifier splits into its five fields with version 4 and the RFC 4122 variant. */
  lemma FieldsOfV4(s: string)
    requires IsUuidV4(s)
    ensures s == Join(s[0..8], s[9..13], s[14..18], s[19..23], s[24..36])
    ensures HexGroup(s[0..8], 8) && HexGroup(s[9..13], 4) && HexGroup(s[14..18], 4)
    ensures HexGroup(s[19..23], 4) && HexGroup(s[24..36], 12)
    ensures HexValue(s[14]) == 4 && HexValue(s[19]) / 4 == 2
  {
    forall i | 0 <= i < 8 ensures IsHexDigit(s[0..8][i]) { assert s[0..8][i] == s[i]; }
    forall i | 0 <= i < 4 ensures IsHexDigit(s[9..13][i]) { assert s[9..13][i] == s[9 + i]; }
    forall i | 0 <= i < 4 ensures IsHexDigit(s[14..18][i]) { assert s[14..18][i] == s[14 + i]; }
    forall i | 0 <= i < 4 ensures IsHexDigit(s[19..23][i]) { assert s[19..23][i] == s[19 + i]; }
    forall i | 0 <= i < 12 ensures IsHexDigit(s[24..36][i]) { assert s[24..36][i] == s[24 + i]; }
    assert IsHexDigit(s[19]);
    VariantDigit(s[19]);
    var j := Join(s[0..8], s[9..13], s[14..18], s[19..23], s[24..36]);
    assert |j| == 36;
    forall i | 0 <= i < 36 ensures j[i] == s[i] {
      if i < 8 { assert j[i] == s[0..8][i]; }
      else if i == 8 { assert j[i] == '-' == s[i]; }
      else if i < 13 { assert j[i] == s[9..13][i - 9]; }
      else if i == 13 { assert j[i] == '-' == s[i]; }
      else if i < 18 { assert j[i] == s[14..18][i - 14]; }
      else if i == 18 { assert j[i] == '-' == s[i]; }
      else if i < 23 { assert j[i] == s[19..23][i - 19]; }
      else if i == 23 { assert j[i] == '-' == s[i]; }
      else { assert j[i] == s[24..36][i - 24]; }
    }
  }

  /** Conversely, five hex fields of the right widths with version 4 and the variant form a valid identifier. */
  lemma V4OfFields(timeLow: string, timeMid: string, timeHigh: string, clockSeq: string, node: string)
    requires HexGroup(timeLow, 8) && HexGroup(timeMid, 4) && HexGroup(timeHigh, 4)
    requires HexGroup(clockSeq, 4) && HexGroup(node, 12)
    requires HexValue(timeHigh[0]) == 4 && HexValue(clockSeq[0]) / 4 == 2
    ensures IsUuidV4(Join(timeLow, timeMid, timeHigh, clockSeq, node))
  {
    var j := Join(timeLow, timeMid, timeHigh, clockSeq, node);
    assert |j| == 36;
    forall i | 0 <= i < 36 ensures if IsDashPosition(i) then j[i] == '-' else IsHexDigit(j[i]) {
      if i < 8 { assert j[i] == timeLow[i]; }
      else if i == 8 { assert j[i] == '-'; }
      else if i < 13 { assert j[i] == timeMid[i - 9]; }
      else if i == 13 { assert j[i] == '-'; }
      else if i < 18 { assert j[i] == timeHigh[i - 14]; }
      else if i == 18 { assert j[i] == '-'; }
      else if i < 23 { assert j[i] == clockSeq[i - 19]; }
      else if i == 23 { assert j[i] == '-'; }
      else { assert j[i] == node[i - 24]; }
    }
    assert j[14] == timeHigh[0] && j[19] == clockSeq[0];
    VariantDigit(clockSeq[0]);
  }

  /** The identifier of the ingestion example is accepted. */
  lemma ExampleIdentifier()
    ensures IsUuidV4("11111111-1111-4111-8111-111111111111")
  {
    var s := "11111111-1111-4111-8111-111111111111";
    forall i | 0 <= i < |s| ensures if IsDashPosition(i) then s[i] == '-' else IsHexDigit(s[i]) {
      assert s[i] in "-148";
    }
  }

  /** The identifier a version-1 generator would produce is refused. */
  lemma VersionOneRefused()
    ensures !IsUuidV4("11111111-1111-1111-8111-111111111111")
  {
  }
}
