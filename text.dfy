/**
 * The topic gate of the router: ASCII lower-casing, substring search and
 * the "is this about Mazda?" predicate built from them.
 */
module Text {

  /** The keyword the topic gate looks for, already in lower case. */
  const Keyword: string := "mazda"

  predicate IsUpperAscii(c: char) {
    'A' <= c <= 'Z'
  }

  /** Lower-cases one ASCII letter; every other character is left as it is. */
  function LowerChar(c: char): (r: char)
    ensures !IsUpperAscii(r)
    ensures IsUpperAscii(c) ==> r as int == c as int + 32
    ensures !IsUpperAscii(c) ==> r == c
  {
    if IsUpperAscii(c) then (c as int - 'A' as int + 'a' as int) as char else c
  }

  /** Lower-cases a whole string, character by character. */
  function ToLower(s: string): (r: string)
    ensures |r| == |s|
    ensures forall i :: 0 <= i < |s| ==> r[i] == LowerChar(s[i])
  {
    if s == [] then [] else [LowerChar(s[0])] + ToLower(s[1..])
  }

  /** `sub` occurs in `s` at position `i`. */
  predicate OccursAt(s: string, sub: string, i: int) {
    0 <= i && i + |sub| <= |s| && s[i..i + |sub|] == sub
  }

  /** Substring search; the empty string occurs in every string. */
  predicate Contains(s: string, sub: string)
    ensures Contains(s, sub) ==> |sub| <= |s|
    ensures sub == [] ==> Contains(s, sub)
  {
    assert sub == [] ==> OccursAt(s, sub, 0);
    exists i | 0 <= i <= |s| - |sub| :: OccursAt(s, sub, i)
  }

  /** The topic gate: the lower-cased text contains the keyword. */
  predicate IsMazdaRelated(text: string)
    ensures IsMazdaRelated(text) ==> |text| >= |Keyword|
  {
    Contains(ToLower(text), Keyword)
  }

  /** Lower-casing twice is lower-casing once. */
  lemma ToLowerIdempotent(s: string)
    ensures ToLower(ToLower(s)) == ToLower(s)
  {
  }

  /** Lower-casing commutes with taking a slice. */
  lemma ToLowerSlice(s: string, i: int, j: int)
    requires 0 <= i <= j <= |s|
    ensures ToLower(s)[i..j] == ToLower(s[i..j])
  {
  }

  /** The gate does not care about case: lower-casing the text first changes nothing. */
  lemma MazdaRelatedCaseInsensitive(s: string)
    ensures IsMazdaRelated(ToLower(s)) == IsMazdaRelated(s)
  {
    ToLowerIdempotent(s);
  }

  /** Positions `i .. i + 5` of `s` spell the keyword in some mix of upper and lower case. */
  predicate SpellsKeywordAt(s: string, i: int) {
    0 <= i && i + |Keyword| <= |s| && ToLower(s[i..i + |Keyword|]) == Keyword
  }

  /**
   * The gate holds exactly when some five consecutive characters of the
   * text spell the keyword in any mix of upper and lower case.
   */
  lemma {:induction false} MazdaRelatedIff(s: string)
    ensures IsMazdaRelated(s) <==> exists i | 0 <= i <= |s| - |Keyword| :: SpellsKeywordAt(s, i)
  {
    if IsMazdaRelated(s) {
      var i :| 0 <= i <= |s| - |Keyword| && OccursAt(ToLower(s), Keyword, i);
      ToLowerSlice(s, i, i + |Keyword|);
      assert SpellsKeywordAt(s, i);
    }
    if exists i | 0 <= i <= |s| - |Keyword| :: SpellsKeywordAt(s, i) {
      var i :| 0 <= i <= |s| - |Keyword| && SpellsKeywordAt(s, i);
      ToLowerSlice(s, i, i + |Keyword|);
      assert OccursAt(ToLower(s), Keyword, i);
    }
  }

  /** Any spelling of the keyword, whatever its case, that occurs in the text lets it through. */
  lemma ContainsSpellingMatches(s: string, spelling: string)
    requires ToLower(spelling) == Keyword
    requires Contains(s, spelling)
    ensures IsMazdaRelated(s)
  {
    var i :| 0 <= i <= |s| - |spelling| && OccursAt(s, spelling, i);
    MazdaRelatedIff(s);
    assert SpellsKeywordAt(s, i);
  }

  /** The three usual spellings all pass the gate. */
  lemma UsualSpellingsMatch(s: string)
    requires Contains(s, "mazda") || Contains(s, "MAZDA") || Contains(s, "Mazda")
    ensures IsMazdaRelated(s)
  {
    assert ToLower("mazda") == Keyword;
    assert ToLower("MAZDA") == Keyword;
    assert ToLower("Mazda") == Keyword;
    if Contains(s, "mazda") {
      ContainsSpellingMatches(s, "mazda");
    } else if Contains(s, "MAZDA") {
      ContainsSpellingMatches(s, "MAZDA");
    } else {
      ContainsSpellingMatches(s, "Mazda");
    }
  }

  /** A text with no letter z in either case cannot pass the gate. */
  lemma NoLetterZFails(s: string)
    requires forall i :: 0 <= i < |s| ==> s[i] != 'z' && s[i] != 'Z'
    ensures !IsMazdaRelated(s)
  {
    forall i | 0 <= i <= |s| - |Keyword|
      ensures !OccursAt(ToLower(s), Keyword, i)
    {
      assert ToLower(s)[i + 2] != Keyword[2];
      assert ToLower(s)[i..i + |Keyword|][2] != Keyword[2];
    }
  }
}
