/**
 * The sticker acknowledgement: the keywords of a sticker are folded into one
 * string, each behind a comma, and put into a fixed reply template.
 */
module Sticker {

  const ReplyPrefix: string := "收到貼圖訊息: "
  const PackageLabel: string := ", pkg: "
  const KeywordLabel: string := " kw: "
  const TextLabel: string := "  text: "

  /** The keyword string as the fold builds it: `"," + k` for every keyword, in order. */
  function Commas(keywords: seq<string>): (r: string)
    ensures keywords != [] ==> |r| > 0 && r[0] == ','
  {
    if keywords == [] then "" else "," + keywords[0] + Commas(keywords[1..])
  }

  /** The sum of `1 + |k|` over the keywords. */
  function CommaLength(keywords: seq<string>): nat {
    if keywords == [] then 0 else 1 + |keywords[0]| + CommaLength(keywords[1..])
  }

  /** The keyword string has one character per keyword character plus one comma per keyword. */
  lemma {:induction false} CommasLength(keywords: seq<string>)
    ensures |Commas(keywords)| == CommaLength(keywords)
    ensures keywords == [] <==> Commas(keywords) == ""
  {
    if keywords != [] {
      CommasLength(keywords[1..]);
    }
  }

  /** Folding two runs of keywords one after the other concatenates their strings. */
  lemma {:induction false} CommasAppend(a: seq<string>, b: seq<string>)
    ensures Commas(a + b) == Commas(a) + Commas(b)
  {
    if a == [] {
      assert a + b == b;
    } else {
      assert (a + b)[1..] == a[1..] + b;
      CommasAppend(a[1..], b);
    }
  }

  /**
   * The accumulating loop of the handler: start from the empty string and
   * append a comma and the keyword for every keyword.
   */
  method KeywordString(keywords: seq<string>) returns (kw: string)
    ensures kw == Commas(keywords)
    ensures |kw| == CommaLength(keywords)
  {
    kw := "";
    var i := 0;
    while i < |keywords|
      invariant 0 <= i <= |keywords|
      invariant kw == Commas(keywords[..i])
    {
      CommasAppend(keywords[..i], [keywords[i]]);
      assert keywords[..i + 1] == keywords[..i] + [keywords[i]];
      assert Commas([keywords[i]]) == "," + keywords[i];
      kw := kw + "," + keywords[i];
      i := i + 1;
    }
    assert keywords[..i] == keywords;
    CommasLength(keywords);
  }

  /** The reply template filled with the sticker id, the package id, the keyword string and the text. */
  function StickerReply(stickerId: string, packageId: string, kw: string, text: string): (r: string)
    ensures |r| == |ReplyPrefix| + |stickerId| + |PackageLabel| + |packageId| + |KeywordLabel| + |kw| + |TextLabel| + |text|
    ensures r[..|ReplyPrefix|] == ReplyPrefix && r[|r| - |text|..] == text
  {
    ReplyPrefix + stickerId + PackageLabel + packageId + KeywordLabel + kw + TextLabel + text
  }

  /**
   * Every field of the template sits at a position fixed by the lengths of
   * the fields before it, so a reply can be read back into its four fields.
   */
  lemma StickerReplyFields(stickerId: string, packageId: string, kw: string, text: string)
    ensures var r := StickerReply(stickerId, packageId, kw, text);
            var p := |ReplyPrefix|;
            var q := p + |stickerId| + |PackageLabel|;
            var k := q + |packageId| + |KeywordLabel|;
            var t := k + |kw| + |TextLabel|;
            && |r| == t + |text|
            && r[..p] == ReplyPrefix
            && r[p..p + |stickerId|] == stickerId
            && r[q..q + |packageId|] == packageId
            && r[k..k + |kw|] == kw
            && r[t..] == text
  {
  }

  /** A field in which every keyword sits: the characters up to the first comma. */
  function Field(s: string): (f: string)
    ensures |f| <= |s| && f == s[..|f|]
    ensures ',' !in f
    ensures |f| < |s| ==> s[|f|] == ','
  {
    if s == [] || s[0] == ',' then "" else [s[0]] + Field(s[1..])
  }

  /** Reads a keyword string back into its keywords: each comma starts one. */
  function SplitCommas(s: string): seq<string>
    decreases |s|
  {
    if s == [] || s[0] != ',' then []
    else
      var f := Field(s[1..]);
      [f] + SplitCommas(s[1 + |f|..])
  }

  lemma {:induction false} FieldBeforeComma(k: string, rest: string)
    requires ',' !in k
    requires rest == [] || rest[0] == ','
    ensures Field(k + rest) == k
  {
    if k != [] {
      assert (k + rest)[1..] == k[1..] + rest;
      FieldBeforeComma(k[1..], rest);
    }
  }

  /** Keywords without commas are recovered from the keyword string, in order. */
  lemma {:induction false} SplitCommasInverse(keywords: seq<string>)
    requires forall j :: 0 <= j < |keywords| ==> ',' !in keywords[j]
    ensures SplitCommas(Commas(keywords)) == keywords
  {
    if keywords != [] {
      var rest := Commas(keywords[1..]);
      CommasLength(keywords[1..]);
      assert rest == [] || rest[0] == ',';
      var s := Commas(keywords);
      assert s == "," + (keywords[0] + rest);
      assert s[1..] == keywords[0] + rest;
      FieldBeforeComma(keywords[0], rest);
      assert s[1 + |keywords[0]|..] == rest;
      SplitCommasInverse(keywords[1..]);
    }
  }
}
