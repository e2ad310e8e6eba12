/**
 * The ad service: the ads of the categories a page names, or, failing
 * those, two ads picked at random from its fixed table.
 */
module Ads {
  datatype Ad = Ad(redirectUrl: string, text: string)

  const MaxAdsToServe: nat := 2

  const Categories: set<string> := {"hair", "clothing", "accessories", "footwear", "decor", "kitchen"}

  /** `createAdsMap`: one ad for each of the six categories. */
  function CreateAdsMap(): (ads: map<string, Ad>)
    ensures ads.Keys == Categories && |ads.Keys| == 6
  {
    map[
      "hair" := Ad("/product/2ZYFJ3GM2N", "Hairdryer for sale. 50% off."),
      "clothing" := Ad("/product/66VCHSJNUP", "Tank top for sale. 20% off."),
      "accessories" := Ad("/product/1YMWWN1N4O", "Watch for sale. Buy one, get second kit for free"),
      "footwear" := Ad("/product/L9ECAV7KIM", "Loafers for sale. Buy one, get second one for free"),
      "decor" := Ad("/product/0PUK6V6EV0", "Candle holder for sale. 30% off."),
      "kitchen" := Ad("/product/9SIQT8TOJO", "Bamboo glass jar for sale. 10% off.")
    ]
  }

  /** `getAdsByCategory`: the category's single ad, or nothing for an unknown category. */
  function AdsByCategory(ads: map<string, Ad>, category: string): (r: seq<Ad>)
    ensures category in ads ==> r == [ads[category]]
    ensures category !in ads ==> r == []
  {
    if category in ads then [ads[category]] else []
  }

  /** The ads the keywords match, keyword by keyword, repeats included. */
  function Matched(ads: map<string, Ad>, keywords: seq<string>): seq<Ad>
  {
    if keywords == [] then []
    else Matched(ads, keywords[..|keywords| - 1]) + AdsByCategory(ads, keywords[|keywords| - 1])
  }

  class AdService {
    const ads: map<string, Ad>

    constructor()
      ensures ads == CreateAdsMap()
    {
      ads := CreateAdsMap();
    }

    /** `getRandomAds`: the table's ads listed, then two drawn, with repetition allowed. */
    method GetRandomAds() returns (picked: seq<Ad>)
      requires |ads.Keys| > 0
      ensures |picked| == MaxAdsToServe
      ensures forall i :: 0 <= i < |picked| ==> picked[i] in ads.Values
    {
      var vals: seq<Ad> := [];
      var left := ads.Keys;
      while left != {}
        invariant left <= ads.Keys
        invariant |vals| + |left| == |ads.Keys|
        invariant forall i :: 0 <= i < |vals| ==> vals[i] in ads.Values
        decreases |left|
      {
        var k :| k in left;
        vals := vals + [ads[k]];
        left := left - {k};
      }
      var out := new Ad[MaxAdsToServe];
      for i := 0 to MaxAdsToServe
        invariant forall k :: 0 <= k < i ==> out[k] in ads.Values
      {
        var j :| 0 <= j < |vals|;
        out[i] := vals[j];
      }
      picked := out[..];
    }

    /** `GetAds`: the matched ads when there are any, two random ads otherwise. */
    method GetAds(keywords: seq<string>) returns (result: seq<Ad>)
      requires |ads.Keys| > 0
      ensures Matched(ads, keywords) != [] ==> result == Matched(ads, keywords)
      ensures Matched(ads, keywords) == [] ==>
        |result| == MaxAdsToServe && forall i :: 0 <= i < |result| ==> result[i] in ads.Values
    {
      result := [];
      if |keywords| > 0 {
        for i := 0 to |keywords|
          invariant result == Matched(ads, keywords[..i])
        {
          assert keywords[..i + 1][..i] == keywords[..i];
          result := result + AdsByCategory(ads, keywords[i]);
        }
        assert keywords[..|keywords|] == keywords;
        if |result| == 0 {
          result := GetRandomAds();
        }
      } else {
        result := GetRandomAds();
      }
    }
  }

  /** A keyword list matches nothing exactly when none of its keywords is a category. */
  lemma {:induction false} MatchedEmpty(ads: map<string, Ad>, keywords: seq<string>)
    ensures Matched(ads, keywords) == [] <==> forall i :: 0 <= i < |keywords| ==> keywords[i] !in ads
  {
    if keywords != [] {
      var init := keywords[..|keywords| - 1];
      MatchedEmpty(ads, init);
      assert forall i :: 0 <= i < |init| ==> init[i] == keywords[i];
    }
  }

  /** Matching distributes over concatenation of the keyword lists. */
  lemma {:induction false} MatchedConcat(ads: map<string, Ad>, a: seq<string>, b: seq<string>)
    ensures Matched(ads, a + b) == Matched(ads, a) + Matched(ads, b)
    decreases |b|
  {
    if b == [] {
      assert a + b == a;
    } else {
      assert (a + b)[..|a + b| - 1] == a + b[..|b| - 1];
      MatchedConcat(ads, a, b[..|b| - 1]);
    }
  }

  /** Every matched ad is in the table, and each keyword matches at most one ad. */
  lemma {:induction false} MatchedFromTable(ads: map<string, Ad>, keywords: seq<string>)
    ensures forall i :: 0 <= i < |Matched(ads, keywords)| ==> Matched(ads, keywords)[i] in ads.Values
    ensures |Matched(ads, keywords)| <= |keywords|
  {
    if keywords != [] {
      MatchedFromTable(ads, keywords[..|keywords| - 1]);
    }
  }

  lemma RepeatedKeywordRepeatsAd(ads: map<string, Ad>, k: string)
    requires k in ads
    ensures Matched(ads, [k, k]) == [ads[k], ads[k]]
  {
    assert [k, k][..1] == [k];
    assert [k][..0] == [];
    assert Matched(ads, [k]) == Matched(ads, []) + [ads[k]];
  }

  /** With the service's own table, the keywords "hair" and "toys" give the hair-dryer ad alone. */
  lemma UnknownKeywordIsSkipped()
    ensures Matched(CreateAdsMap(), ["hair", "toys"]) == [Ad("/product/2ZYFJ3GM2N", "Hairdryer for sale. 50% off.")]
  {
    assert ["hair", "toys"][..1] == ["hair"];
    assert ["hair"][..0] == [];
    assert "toys" !in CreateAdsMap();
  }
}
