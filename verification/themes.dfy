/** The theme catalog of backend/src/routes/themes.ts: static data, lookup by
    id, and the GET handler. */
module Themes {
  import opened Results

  datatype LegSide = Long | Short

  /** One asset of a basket. Its weight is a floating-point number in the
      catalog and is not part of this model. */
  datatype BasketLeg = BasketLeg(symbol: string, side: LegSide)

  datatype Theme = Theme(
    id: string,
    name: string,
    description: string,
    leftLegLabel: string,
    rightLegLabel: string,
    leftBasket: seq<BasketLeg>,
    rightBasket: seq<BasketLeg>)

  /** The `themes` array, in catalog order. */
  const Catalog: seq<Theme> := [
    Theme("ai-vs-meme", "AI vs Meme", "Artificial Intelligence tokens versus Meme coins", "AI", "Meme",
      [BasketLeg("FET", Long), BasketLeg("AGIX", Long), BasketLeg("OCEAN", Long),
       BasketLeg("RNDR", Long), BasketLeg("TAO", Long)],
      [BasketLeg("DOGE", Long), BasketLeg("SHIB", Long), BasketLeg("PEPE", Long),
       BasketLeg("FLOKI", Long), BasketLeg("BONK", Long)]),
    Theme("eth-vs-btc", "ETH vs BTC", "Ethereum ecosystem versus Bitcoin", "ETH", "BTC",
      [BasketLeg("ETH", Long), BasketLeg("LINK", Long), BasketLeg("UNI", Long),
       BasketLeg("AAVE", Long), BasketLeg("MKR", Long)],
      [BasketLeg("BTC", Long)]),
    Theme("sol-vs-l2s", "SOL Ecosystem vs L2s", "Solana ecosystem versus Ethereum Layer 2 solutions",
      "SOL Ecosystem", "L2s",
      [BasketLeg("SOL", Long), BasketLeg("RAY", Long), BasketLeg("JUP", Long),
       BasketLeg("BONK", Long), BasketLeg("WIF", Long)],
      [BasketLeg("ARB", Long), BasketLeg("OP", Long), BasketLeg("MATIC", Long),
       BasketLeg("STRK", Long)])
  ]

  /** No two entries of a catalog share an id. */
  predicate DistinctIds(catalog: seq<Theme>) {
    forall i, j :: 0 <= i < j < |catalog| ==> catalog[i].id != catalog[j].id
  }

  /** `getThemeById(id)`: `themes.find(theme => theme.id === id)`, the first
      entry in catalog order whose id is the query, or none. */
  function GetThemeById(catalog: seq<Theme>, id: string): (r: Option<Theme>)
    ensures r.Some? ==> r.value.id == id && r.value in catalog
    ensures r.None? <==> forall i :: 0 <= i < |catalog| ==> catalog[i].id != id
    ensures r.Some? ==> exists k :: 0 <= k < |catalog| && catalog[k] == r.value
                          && forall j :: 0 <= j < k ==> catalog[j].id != id
  {
    if |catalog| == 0 then None
    else if catalog[0].id == id then Some(catalog[0])
    else
      var r := GetThemeById(catalog[1..], id);
      assert forall i :: 1 <= i < |catalog| ==> catalog[i] == catalog[1..][i - 1];
      if r.Some? then
        var k :| 0 <= k < |catalog[1..]| && catalog[1..][k] == r.value
                 && forall j :: 0 <= j < k ==> catalog[1..][j].id != id;
        assert catalog[k + 1] == r.value;
        assert forall j :: 0 <= j < k + 1 ==> catalog[j].id != id by {
          forall j | 0 <= j < k + 1 ensures catalog[j].id != id {
            if j > 0 { assert catalog[j] == catalog[1..][j - 1]; }
          }
        }
        r
      else r
  }

  /** The ids of the three themes are pairwise distinct. */
  lemma CatalogIdsDistinct()
    ensures |Catalog| == 3
    ensures Catalog[0].id == "ai-vs-meme" && Catalog[1].id == "eth-vs-btc" && Catalog[2].id == "sol-vs-l2s"
    ensures DistinctIds(Catalog)
  {
  }

  /** In a catalog with distinct ids, looking up an entry's id finds that very entry. */
  lemma LookupFindsEntry(catalog: seq<Theme>, i: nat)
    requires DistinctIds(catalog)
    requires i < |catalog|
    ensures GetThemeById(catalog, catalog[i].id) == Some(catalog[i])
  {
  }

  /** With distinct ids a lookup has at most one possible answer: any entry
      carrying the id is the one returned. */
  lemma UniqueMatch(catalog: seq<Theme>, id: string, t: Theme)
    requires DistinctIds(catalog)
    requires t in catalog && t.id == id
    ensures GetThemeById(catalog, id) == Some(t)
  {
  }

  /** A response of an express handler: status code and JSON payload. */
  datatype Reply = Reply(status: nat, themes: seq<Theme>)

  /** The GET handler: `res.json(themes)`. */
  function ListThemes(catalog: seq<Theme>): (r: Reply)
    ensures r.status == 200 && r.themes == catalog
  {
    Reply(200, catalog)
  }

  /** Every theme GET returns is found again, unchanged, by looking up its id;
      an id outside the catalog is found nowhere. */
  lemma ListedThemesResolve()
    ensures ListThemes(Catalog).status == 200
    ensures ListThemes(Catalog).themes == Catalog
    ensures forall i :: 0 <= i < |Catalog| ==>
              GetThemeById(Catalog, ListThemes(Catalog).themes[i].id) == Some(Catalog[i])
    ensures GetThemeById(Catalog, "doge-vs-pepe") == None
  {
  }
}
