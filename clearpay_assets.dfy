/**
 * The region-aware asset resolver of the Clearpay gateway: the assets every
 * store uses, merged with the assets of the store's country, where a country
 * without its own entry silently gets the assets of Great Britain.
 */
module ClearpayAssets {
  import opened PhpArray
  import opened PhpScalar

  /** The region used for every country code without an entry of its own. */
  const FallbackRegion: string := "GB"

  const CartButtonKey: Key := Str("cart_page_express_button")
  const HelpCenterKey: Key := Str("help_center_url")
  const RetailerKey: Key := Str("retailer_url")

  /** Markup of the express checkout button; the caller substitutes the `[THEME]` token. */
  const CartPageExpressButton: string := ButtonBeforeTheme + ThemeToken + ButtonAfterTheme
  const ButtonBeforeTheme: string := "<tr><td colspan=\"2\" class=\"btn-clearpay_express_td\"><button id=\"clearpay_express_button\" class=\"btn-clearpay_express btn-clearpay_express_cart\" type=\"button\" disabled><img src=\"https://static.afterpay.com/button/checkout-with-clearpay/"
  const ThemeToken: string := "[THEME]"
  const ButtonAfterTheme: string := ".svg\" alt=\"Checkout with Clearpay\" /></button></td></tr>"

  /** The assets every region shares. */
  const GlobalAssets: Array<string> := [(CartButtonKey, CartPageExpressButton)]

  const GbAssets: Array<string> := [
    (HelpCenterKey, "https://help.clearpay.co.uk/hc/en-gb/requests/new"),
    (RetailerKey, "https://www.clearpay.co.uk/en-GB/for-retailers")
  ]

  /** The region table, keyed by country code. */
  const RegionAssets: Array<Array<string>> := [(Str(FallbackRegion), GbAssets)]

  /** A region table the resolver can work with: each region's assets form a string-keyed PHP array, and the fallback region has an entry. */
  predicate ValidTable(table: Array<Array<string>>)
  {
    && Wf(table)
    && Get(table, Str(FallbackRegion)).Some?
    && forall i :: 0 <= i < |table| ==> Wf(table[i].1) && StrKeyed(table[i].1)
  }

  /** The region's assets: the entry for `country` when the table has one, the fallback region's otherwise. */
  function SelectRegion(table: Array<Array<string>>, country: string): Array<string>
    requires Get(table, Str(FallbackRegion)).Some?
  {
    match Get(table, KeyOf(country))
    case Some(region) => region
    case None => Get(table, Str(FallbackRegion)).value
  }

  /** The resolver over a given global array and region table: `array_merge` of the global assets and the selected region's. */
  function ResolveIn(global: Array<string>, table: Array<Array<string>>, country: string): Array<string>
    requires Get(table, Str(FallbackRegion)).Some?
  {
    ArrayMerge(global, SelectRegion(table, country))
  }

  /**
   * The asset resolver with the plugin's own data. It accepts every string,
   * and every country code gets the global button followed by the GB links.
   */
  function Resolve(country: string): (r: Array<string>)
    ensures r == GlobalAssets + GbAssets
  {
    ResolveInPluginData(country);
    ResolveIn(GlobalAssets, RegionAssets, country)
  }

  lemma SelectRegionOfPluginTable(country: string)
    ensures SelectRegion(RegionAssets, country) == GbAssets
  {
  }

  lemma ResolveInPluginData(country: string)
    ensures ResolveIn(GlobalAssets, RegionAssets, country) == GlobalAssets + GbAssets
  {
    SelectRegionOfPluginTable(country);
    MergeGlobalGb();
  }

  lemma MergeGlobalGb()
    ensures ArrayMerge(GlobalAssets, GbAssets) == GlobalAssets + GbAssets
  {
    ArrayMergeStrKeyed(GlobalAssets, GbAssets);
    MergeIntoStrFresh(GlobalAssets, 0, GbAssets);
  }

  lemma FallbackKey()
    ensures KeyOf(FallbackRegion) == Str(FallbackRegion)
  {
    IntCastWithoutDigits(FallbackRegion);
    assert IntToString(0) == "0";
  }

  /** A country code that is a key of the table selects exactly that key's entry. */
  lemma SelectRegionFound(table: Array<Array<string>>, country: string)
    requires ValidTable(table)
    requires KeyOf(country) in Keys(table)
    ensures (KeyOf(country), SelectRegion(table, country)) in table
  {
    GetSome(table, KeyOf(country));
  }

  /** Every country code without an entry, the empty string included, selects what the fallback code selects. */
  lemma SelectRegionFallback(table: Array<Array<string>>, country: string)
    requires ValidTable(table)
    requires KeyOf(country) !in Keys(table)
    ensures SelectRegion(table, country) == SelectRegion(table, FallbackRegion)
    ensures SelectRegion(table, country) == Get(table, Str(FallbackRegion)).value
  {
    FallbackKey();
  }

  /** The selected region's assets are a string-keyed PHP array. */
  lemma SelectRegionValid(table: Array<Array<string>>, country: string)
    requires ValidTable(table)
    ensures Wf(SelectRegion(table, country)) && StrKeyed(SelectRegion(table, country))
  {
    var k := if KeyOf(country) in Keys(table) then KeyOf(country) else Str(FallbackRegion);
    GetSome(table, k);
  }

  /** Resolving a code without an entry gives exactly what resolving the fallback code gives. */
  lemma ResolveFallback(global: Array<string>, table: Array<Array<string>>, country: string)
    requires ValidTable(table)
    requires KeyOf(country) !in Keys(table)
    ensures ResolveIn(global, table, country) == ResolveIn(global, table, FallbackRegion)
  {
    SelectRegionFallback(table, country);
  }

  /**
   * The keys of a resolved configuration: the global keys first, then the
   * region keys the global assets lack, in region order; every key of
   * either appears, and each appears once.
   */
  lemma ResolveKeys(global: Array<string>, table: Array<Array<string>>, country: string)
    requires ValidTable(table) && Wf(global) && StrKeyed(global)
    ensures var region := SelectRegion(table, country);
      && Keys(ResolveIn(global, table, country)) == Keys(global) + NewKeys(Keys(region), Keys(global))
      && (forall k :: k in Keys(ResolveIn(global, table, country)) <==> k in Keys(global) || k in Keys(region))
      && Wf(ResolveIn(global, table, country))
  {
    SelectRegionValid(table, country);
    MergeStrKeys(global, SelectRegion(table, country));
  }

  /** A region key holds the region's value, overriding the global one; any other key keeps the global value. */
  lemma ResolveGet(global: Array<string>, table: Array<Array<string>>, country: string, k: Key)
    requires ValidTable(table) && Wf(global) && StrKeyed(global)
    ensures var region := SelectRegion(table, country);
      Get(ResolveIn(global, table, country), k) == if k in Keys(region) then Get(region, k) else Get(global, k)
  {
    SelectRegionValid(table, country);
    MergeStrGet(global, SelectRegion(table, country), k);
  }

  /** Values are returned verbatim: each resolved entry is an entry of the global or the region assets. */
  lemma ResolveEntries(global: Array<string>, table: Array<Array<string>>, country: string, e: (Key, string))
    requires ValidTable(table) && Wf(global) && StrKeyed(global)
    requires e in ResolveIn(global, table, country)
    ensures e in global || e in SelectRegion(table, country)
  {
    SelectRegionValid(table, country);
    MergeStrEntries(global, SelectRegion(table, country), e);
  }

  /** The plugin's own table is one the lemmas above apply to. */
  lemma PluginTableValid()
    ensures ValidTable(RegionAssets) && Wf(GlobalAssets) && StrKeyed(GlobalAssets)
  {
  }

  /** Every country code resolves to the same configuration as "GB". */
  lemma ResolveAnyIsGb(country: string)
    ensures Resolve(country) == Resolve(FallbackRegion)
  {
  }

  /** The express button is passed through with its `[THEME]` token unsubstituted. */
  lemma ResolveKeepsThemeToken(country: string)
    ensures Get(Resolve(country), CartButtonKey) == Some(CartPageExpressButton)
    ensures CartPageExpressButton[|ButtonBeforeTheme|..|ButtonBeforeTheme| + |ThemeToken|] == ThemeToken
  {
    var before, after := ButtonBeforeTheme, ButtonAfterTheme;
    assert (before + ThemeToken + after)[|before|..|before| + |ThemeToken|] == ThemeToken;
  }
}
