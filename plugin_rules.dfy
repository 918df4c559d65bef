/**
 * The pure decision rules of the Clearpay plugin bootstrap: the theme and
 * image of the product-logo shortcode, the CDN subdomain of the marketplace
 * script, the settings link put before the plugin's action links, and the
 * priority of the configurable product and category page hooks.
 */
module PluginRules {
  import opened PhpArray
  import opened PhpScalar

  const DefaultTheme: string := "colour"
  const Themes: seq<string> := ["colour", "black", "white"]
  const ThemeAttribute: Key := Str("theme")
  const LogoPathPrefix: string := "integration/product-page/logo-clearpay-"

  /**
   * The theme of the `[clearpay_product_logo]` shortcode. `shortcode_atts`
   * supplies "colour" when the `theme` attribute is absent; a value that is
   * not one of the three supported themes (compared strictly) becomes
   * "colour" too.
   */
  function ShortcodeTheme(atts: Array<string>): (theme: string)
    ensures theme in Themes
    ensures theme == DefaultTheme || Get(atts, ThemeAttribute) == Some(theme)
    ensures Get(atts, ThemeAttribute).Some? && Get(atts, ThemeAttribute).value in Themes ==>
              theme == Get(atts, ThemeAttribute).value
  {
    var requested := match Get(atts, ThemeAttribute)
      case Some(t) => t
      case None => DefaultTheme;
    if requested in Themes then requested else DefaultTheme
  }

  /** Normalising is idempotent: passing the normalised theme back in keeps it. */
  lemma ShortcodeThemeIdempotent(atts: Array<string>)
    ensures ShortcodeTheme([(ThemeAttribute, ShortcodeTheme(atts))]) == ShortcodeTheme(atts)
  {
  }

  /** The image path of the logo for the shortcode's attributes. */
  function LogoImagePath(atts: Array<string>): (path: string)
    ensures path in [LogoPathPrefix + "colour", LogoPathPrefix + "black", LogoPathPrefix + "white"]
    ensures |path| > |LogoPathPrefix| && path[..|LogoPathPrefix|] == LogoPathPrefix
    ensures path[|LogoPathPrefix|..] == ShortcodeTheme(atts)
  {
    var theme := ShortcodeTheme(atts);
    assert theme == "colour" || theme == "black" || theme == "white";
    LogoPathPrefix + theme
  }

  /** The CDN subdomain of the marketplace script: the live one exactly for the production API environment. */
  function CdnSubdomain(apiEnv: string): (subdomain: string)
    ensures subdomain == "js" <==> apiEnv == "production"
    ensures subdomain == "js" || subdomain == "js-sandbox"
  {
    if apiEnv == "production" then "js" else "js-sandbox"
  }

  const ScriptPath: string := ".squarecdn.com/square-marketplace.js"
  const LiveScriptUrl: string := "https://" + "js" + ScriptPath
  const SandboxScriptUrl: string := "https://" + "js-sandbox" + ScriptPath

  /** The source URL `register_js_lib` registers the marketplace script with. */
  function MarketplaceScriptUrl(apiEnv: string): (url: string)
    ensures url == LiveScriptUrl <==> apiEnv == "production"
    ensures url == LiveScriptUrl || url == SandboxScriptUrl
  {
    assert |LiveScriptUrl| != |SandboxScriptUrl|;
    "https://" + CdnSubdomain(apiEnv) + ScriptPath
  }

  /** The settings anchor; `settingsUrl` and `caption` are what `admin_url` and `__` return. */
  function SettingsLink(settingsUrl: string, caption: string): string
  {
    "<a href=\"" + settingsUrl + "\">" + caption + "</a>"
  }

  /**
   * `filter_action_links`: `array_merge` of a one-element list holding the
   * settings link and the links WordPress passes in. The settings link comes
   * first under key 0, then every original link in its original order;
   * string-keyed links keep their key, and a list stays a list.
   */
  function FilterActionLinks(settingsUrl: string, caption: string, links: Array<string>): (r: Array<string>)
    requires Wf(links)
    ensures |r| == |links| + 1
    ensures Values(r) == [SettingsLink(settingsUrl, caption)] + Values(links)
    ensures r[0] == (Int(0), SettingsLink(settingsUrl, caption))
    ensures forall i :: 0 <= i < |links| && links[i].0.Str? ==> r[i + 1] == links[i]
    ensures Wf(r)
    ensures IsList(links) ==> IsList(r)
  {
    var additional := [(Int(0), SettingsLink(settingsUrl, caption))];
    assert additional[1..] == [] && [] + additional == additional;
    assert MergeInto([], 0, additional) == MergeInto(additional, 1, []);
    assert Wf(additional) && IsList(additional);
    assert Keys(additional) == [Int(0)];
    MergeIntoAppends(additional, 1, links);
    assert IsList(links) ==> IntKeyed(links);
    ArrayMerge(additional, links)
  }

  /**
   * The priority of a configurable page hook: the configured value cast
   * with `(int)`, or `defaultPriority` when the setting is empty.
   */
  function HookPriority(settings: Array<string>, prioritySetting: Key, defaultPriority: int): int
  {
    if IsEmptySetting(settings, prioritySetting) then defaultPriority
    else IntCast(Get(settings, prioritySetting).value)
  }

  /**
   * A priority configured as the decimal spelling of `n` is `n` itself,
   * except that "0" counts as empty and gives the default.
   */
  lemma HookPriorityOfNumber(settings: Array<string>, prioritySetting: Key, defaultPriority: int, n: int)
    requires Get(settings, prioritySetting) == Some(IntToString(n))
    ensures HookPriority(settings, prioritySetting, defaultPriority) == if n == 0 then defaultPriority else n
  {
    IntCastOfIntToString(n);
    IntCastOfIntToString(0);
    assert IntToString(0) == "0";
    assert IntToString(n) != "";
  }

  /** A non-empty priority without a digit casts to 0: the hook is then registered at priority 0, not at the default. */
  lemma HookPriorityWithoutDigits(settings: Array<string>, prioritySetting: Key, defaultPriority: int, v: string)
    requires Get(settings, prioritySetting) == Some(v) && v != ""
    requires forall i :: 0 <= i < |v| ==> !IsDigit(v[i])
    ensures HookPriority(settings, prioritySetting, defaultPriority) == 0
  {
    assert !IsDigit(v[0]);
    IntCastWithoutDigits(v);
  }
}
