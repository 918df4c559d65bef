/**
 * What `upgrade_complete` does when WordPress finishes an upgrade: for every
 * copy of this plugin's basename in the list of updated plugins, the cron
 * jobs are fired once per site of a multisite network, or once on a single
 * site, provided the gateway class is loaded. A fire is written `Some(b)`
 * when it runs after switching to blog `b` and `None` on a single site.
 */
module PluginUpgrade {
  import opened PhpArray

  /**
   * The entries of the upgrader's `$options` the plugin reads. `None` stands
   * for an absent entry, for `null`, and for an `action` or `type` that is
   * not a string (none of them can equal a string strictly).
   */
  datatype UpgradeOptions = UpgradeOptions(action: Option<string>, kind: Option<string>, plugins: Option<seq<string>>)

  /** The upgrade was a plugin update whose options list the updated plugins. */
  predicate UpgradeApplies(options: UpgradeOptions)
  {
    options.action == Some("update") && options.kind == Some("plugin") && options.plugins.Some?
  }

  /** The fires caused by one matching entry of the plugin list. */
  function FiresPerMatch(multisite: bool, sites: seq<nat>, gatewayLoaded: bool): (fires: seq<Option<nat>>)
    ensures !gatewayLoaded ==> fires == []
    ensures gatewayLoaded && multisite ==> |fires| == |sites| && forall i :: 0 <= i < |sites| ==> fires[i] == Some(sites[i])
    ensures gatewayLoaded && !multisite ==> fires == [None]
  {
    if !gatewayLoaded then []
    else if multisite then seq(|sites|, i requires 0 <= i < |sites| => Some(sites[i]))
    else [None]
  }

  /** The fires for the plugin list `plugins`, entry by entry in list order. */
  function FiresFor(plugins: seq<string>, ourPlugin: string, multisite: bool, sites: seq<nat>, gatewayLoaded: bool): seq<Option<nat>>
    decreases |plugins|
  {
    if plugins == [] then []
    else
      FiresFor(plugins[..|plugins| - 1], ourPlugin, multisite, sites, gatewayLoaded)
      + (if plugins[|plugins| - 1] == ourPlugin then FiresPerMatch(multisite, sites, gatewayLoaded) else [])
  }

  /** Every fire `upgrade_complete` causes, in order. */
  function UpgradeFires(options: UpgradeOptions, ourPlugin: string, multisite: bool, sites: seq<nat>, gatewayLoaded: bool): seq<Option<nat>>
  {
    if UpgradeApplies(options) then FiresFor(options.plugins.value, ourPlugin, multisite, sites, gatewayLoaded) else []
  }

  /** How many entries of `plugins` equal `p`. */
  function Occurrences(plugins: seq<string>, p: string): (n: nat)
    ensures n <= |plugins|
    decreases |plugins|
  {
    if plugins == [] then 0
    else Occurrences(plugins[..|plugins| - 1], p) + (if plugins[|plugins| - 1] == p then 1 else 0)
  }

  lemma {:induction false} OccurrencesPositive(plugins: seq<string>, p: string)
    ensures Occurrences(plugins, p) > 0 <==> p in plugins
    decreases |plugins|
  {
    if plugins != [] {
      var init := plugins[..|plugins| - 1];
      OccurrencesPositive(init, p);
      assert plugins == init + [plugins[|plugins| - 1]];
    }
  }

  /** The plugin list fires the per-match sequence once for each copy of our basename. */
  lemma {:induction false} FiresForCount(plugins: seq<string>, ourPlugin: string, multisite: bool, sites: seq<nat>, gatewayLoaded: bool)
    ensures |FiresFor(plugins, ourPlugin, multisite, sites, gatewayLoaded)|
         == Occurrences(plugins, ourPlugin) * |FiresPerMatch(multisite, sites, gatewayLoaded)|
    decreases |plugins|
  {
    if plugins != [] {
      var init := plugins[..|plugins| - 1];
      FiresForCount(init, ourPlugin, multisite, sites, gatewayLoaded);
      var k := Occurrences(init, ourPlugin);
      var m := |FiresPerMatch(multisite, sites, gatewayLoaded)|;
      if plugins[|plugins| - 1] == ourPlugin {
        assert Occurrences(plugins, ourPlugin) == k + 1;
        assert (k + 1) * m == k * m + m;
      } else {
        assert Occurrences(plugins, ourPlugin) == k;
      }
    }
  }

  /** Every fire targets a listed site on a network and the current site otherwise. */
  lemma {:induction false} FiresForTargets(plugins: seq<string>, ourPlugin: string, multisite: bool, sites: seq<nat>, gatewayLoaded: bool)
    ensures forall f :: f in FiresFor(plugins, ourPlugin, multisite, sites, gatewayLoaded) ==>
              if multisite then f.Some? && f.value in sites else f == None
    decreases |plugins|
  {
    if plugins != [] {
      FiresForTargets(plugins[..|plugins| - 1], ourPlugin, multisite, sites, gatewayLoaded);
      var m := FiresPerMatch(multisite, sites, gatewayLoaded);
      forall f | f in m ensures if multisite then f.Some? && f.value in sites else f == None {
        var i :| 0 <= i < |m| && m[i] == f;
      }
    }
  }

  /**
   * The cron jobs are fired exactly when the upgrade is a plugin update
   * listing our basename, the gateway class is loaded, and (on a network)
   * the network has a site; each fire targets a listed site on a network
   * and the current site otherwise, and their number is the number of
   * copies of our basename times the fires per copy.
   */
  lemma UpgradeFiresSpec(options: UpgradeOptions, ourPlugin: string, multisite: bool, sites: seq<nat>, gatewayLoaded: bool)
    ensures UpgradeFires(options, ourPlugin, multisite, sites, gatewayLoaded) != [] <==>
              UpgradeApplies(options) && ourPlugin in options.plugins.value && gatewayLoaded && (multisite ==> sites != [])
    ensures UpgradeApplies(options) ==>
              |UpgradeFires(options, ourPlugin, multisite, sites, gatewayLoaded)|
              == Occurrences(options.plugins.value, ourPlugin) * |FiresPerMatch(multisite, sites, gatewayLoaded)|
    ensures forall f :: f in UpgradeFires(options, ourPlugin, multisite, sites, gatewayLoaded) ==>
              if multisite then f.Some? && f.value in sites else f == None
  {
    if UpgradeApplies(options) {
      var plugins := options.plugins.value;
      FiresForCount(plugins, ourPlugin, multisite, sites, gatewayLoaded);
      FiresForTargets(plugins, ourPlugin, multisite, sites, gatewayLoaded);
      OccurrencesPositive(plugins, ourPlugin);
      var k := Occurrences(plugins, ourPlugin);
      var m := |FiresPerMatch(multisite, sites, gatewayLoaded)|;
      assert k * m != 0 <==> k != 0 && m != 0;
    }
  }
}
