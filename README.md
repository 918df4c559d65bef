# Clearpay Gateway for WooCommerce: bootstrap and asset resolver, in Dafny

This project models the core of the Clearpay payment-gateway plugin for
WooCommerce and proves properties of the model. The model covers:

* the region-aware **asset resolver** (`class/WC_Gateway_Clearpay/assets.php`).
  It merges the assets every store shares with the assets of the store's
  country. A country without its own entry silently gets the assets of
  Great Britain ("GB").
* the **plugin bootstrap** (`clearpay-gateway-for-woocommerce.php`):
  * what the `Clearpay_Plugin` constructor registers with WordPress, including
    the product and category page hooks configured in the gateway settings;
  * the settings link added to the plugin's action links;
  * the theme normalisation of the `[clearpay_product_logo]` shortcode;
  * the CDN subdomain of the marketplace script;
  * the `init` singleton;
  * the `upgrade_complete` callback, which fires the cron jobs after the
    plugin is updated, on every site of a network.

The PHP semantics the code relies on are written out:

* **Ordered arrays** (`PhpArray`) are sequences of key/value pairs. A key is
  an integer or a string.
* **`array_merge`** renumbers integer keys from 0. A repeated string key
  overwrites the earlier value in its original position; a new string key is
  appended.
* **`empty()`** on a string setting (`PhpScalar.IsEmptySetting`) holds for an
  absent key, `""` and `"0"`.
* **The `(int)` cast of a string** (`PhpScalar.IntCast`), as PHP 7.1 and later perform it:
  * skips leading whitespace;
  * reads a sign, digits, a fraction and an exponent;
  * truncates toward zero;
  * gives 0 when there is no numeric prefix.
* **Key normalisation** (`PhpScalar.KeyOf`): a canonical decimal string used
  as an array key is stored as an integer key when the integer fits in 64
  bits, and as a string key otherwise.

Modules:

* `php_array.dfy` (`PhpArray`): arrays, `Get`, `Put`, `array_merge` and its lemmas.
* `php_scalar.dfy` (`PhpScalar`): `empty()`, the `(int)` cast, decimal spelling, key normalisation.
* `clearpay_assets.dfy` (`ClearpayAssets`): the asset resolver.
* `plugin_rules.dfy` (`PluginRules`): the pure rules of the bootstrap, namely:
  * the shortcode theme;
  * the script URL;
  * `filter_action_links`;
  * the page-hook priority.
* `plugin_upgrade.dfy` (`PluginUpgrade`): the specification of the fires caused by `upgrade_complete`.
* `plugin_hooks.dfy` (`PluginHooks`): the imperative part. It holds:
  * a hook registry class, whose list of registrations the plugin's methods append to;
  * the `ClearpayPlugin` class, with its constructor and the `generate_*_hooks` methods;
  * the `PluginLoader` class, which holds the static `$instance` and has `Init`, `RegisterJsLib` and `UpgradeComplete`.

Values the plugin obtains from WordPress, WooCommerce or the gateway object
are parameters. These are:

* the gateway id and its settings;
* `plugin_basename(__FILE__)`;
* the API environment;
* the value of `admin_url(...)` and the translated label "Settings";
* whether `WC_Gateway_Clearpay` is loaded;
* whether the install is a multisite network (the three-part
  `function_exists`/`is_multisite` test taken as one boolean);
* the blog ids `get_sites()` returns;
* the country code.

## Model

| member | source | states |
|---|---|---|
| `PhpArray.Get` | class/WC_Gateway_Clearpay/assets.php:19 | a lookup finds nothing exactly when the key is not a key of the array |
| `PhpArray.GetIff` | class/WC_Gateway_Clearpay/assets.php:19 | in an array with distinct keys, looking up `k` gives `v` exactly when `(k, v)` is an entry |
| `PhpArray.Put` | class/WC_Gateway_Clearpay/assets.php:21 | writing a present key keeps the key order; writing a new key appends the entry at the end |
| `PhpArray.PutGet` | class/WC_Gateway_Clearpay/assets.php:21 | after writing `k`, `k` reads back the written value and every other key reads as before |
| `PhpArray.MergeStrKeys` | class/WC_Gateway_Clearpay/assets.php:21 | for string-keyed arrays, `array_merge(a, b)` has the keys of `a`, then those of `b` not in `a`, in order; every key of either is present, and each only once |
| `PhpArray.MergeStrGet` | class/WC_Gateway_Clearpay/assets.php:21 | for string-keyed arrays, a key of `b` reads `b`'s value in the merge, and any other key reads `a`'s |
| `PhpArray.MergeStrEntries` | class/WC_Gateway_Clearpay/assets.php:21 | every entry of a string-keyed merge is an entry of one of the two arrays, so values pass through unchanged |
| `PhpArray.MergeIntoAppends` | clearpay-gateway-for-woocommerce.php:202 | merging `b` after a list whose integer keys lie below the next index appends every value of `b` in order; string-keyed entries keep key and position; the result has distinct keys; a list stays a list |
| `PhpArray.NewKeysMembers` | class/WC_Gateway_Clearpay/assets.php:21 | the keys a merge appends are exactly the keys of `b` missing from `a` |
| `PhpArray.NewKeysDistinct` | class/WC_Gateway_Clearpay/assets.php:21 | the appended keys are distinct when `b`'s keys are |
| `PhpScalar.IntCastOfIntToString` | clearpay-gateway-for-woocommerce.php:151 | the `(int)` cast of the decimal spelling of any integer is that integer |
| `PhpScalar.IntCastWithoutDigits` | clearpay-gateway-for-woocommerce.php:151 | a string without a digit casts to 0 |
| `PhpScalar.NatToStringValue` | clearpay-gateway-for-woocommerce.php:151 | the decimal spelling of `n` reads back as `n` |
| `PhpScalar.KeyOf` | class/WC_Gateway_Clearpay/assets.php:19 | a string used as a key becomes an integer key only when it is that integer's canonical decimal spelling and the integer lies in PHP's 64-bit range, and otherwise stays the same string |
| `PhpScalar.KeyOfIntToString` | class/WC_Gateway_Clearpay/assets.php:19 | the decimal spelling of a 64-bit `n` is stored as the integer key `n` |
| `PhpScalar.KeyOfOutOfRange` | class/WC_Gateway_Clearpay/assets.php:19 | the decimal spelling of an integer outside the 64-bit range stays a string key |
| `ClearpayAssets.Resolve` | class/WC_Gateway_Clearpay/assets.php:6-22 | for every country code, the resolver returns the express button followed by the GB help-centre and retailer URLs |
| `ClearpayAssets.ResolveAnyIsGb` | class/WC_Gateway_Clearpay/assets.php:19 | every country code, including the empty one, resolves to what "GB" resolves to |
| `ClearpayAssets.ResolveKeepsThemeToken` | class/WC_Gateway_Clearpay/assets.php:9 | the resolved express button is the global markup with its `[THEME]` token left for the caller to substitute |
| `ClearpayAssets.SelectRegionFound` | class/WC_Gateway_Clearpay/assets.php:19 | a country code that is a key of the table selects that key's own entry |
| `ClearpayAssets.SelectRegionFallback` | class/WC_Gateway_Clearpay/assets.php:19 | a country code that is not a key of the table selects the fallback region's entry, the same entry "GB" selects |
| `ClearpayAssets.SelectRegionValid` | class/WC_Gateway_Clearpay/assets.php:12-19 | the selected region is a string-keyed array with distinct keys |
| `ClearpayAssets.ResolveFallback` | class/WC_Gateway_Clearpay/assets.php:19-21 | for any table, resolving a code without an entry equals resolving the fallback code |
| `ClearpayAssets.ResolveKeys` | class/WC_Gateway_Clearpay/assets.php:21 | the resolved keys are the global keys, then the region keys the globals lack; every key of either is present, each once |
| `ClearpayAssets.ResolveGet` | class/WC_Gateway_Clearpay/assets.php:21 | a region key reads the region's value, overriding the global one; any other key reads the global value |
| `ClearpayAssets.ResolveEntries` | class/WC_Gateway_Clearpay/assets.php:21 | each resolved entry comes verbatim from the global or the selected region's assets |
| `ClearpayAssets.PluginTableValid` | class/WC_Gateway_Clearpay/assets.php:8-17 | the plugin's own global assets and region table meet the conditions of the lemmas above |
| `PluginRules.ShortcodeTheme` | clearpay-gateway-for-woocommerce.php:311-320 | the theme is always one of colour, black and white; a supported requested theme is kept; anything else, an absent attribute included, gives colour |
| `PluginRules.ShortcodeThemeIdempotent` | clearpay-gateway-for-woocommerce.php:311-320 | normalising an already normalised theme changes nothing |
| `PluginRules.LogoImagePath` | clearpay-gateway-for-woocommerce.php:324 | the logo path is one of the three themed paths, and its suffix after the fixed prefix is the normalised theme |
| `PluginRules.CdnSubdomain` | clearpay-gateway-for-woocommerce.php:266 | the subdomain is `js` exactly for the API environment "production", and `js-sandbox` otherwise |
| `PluginRules.MarketplaceScriptUrl` | clearpay-gateway-for-woocommerce.php:266-267 | the script URL is the live CDN URL exactly in production, and the sandbox URL otherwise |
| `PluginRules.FilterActionLinks` | clearpay-gateway-for-woocommerce.php:197-203 | the settings link comes first under key 0, followed by every original link in its original order; string-keyed links keep their key; the result has distinct keys; a list stays a list |
| `PluginRules.HookPriorityOfNumber` | clearpay-gateway-for-woocommerce.php:150-154 | a priority setting that spells the integer `n` gives priority `n`, except that "0" is empty and gives the default |
| `PluginRules.HookPriorityWithoutDigits` | clearpay-gateway-for-woocommerce.php:150-151 | a non-empty priority setting without digits gives priority 0, not the default |
| `PluginHooks.PageHooksConfigured` | clearpay-gateway-for-woocommerce.php:145-187 | an empty hook setting registers nothing; a configured hook registers exactly one zero-argument action on that hook, at the default priority when the priority setting is empty and at `n` when it is spelled as the integer `n` (the default for "0") |
| `PluginHooks.UpdateOptionsOrder` | clearpay-gateway-for-woocommerce.php:90-92 | on the gateway's settings-save hook, the constructor's actions are, in order, the settings save at 10, the configuration refresh at 11 and the cron jobs at 12, and nothing else |
| `PluginHooks.HookRegistry.AddAction` | clearpay-gateway-for-woocommerce.php:87 | appends one action registration and changes nothing else |
| `PluginHooks.ClearpayPlugin.constructor` | clearpay-gateway-for-woocommerce.php:81-135 | appends, in order, the 19 actions, the 6 filters, the 2 shortcodes and then the product and category page hooks |
| `PluginHooks.ClearpayPlugin.RegisterActions` | clearpay-gateway-for-woocommerce.php:87-105 | appends the constructor's actions in source order, with add_action's defaults (priority 10, one argument) where the source omits them |
| `PluginHooks.ClearpayPlugin.RegisterFilters` | clearpay-gateway-for-woocommerce.php:110-124 | appends the constructor's filters in source order, including the plugin-basename action-links filter |
| `PluginHooks.ClearpayPlugin.GenerateProductHooks` | clearpay-gateway-for-woocommerce.php:145-161 | returns true, and appends the product-page action (default priority 10) only when the hook setting is not empty |
| `PluginHooks.ClearpayPlugin.GenerateCategoryHooks` | clearpay-gateway-for-woocommerce.php:171-187 | returns true, and appends the category-page action (default priority 99) only when the hook setting is not empty |
| `PluginHooks.PluginLoader.Init` | clearpay-gateway-for-woocommerce.php:354-363 | false, with nothing changed, when the gateway class is not loaded; otherwise the single instance: the first call constructs it and makes its registrations, and later calls return it and register nothing |
| `PluginHooks.PluginLoader.RegisterJsLib` | clearpay-gateway-for-woocommerce.php:261-268 | nothing, and no change to the instance or the hooks, when `init` fails; otherwise the live script URL exactly in production and the sandbox URL otherwise, with the instance kept, or created with all its registrations on the first successful call |
| `PluginHooks.PluginLoader.UpgradeComplete` | clearpay-gateway-for-woocommerce.php:442-465 | the fires are those of `UpgradeFires`; the plugin instance is constructed, and its hooks registered, at most once across all the `init` calls |
| `PluginUpgrade.FiresPerMatch` | clearpay-gateway-for-woocommerce.php:447-461 | for one matching plugin entry: no fire without the gateway class; otherwise one fire per site, in site order, on a network, and one fire on the current site otherwise |
| `PluginUpgrade.UpgradeFiresSpec` | clearpay-gateway-for-woocommerce.php:444-465 | cron jobs fire exactly when the upgrade is a plugin update listing our basename, the gateway class is loaded and a network has a site; every fire targets a listed site on a network, and the current site otherwise; their number is the number of copies of our basename times the fires per copy |
| `PluginUpgrade.FiresForCount` | clearpay-gateway-for-woocommerce.php:450-463 | each copy of our basename in the plugin list contributes one round of fires |
| `PluginUpgrade.OccurrencesPositive` | clearpay-gateway-for-woocommerce.php:450-451 | our basename occurs in the plugin list exactly when its count is positive |

## Left out

- Everything that produces output or talks to WordPress beyond hook registration is left out:
  - script and style registration and localisation, where only the marketplace script URL is modelled;
  - the HTML the shortcode prints and `generate_source_sets`;
  - `load_plugin_textdomain`;
  - activation, deactivation and uninstall;
  - the blocks and store-API integration;
  - the dependency notice.
- Executing hooks is not modelled. WordPress's hook table is seen only as the ordered list of registrations the plugin makes.
- `load_classes()` and its `require_once` calls are left out. Whether `WC_Gateway_Clearpay` exists afterwards is a boolean parameter.
- `switch_to_blog`/`restore_current_blog` are not modelled. Which blog a fire runs on is recorded instead, as `Some(blog id)`, or `None` on a single site.
- PluginHooks.PluginLoader.UpgradeComplete: `get_sites()` is taken as the given list of blog ids. Its default limit of 100 sites is not modelled.
- The anonymous namespace filter is registered as a `Closure` callback. Its one-line body, which appends the plugin's slug to WooCommerce Blocks' namespace list, is not modelled.
- PhpScalar.IntCast: integers are unbounded. PHP's 64-bit saturation of huge numbers and the float rounding of long fractions and exponents are not modelled.
- PhpScalar.IntCast: follows PHP 7.1 and later, which read an exponent. The plugin header still declares PHP 5.6 (clearpay-gateway-for-woocommerce.php:9); PHP 5.6 and 7.0 stop at the `e`, so a priority setting such as "1e2" gives 1 there, not 100. That older behaviour is not modelled.
- The country code is a string. A `null` code from the gateway is not modelled.
- `$options` entries that are neither strings nor arrays are folded into `None`. The `$upgrader_object` argument is unused by the source and is left out.
