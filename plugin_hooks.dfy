/**
 * The Clearpay plugin object and its class-level state: what its constructor
 * hands to WordPress, the configurable product and category page hooks, the
 * `init` singleton, the marketplace script registration and the upgrade
 * callback. WordPress's hook table is seen only through the registrations
 * the plugin makes, in the order it makes them.
 */
module PluginHooks {
  import opened PhpArray
  import opened PhpScalar
  import opened PluginRules
  import opened PluginUpgrade

  /** Whose method a callback calls: the gateway singleton, the plugin object, or the cron class statically. */
  datatype Target = GatewayObject | PluginObject | CronClass

  /** A callback: a named method of a target, or the anonymous function the constructor passes. */
  datatype Callback = Method(target: Target, name: string) | Closure

  /** One call to `add_action`, `add_filter` or `add_shortcode`. */
  datatype Registration =
    | Action(hook: string, callback: Callback, priority: int, acceptedArgs: nat)
    | Filter(hook: string, callback: Callback, priority: int, acceptedArgs: nat)
    | Shortcode(tag: string, callback: Callback)

  /** The registrations made so far, oldest first. */
  class HookRegistry {
    var entries: seq<Registration>

    constructor ()
      ensures entries == []
    {
      entries := [];
    }

    method AddAction(hook: string, callback: Callback, priority: int, acceptedArgs: nat)
      modifies this
      ensures entries == old(entries) + [Action(hook, callback, priority, acceptedArgs)]
    {
      entries := entries + [Action(hook, callback, priority, acceptedArgs)];
    }

    method AddFilter(hook: string, callback: Callback, priority: int, acceptedArgs: nat)
      modifies this
      ensures entries == old(entries) + [Filter(hook, callback, priority, acceptedArgs)]
    {
      entries := entries + [Filter(hook, callback, priority, acceptedArgs)];
    }

    method AddShortcode(tag: string, callback: Callback)
      modifies this
      ensures entries == old(entries) + [Shortcode(tag, callback)]
    {
      entries := entries + [Shortcode(tag, callback)];
    }
  }

  /** What the plugin reads from the gateway singleton: its id and its saved settings. */
  datatype Gateway = Gateway(id: string, settings: Array<string>)


  const ProductHookSetting: Key := Str("product-pages-hook")
  const ProductPrioritySetting: Key := Str("product-pages-priority")
  const CategoryHookSetting: Key := Str("category-pages-hook")
  const CategoryPrioritySetting: Key := Str("category-pages-priority")
  const DefaultProductPriority: int := 10
  const DefaultCategoryPriority: int := 99
  const ProductPageCallback: Callback := Method(GatewayObject, "print_info_for_product_detail_page")
  const CategoryPageCallback: Callback := Method(GatewayObject, "print_info_for_listed_products")
  const UpdateOptionsPrefix: string := "woocommerce_update_options_payment_gateways_"

  /** The hook on which WooCommerce saves the settings of gateway `gatewayId`. */
  function UpdateOptionsHook(gatewayId: string): string
  {
    UpdateOptionsPrefix + gatewayId
  }

  /** The hook WordPress runs for the admin-ajax action `action` of a logged-in user. */
  function AjaxHook(action: string): string
  {
    "wp_ajax_" + action
  }

  /** The hook WordPress runs for the admin-ajax action `action` of a visitor who is not logged in. */
  function NoPrivAjaxHook(action: string): string
  {
    "wp_ajax_nopriv_" + action
  }

  /** The actions the constructor adds, in order. */
  function ActionRegistrations(gatewayId: string): seq<Registration>
  {
    AdminActions() + UpdateOptionsActions(gatewayId) + StoreActions() + CheckoutActions()
  }

  function AdminActions(): seq<Registration>
  {
    [ Action("admin_notices", Method(GatewayObject, "render_admin_notices"), 10, 0),
      Action("admin_enqueue_scripts", Method(PluginObject, "init_admin_assets"), 10, 1),
      Action("clearpay_do_cron_jobs", Method(CronClass, "fire_jobs"), 10, 0) ]
  }

  /** The three actions on the gateway's settings-save hook. */
  function UpdateOptionsActions(gatewayId: string): seq<Registration>
  {
    [ Action(UpdateOptionsHook(gatewayId), Method(GatewayObject, "process_admin_options"), 10, 0),
      Action(UpdateOptionsHook(gatewayId), Method(GatewayObject, "refresh_cached_configuration"), 11, 0),
      Action(UpdateOptionsHook(gatewayId), Method(CronClass, "fire_jobs"), 12, 0) ]
  }

  function StoreActions(): seq<Registration>
  {
    [ Action("woocommerce_cart_totals_after_order_total", Method(GatewayObject, "render_cart_page_elements"), 10, 0),
      Action("woocommerce_order_status_changed", Method(GatewayObject, "collect_shipping_data"), 10, 3),
      Action("wp_enqueue_scripts", Method(PluginObject, "init_website_assets"), 10, 0),
      Action(AjaxHook("clearpay_action"), Method(GatewayObject, "reset_settings_api_form_fields"), 10, 0) ]
  }

  /** The admin-ajax actions of express checkout and the payment return endpoint. */
  function CheckoutActions(): seq<Registration>
  {
    [ Action(AjaxHook("clearpay_express_start"), Method(GatewayObject, "generate_express_token"), 10, 0),
      Action(NoPrivAjaxHook("clearpay_express_start"), Method(GatewayObject, "generate_express_token"), 10, 0),
      Action(AjaxHook("clearpay_express_change"), Method(GatewayObject, "fetch_express_shipping"), 10, 0),
      Action(NoPrivAjaxHook("clearpay_express_change"), Method(GatewayObject, "fetch_express_shipping"), 10, 0),
      Action(AjaxHook("clearpay_express_shipping_change"), Method(GatewayObject, "express_update_wc_shipping"), 10, 0),
      Action(NoPrivAjaxHook("clearpay_express_shipping_change"), Method(GatewayObject, "express_update_wc_shipping"), 10, 0),
      Action(AjaxHook("clearpay_express_complete"), Method(GatewayObject, "create_order_and_capture_endpoint"), 10, 1),
      Action(NoPrivAjaxHook("clearpay_express_complete"), Method(GatewayObject, "create_order_and_capture_endpoint"), 10, 1),
      Action("woocommerce_api_wc_gateway_clearpay", Method(GatewayObject, "capture_payment"), 10, 1) ]
  }

  /** The filters the constructor adds, in order. */
  function FilterRegistrations(pluginBasename: string): seq<Registration>
  {
    [ Filter("plugin_action_links_" + pluginBasename, Method(PluginObject, "filter_action_links"), 10, 1),
      Filter("cron_schedules", Method(CronClass, "edit_cron_schedules"), 10, 1),
      Filter("woocommerce_payment_gateways", Method(GatewayObject, "add_clearpay_gateway"), 10, 1),
      Filter("woocommerce_get_price_html", Method(GatewayObject, "filter_woocommerce_get_price_html"), 10, 2),
      Filter("woocommerce_gateway_icon", Method(GatewayObject, "filter_woocommerce_gateway_icon"), 10, 2),
      Filter("__experimental_woocommerce_blocks_add_data_attributes_to_namespace", Closure, 10, 1) ]
  }

  /** The shortcodes the constructor adds, in order. */
  function ShortcodeRegistrations(): seq<Registration>
  {
    [ Shortcode("clearpay_product_logo", Method(PluginObject, "shortcode_clearpay_product_logo")),
      Shortcode("clearpay_paragraph", Method(GatewayObject, "shortcode_clearpay_paragraph")) ]
  }

  /**
   * The registration of a configurable page hook: none when the hook setting
   * is empty, otherwise one action on the configured hook with no arguments.
   */
  function PageHooks(settings: Array<string>, hookSetting: Key, prioritySetting: Key,
                     defaultPriority: int, callback: Callback): seq<Registration>
  {
    if IsEmptySetting(settings, hookSetting) then []
    else [Action(Get(settings, hookSetting).value, callback, HookPriority(settings, prioritySetting, defaultPriority), 0)]
  }

  function ProductPageHooks(settings: Array<string>): seq<Registration>
  {
    PageHooks(settings, ProductHookSetting, ProductPrioritySetting, DefaultProductPriority, ProductPageCallback)
  }

  function CategoryPageHooks(settings: Array<string>): seq<Registration>
  {
    PageHooks(settings, CategoryHookSetting, CategoryPrioritySetting, DefaultCategoryPriority, CategoryPageCallback)
  }

  /** Everything the constructor registers, in order. */
  function ConstructorRegistrations(gateway: Gateway, pluginBasename: string): seq<Registration>
  {
    ActionRegistrations(gateway.id) + FilterRegistrations(pluginBasename) + ShortcodeRegistrations()
    + ProductPageHooks(gateway.settings) + CategoryPageHooks(gateway.settings)
  }

  /** The registrations in `regs` on `hook`, in order. */
  function OnHook(regs: seq<Registration>, hook: string): seq<Registration>
    decreases |regs|
  {
    if regs == [] then []
    else (if !regs[0].Shortcode? && regs[0].hook == hook then [regs[0]] else []) + OnHook(regs[1..], hook)
  }

  /**
   * An empty hook setting registers nothing. A configured hook registers one
   * action on that hook: at the default priority when the priority setting
   * is empty, and at `n` when the priority is spelled as the integer `n`
   * (where "0" counts as empty and gives the default too).
   */
  lemma PageHooksConfigured(settings: Array<string>, hookSetting: Key, prioritySetting: Key,
                            defaultPriority: int, callback: Callback, hook: string, n: int)
    ensures IsEmptySetting(settings, hookSetting) ==> PageHooks(settings, hookSetting, prioritySetting, defaultPriority, callback) == []
    ensures Get(settings, hookSetting) == Some(hook) && hook != "" && hook != "0" && IsEmptySetting(settings, prioritySetting) ==>
              PageHooks(settings, hookSetting, prioritySetting, defaultPriority, callback)
              == [Action(hook, callback, defaultPriority, 0)]
    ensures Get(settings, hookSetting) == Some(hook) && hook != "" && hook != "0" &&
            Get(settings, prioritySetting) == Some(IntToString(n)) ==>
              PageHooks(settings, hookSetting, prioritySetting, defaultPriority, callback)
              == [Action(hook, callback, if n == 0 then defaultPriority else n, 0)]
  {
    if Get(settings, prioritySetting) == Some(IntToString(n)) {
      HookPriorityOfNumber(settings, prioritySetting, defaultPriority, n);
    }
  }

  lemma {:induction false} OnHookConcat(a: seq<Registration>, b: seq<Registration>, hook: string)
    ensures OnHook(a + b, hook) == OnHook(a, hook) + OnHook(b, hook)
    decreases |a|
  {
    if a != [] {
      var c := a + b;
      assert c[0] == a[0] && c[1..] == a[1..] + b;
      OnHookConcat(a[1..], b, hook);
      var head := if !a[0].Shortcode? && a[0].hook == hook then [a[0]] else [];
      calc {
        OnHook(c, hook);
        head + OnHook(a[1..] + b, hook);
        head + (OnHook(a[1..], hook) + OnHook(b, hook));
        OnHook(a, hook) + OnHook(b, hook);
      }
    } else {
      assert a + b == b;
    }
  }

  lemma {:induction false} OnHookNone(regs: seq<Registration>, hook: string)
    requires forall i :: 0 <= i < |regs| ==> regs[i].Shortcode? || regs[i].hook != hook
    ensures OnHook(regs, hook) == []
    decreases |regs|
  {
    if regs != [] {
      OnHookNone(regs[1..], hook);
    }
  }

  /** No hook shorter than the settings-save prefix, or differing from it in its second letter, is a settings-save hook. */
  lemma NotUpdateOptionsHook(hook: string, gatewayId: string)
    requires |hook| < |UpdateOptionsPrefix| || (|hook| > 1 && hook[1] == 'p')
    ensures hook != UpdateOptionsHook(gatewayId)
  {
    assert UpdateOptionsPrefix[1] == 'o';
    assert UpdateOptionsHook(gatewayId)[1] == UpdateOptionsPrefix[1];
  }

  /**
   * Saving the gateway settings runs, in this order, the settings save at
   * priority 10, the configuration refresh at 11 and the cron jobs at 12,
   * and no other action of the constructor's list.
   */
  lemma UpdateOptionsOrder(gatewayId: string)
    ensures OnHook(ActionRegistrations(gatewayId), UpdateOptionsHook(gatewayId))
         == [ Action(UpdateOptionsHook(gatewayId), Method(GatewayObject, "process_admin_options"), 10, 0),
              Action(UpdateOptionsHook(gatewayId), Method(GatewayObject, "refresh_cached_configuration"), 11, 0),
              Action(UpdateOptionsHook(gatewayId), Method(CronClass, "fire_jobs"), 12, 0) ]
  {
    var h := UpdateOptionsHook(gatewayId);
    var admin := AdminActions();
    var update := UpdateOptionsActions(gatewayId);
    var store := StoreActions();
    var checkout := CheckoutActions();
    OtherGroupsNotOnUpdateOptions(gatewayId);
    OnHookConcat(admin + update + store, checkout, h);
    OnHookConcat(admin + update, store, h);
    OnHookConcat(admin, update, h);
    UpdateOptionsGroupOnHook(gatewayId);
  }

  lemma UpdateOptionsGroupOnHook(gatewayId: string)
    ensures OnHook(UpdateOptionsActions(gatewayId), UpdateOptionsHook(gatewayId)) == UpdateOptionsActions(gatewayId)
  {
    var h := UpdateOptionsHook(gatewayId);
    var update := UpdateOptionsActions(gatewayId);
    assert OnHook(update[1..][1..][1..], h) == [];
    assert OnHook(update[1..][1..], h) == [update[2]];
    assert OnHook(update[1..], h) == [update[1], update[2]];
  }

  lemma OtherGroupsNotOnUpdateOptions(gatewayId: string)
    ensures OnHook(AdminActions(), UpdateOptionsHook(gatewayId)) == []
    ensures OnHook(StoreActions(), UpdateOptionsHook(gatewayId)) == []
    ensures OnHook(CheckoutActions(), UpdateOptionsHook(gatewayId)) == []
  {
    AdminNotOnUpdateOptions(gatewayId);
    StoreNotOnUpdateOptions(gatewayId);
    CheckoutNotOnUpdateOptions(gatewayId);
  }

  lemma AdminNotOnUpdateOptions(gatewayId: string)
    ensures OnHook(AdminActions(), UpdateOptionsHook(gatewayId)) == []
  {
    var h := UpdateOptionsHook(gatewayId);
    var admin := AdminActions();
    forall i | 0 <= i < |admin| ensures admin[i].Shortcode? || admin[i].hook != h {
      NotUpdateOptionsHook(admin[i].hook, gatewayId);
    }
    OnHookNone(admin, h);
  }

  lemma StoreNotOnUpdateOptions(gatewayId: string)
    ensures OnHook(StoreActions(), UpdateOptionsHook(gatewayId)) == []
  {
    var h := UpdateOptionsHook(gatewayId);
    var store := StoreActions();
    forall i | 0 <= i < |store| ensures store[i].Shortcode? || store[i].hook != h {
      NotUpdateOptionsHook(store[i].hook, gatewayId);
    }
    OnHookNone(store, h);
  }

  lemma CheckoutNotOnUpdateOptions(gatewayId: string)
    ensures OnHook(CheckoutActions(), UpdateOptionsHook(gatewayId)) == []
  {
    var h := UpdateOptionsHook(gatewayId);
    var checkout := CheckoutActions();
    forall i | 0 <= i < |checkout| ensures checkout[i].Shortcode? || checkout[i].hook != h {
      NotUpdateOptionsHook(checkout[i].hook, gatewayId);
    }
    OnHookNone(checkout, h);
  }

  /** A Clearpay_Plugin instance; the plugin keeps all its state at class level. */
  class ClearpayPlugin {

    /** The constructor registers the static actions, filters and shortcodes, then the page hooks. */
    constructor (gateway: Gateway, pluginBasename: string, registry: HookRegistry)
      modifies registry
      ensures registry.entries == old(registry.entries) + ConstructorRegistrations(gateway, pluginBasename)
    {
      new;
      ghost var start := registry.entries;
      RegisterActions(gateway.id, registry);
      RegisterFilters(pluginBasename, registry);
      registry.AddShortcode("clearpay_product_logo", Method(PluginObject, "shortcode_clearpay_product_logo"));
      registry.AddShortcode("clearpay_paragraph", Method(GatewayObject, "shortcode_clearpay_paragraph"));
      ghost var statics := registry.entries;
      assert statics == start + (ActionRegistrations(gateway.id) + FilterRegistrations(pluginBasename) + ShortcodeRegistrations());
      var _ := GenerateProductHooks(gateway, registry);
      var _ := GenerateCategoryHooks(gateway, registry);
      assert registry.entries == statics + ProductPageHooks(gateway.settings) + CategoryPageHooks(gateway.settings);
    }

    static method RegisterActions(gatewayId: string, registry: HookRegistry)
      modifies registry
      ensures registry.entries == old(registry.entries) + ActionRegistrations(gatewayId)
    {
      ghost var start := registry.entries;
      RegisterAdminActions(registry);
      RegisterUpdateOptionsActions(gatewayId, registry);
      RegisterStoreActions(registry);
      RegisterCheckoutActions(registry);
      assert registry.entries == start + AdminActions() + UpdateOptionsActions(gatewayId) + StoreActions() + CheckoutActions();
    }

    static method RegisterAdminActions(registry: HookRegistry)
      modifies registry
      ensures registry.entries == old(registry.entries) + AdminActions()
    {
      registry.AddAction("admin_notices", Method(GatewayObject, "render_admin_notices"), 10, 0);
      registry.AddAction("admin_enqueue_scripts", Method(PluginObject, "init_admin_assets"), 10, 1);
      registry.AddAction("clearpay_do_cron_jobs", Method(CronClass, "fire_jobs"), 10, 0);
    }

    static method RegisterUpdateOptionsActions(gatewayId: string, registry: HookRegistry)
      modifies registry
      ensures registry.entries == old(registry.entries) + UpdateOptionsActions(gatewayId)
    {
      registry.AddAction(UpdateOptionsHook(gatewayId), Method(GatewayObject, "process_admin_options"), 10, 0);
      registry.AddAction(UpdateOptionsHook(gatewayId), Method(GatewayObject, "refresh_cached_configuration"), 11, 0);
      registry.AddAction(UpdateOptionsHook(gatewayId), Method(CronClass, "fire_jobs"), 12, 0);
    }

    static method RegisterStoreActions(registry: HookRegistry)
      modifies registry
      ensures registry.entries == old(registry.entries) + StoreActions()
    {
      registry.AddAction("woocommerce_cart_totals_after_order_total", Method(GatewayObject, "render_cart_page_elements"), 10, 0);
      registry.AddAction("woocommerce_order_status_changed", Method(GatewayObject, "collect_shipping_data"), 10, 3);
      registry.AddAction("wp_enqueue_scripts", Method(PluginObject, "init_website_assets"), 10, 0);
      registry.AddAction(AjaxHook("clearpay_action"), Method(GatewayObject, "reset_settings_api_form_fields"), 10, 0);
    }

    static method RegisterCheckoutActions(registry: HookRegistry)
      modifies registry
      ensures registry.entries == old(registry.entries) + CheckoutActions()
    {
      registry.AddAction(AjaxHook("clearpay_express_start"), Method(GatewayObject, "generate_express_token"), 10, 0);
      registry.AddAction(NoPrivAjaxHook("clearpay_express_start"), Method(GatewayObject, "generate_express_token"), 10, 0);
      registry.AddAction(AjaxHook("clearpay_express_change"), Method(GatewayObject, "fetch_express_shipping"), 10, 0);
      registry.AddAction(NoPrivAjaxHook("clearpay_express_change"), Method(GatewayObject, "fetch_express_shipping"), 10, 0);
      registry.AddAction(AjaxHook("clearpay_express_shipping_change"), Method(GatewayObject, "express_update_wc_shipping"), 10, 0);
      registry.AddAction(NoPrivAjaxHook("clearpay_express_shipping_change"), Method(GatewayObject, "express_update_wc_shipping"), 10, 0);
      // add_action's defaults: priority 10, one accepted argument
      registry.AddAction(AjaxHook("clearpay_express_complete"), Method(GatewayObject, "create_order_and_capture_endpoint"), 10, 1);
      registry.AddAction(NoPrivAjaxHook("clearpay_express_complete"), Method(GatewayObject, "create_order_and_capture_endpoint"), 10, 1);
      registry.AddAction("woocommerce_api_wc_gateway_clearpay", Method(GatewayObject, "capture_payment"), 10, 1);
    }

    static method RegisterFilters(pluginBasename: string, registry: HookRegistry)
      modifies registry
      ensures registry.entries == old(registry.entries) + FilterRegistrations(pluginBasename)
    {
      registry.AddFilter("plugin_action_links_" + pluginBasename, Method(PluginObject, "filter_action_links"), 10, 1);
      registry.AddFilter("cron_schedules", Method(CronClass, "edit_cron_schedules"), 10, 1);
      registry.AddFilter("woocommerce_payment_gateways", Method(GatewayObject, "add_clearpay_gateway"), 10, 1);
      registry.AddFilter("woocommerce_get_price_html", Method(GatewayObject, "filter_woocommerce_get_price_html"), 10, 2);
      registry.AddFilter("woocommerce_gateway_icon", Method(GatewayObject, "filter_woocommerce_gateway_icon"), 10, 2);
      registry.AddFilter("__experimental_woocommerce_blocks_add_data_attributes_to_namespace", Closure, 10, 1);
    }

    /** `generate_product_hooks`: adds the product page action when one is configured, and reports success. */
    method GenerateProductHooks(gateway: Gateway, registry: HookRegistry) returns (ok: bool)
      modifies registry
      ensures ok
      ensures registry.entries == old(registry.entries) + ProductPageHooks(gateway.settings)
    {
      ok := RegisterPageHook(gateway.settings, ProductHookSetting, ProductPrioritySetting,
                             DefaultProductPriority, ProductPageCallback, registry);
    }

    /** `generate_category_hooks`: adds the category page action when one is configured, and reports success. */
    method GenerateCategoryHooks(gateway: Gateway, registry: HookRegistry) returns (ok: bool)
      modifies registry
      ensures ok
      ensures registry.entries == old(registry.entries) + CategoryPageHooks(gateway.settings)
    {
      ok := RegisterPageHook(gateway.settings, CategoryHookSetting, CategoryPrioritySetting,
                             DefaultCategoryPriority, CategoryPageCallback, registry);
    }

    static method RegisterPageHook(settings: Array<string>, hookSetting: Key, prioritySetting: Key,
                                   defaultPriority: int, callback: Callback, registry: HookRegistry) returns (ok: bool)
      modifies registry
      ensures ok
      ensures registry.entries == old(registry.entries) + PageHooks(settings, hookSetting, prioritySetting, defaultPriority, callback)
    {
      if !IsEmptySetting(settings, hookSetting) {
        var hook := Get(settings, hookSetting).value;
        var priority: int;
        if !IsEmptySetting(settings, prioritySetting) {
          priority := IntCast(Get(settings, prioritySetting).value);
        } else {
          priority := defaultPriority;
        }
        registry.AddAction(hook, callback, priority, 0);
      }
      return true;
    }
  }

  /** The class-level state of Clearpay_Plugin: its single instance, once created. */
  class PluginLoader {
    var instance: ClearpayPlugin?

    constructor ()
      ensures instance == null
    {
      instance := null;
    }

    /**
     * `init`: `None` (PHP's false) when the gateway class is not loaded;
     * otherwise the single instance, constructed by the first such call and
     * returned unchanged, without registering anything again, by later ones.
     */
    method Init(gatewayLoaded: bool, gateway: Gateway, pluginBasename: string, registry: HookRegistry)
      returns (r: Option<ClearpayPlugin>)
      modifies this, registry
      ensures !gatewayLoaded ==> r == None && instance == old(instance) && registry.entries == old(registry.entries)
      ensures gatewayLoaded ==> instance != null && r.Some? && r.value == instance
      ensures gatewayLoaded && old(instance) != null ==>
                instance == old(instance) && registry.entries == old(registry.entries)
      ensures gatewayLoaded && old(instance) == null ==>
                fresh(instance) && registry.entries == old(registry.entries) + ConstructorRegistrations(gateway, pluginBasename)
    {
      if !gatewayLoaded {
        return None;
      }
      if instance == null {
        instance := new ClearpayPlugin(gateway, pluginBasename, registry);
      }
      r := Some(instance);
    }

    /**
     * `register_js_lib`: nothing when `init` fails; otherwise the URL the
     * marketplace script is registered with, for the gateway's API environment.
     */
    method RegisterJsLib(gatewayLoaded: bool, gateway: Gateway, pluginBasename: string,
                         registry: HookRegistry, apiEnv: string) returns (src: Option<string>)
      modifies this, registry
      ensures !gatewayLoaded ==> src == None
      ensures gatewayLoaded ==> src == Some(MarketplaceScriptUrl(apiEnv))
      ensures gatewayLoaded ==> (src == Some(LiveScriptUrl) <==> apiEnv == "production")
      ensures !gatewayLoaded ==> instance == old(instance) && registry.entries == old(registry.entries)
      ensures gatewayLoaded ==> instance != null && (old(instance) != null ==> instance == old(instance))
                                && (old(instance) == null ==> fresh(instance))
      ensures gatewayLoaded && old(instance) != null ==> registry.entries == old(registry.entries)
      ensures gatewayLoaded && old(instance) == null ==>
                registry.entries == old(registry.entries) + ConstructorRegistrations(gateway, pluginBasename)
    {
      var plugin := Init(gatewayLoaded, gateway, pluginBasename, registry);
      if plugin.None? {
        return None;
      }
      var subdomain := CdnSubdomain(apiEnv);
      src := Some("https://" + subdomain + ScriptPath);
    }

    /**
     * The state after the calls to `init` that produced `fired`: untouched
     * while none has succeeded; after the first success, the instance exists
     * and the constructor's registrations were made once if it was created
     * then.
     */
    predicate InitHistory(fired: seq<Option<nat>>, before: ClearpayPlugin?, entriesBefore: seq<Registration>,
                          added: seq<Registration>, registry: HookRegistry)
      reads this, registry
    {
      if fired == [] || before != null then instance == before && registry.entries == entriesBefore
      else instance != null && registry.entries == entriesBefore + added
    }

    /**
     * One call to `init` followed, when it succeeds, by one fire of the cron
     * jobs on `site`.
     */
    method FireIfInitialised(site: Option<nat>, gatewayLoaded: bool, gateway: Gateway, ourPlugin: string, registry: HookRegistry,
                             ghost firedBefore: seq<Option<nat>>, ghost before: ClearpayPlugin?, ghost entriesBefore: seq<Registration>,
                             ghost added: seq<Registration>)
      returns (more: seq<Option<nat>>)
      modifies this, registry
      requires added == ConstructorRegistrations(gateway, ourPlugin)
      requires InitHistory(firedBefore, before, entriesBefore, added, registry)
      ensures more == if gatewayLoaded then [site] else []
      ensures InitHistory(firedBefore + more, before, entriesBefore, added, registry)
      ensures instance == old(instance) || fresh(instance)
    {
      var plugin := Init(gatewayLoaded, gateway, ourPlugin, registry);
      more := if plugin.Some? then [site] else [];
      assert firedBefore + [] == firedBefore;
    }

    /**
     * The fires for one entry of the plugin list equal to our basename: one
     * per site of the network, switching to each site's blog in turn, or one
     * on a single site.
     */
    method FireForMatch(multisite: bool, sites: seq<nat>, gatewayLoaded: bool, gateway: Gateway, ourPlugin: string, registry: HookRegistry,
                        ghost firedBefore: seq<Option<nat>>, ghost before: ClearpayPlugin?, ghost entriesBefore: seq<Registration>,
                        ghost added: seq<Registration>)
      returns (more: seq<Option<nat>>)
      modifies this, registry
      requires added == ConstructorRegistrations(gateway, ourPlugin)
      requires InitHistory(firedBefore, before, entriesBefore, added, registry)
      ensures more == FiresPerMatch(multisite, sites, gatewayLoaded)
      ensures InitHistory(firedBefore + more, before, entriesBefore, added, registry)
      ensures instance == old(instance) || fresh(instance)
    {
      if multisite {
        more := [];
        var j := 0;
        while j < |sites|
          invariant 0 <= j <= |sites|
          invariant more == FiresPerMatch(multisite, sites[..j], gatewayLoaded)
          invariant InitHistory(firedBefore + more, before, entriesBefore, added, registry)
          invariant instance == old(instance) || fresh(instance)
        {
          var fire := FireIfInitialised(Some(sites[j]), gatewayLoaded, gateway, ourPlugin, registry,
                                        firedBefore + more, before, entriesBefore, added);
          assert firedBefore + more + fire == firedBefore + (more + fire);
          more := more + fire;
          assert FiresPerMatch(multisite, sites[..j + 1], gatewayLoaded) == more;
          j := j + 1;
        }
        assert sites[..|sites|] == sites;
      } else {
        more := FireIfInitialised(None, gatewayLoaded, gateway, ourPlugin, registry, firedBefore, before, entriesBefore, added);
      }
    }

    /**
     * `upgrade_complete`: walks the updated plugins and handles each one
     * equal to our basename. The fires are those of `UpgradeFires`, and the
     * plugin is constructed at most once, by the first successful `init`.
     */
    method UpgradeComplete(options: UpgradeOptions, ourPlugin: string, multisite: bool, sites: seq<nat>,
                           gatewayLoaded: bool, gateway: Gateway, registry: HookRegistry)
      returns (fired: seq<Option<nat>>)
      modifies this, registry
      ensures fired == UpgradeFires(options, ourPlugin, multisite, sites, gatewayLoaded)
      ensures fired == [] || old(instance) != null ==>
                instance == old(instance) && registry.entries == old(registry.entries)
      ensures fired != [] && old(instance) == null ==>
                fresh(instance) && registry.entries == old(registry.entries) + ConstructorRegistrations(gateway, ourPlugin)
    {
      fired := [];
      if !UpgradeApplies(options) {
        return;
      }
      var plugins := options.plugins.value;
      ghost var added := ConstructorRegistrations(gateway, ourPlugin);
      var i := 0;
      while i < |plugins|
        invariant 0 <= i <= |plugins|
        invariant fired == FiresFor(plugins[..i], ourPlugin, multisite, sites, gatewayLoaded)
        invariant InitHistory(fired, old(instance), old(registry.entries), added, registry)
        invariant instance == old(instance) || fresh(instance)
      {
        assert plugins[..i + 1][..i] == plugins[..i];
        if plugins[i] == ourPlugin {
          var more := FireForMatch(multisite, sites, gatewayLoaded, gateway, ourPlugin, registry,
                                   fired, old(instance), old(registry.entries), added);
          fired := fired + more;
        } else {
          assert fired + [] == fired;
        }
        i := i + 1;
      }
      assert plugins[..|plugins|] == plugins;
    }
  }
}
