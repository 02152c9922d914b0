/**
 * The dependency gate of the core plugin class `Wholesalex_WCFM`: the status of each
 * required plugin, whether all of them pass, and what the constructor wires up as a result.
 */
module Dependencies {
  import opened Wrappers
  import opened OrderedMaps

  /** An entry of the required-plugins array the main plugin file passes in. */
  datatype PluginSpec = PluginSpec(path: string, version: string)

  /** An entry of `$dependency_statuses`. */
  datatype DependencyStatus = DependencyStatus(path: string, isExist: bool, isActive: bool)

  /**
   * What the WordPress installation reports: the `active_plugins` option, multisite and the
   * keys of `active_sitewide_plugins`, `file_exists` under the plugin directory, the
   * `WHOLESALEX_VER` and `WHOLESALEX_WCFM_VERSION` constants when defined, `version_compare(a, b, '>=')`,
   * and the admin context `define_notices` looks at.
   */
  datatype Site = Site(
    activePlugins: seq<string>,
    isMultisite: bool,
    sitewidePlugins: seq<string>,
    pluginFileExists: string -> bool,
    wholesalexVer: Option<string>,
    wcfmVersion: Option<string>,
    versionAtLeast: (string, string) -> bool,
    isAdmin: bool,
    canActivatePlugins: bool)

  const MinimumWholesalexVersion: string := "1.2.4"
  const DefaultVersion: string := "1.0.0"
  const PluginName: string := "wholesalex-wcfm-b2b-multivendor-marketplace"
  const WholesalexKey: string := "WholesaleX"

  /** The plugin list the main plugin file hands to the constructor. */
  function RequiredPlugins(): OrderedMap<string, PluginSpec> {
    [("WooCommerce", PluginSpec("woocommerce/woocommerce.php", "")),
     ("WholesaleX", PluginSpec("wholesalex/wholesalex.php", MinimumWholesalexVersion)),
     ("WCFM", PluginSpec("wc-frontend-manager/wc_frontend_manager.php", ""))]
  }

  /** `$active_plugins`: the site's active plugins, followed on multisite by the network-activated ones. */
  function ActivePluginList(site: Site): seq<string> {
    if site.isMultisite then site.activePlugins + site.sitewidePlugins else site.activePlugins
  }

  /** The status of one plugin: it exists when its main file does, and is active when it also is in the active list. */
  function StatusOf(plugin: PluginSpec, site: Site): DependencyStatus {
    var isExist := site.pluginFileExists(plugin.path);
    DependencyStatus(plugin.path, isExist, isExist && plugin.path in ActivePluginList(site))
  }

  /** `$dependency_statuses` after the foreach over the first n plugins. */
  function StatusesUpTo(plugins: OrderedMap<string, PluginSpec>, site: Site, n: nat): OrderedMap<string, DependencyStatus>
    requires n <= |plugins|
  {
    if n == 0 then []
    else Set(StatusesUpTo(plugins, site, n - 1), plugins[n - 1].0, StatusOf(plugins[n - 1].1, site))
  }

  /** One more pass of the foreach writes the next plugin's status under its key. */
  lemma StatusesUpToStep(plugins: OrderedMap<string, PluginSpec>, site: Site, n: nat)
    requires n < |plugins|
    ensures StatusesUpTo(plugins, site, n + 1) == Set(StatusesUpTo(plugins, site, n), plugins[n].0, StatusOf(plugins[n].1, site))
  {
  }

  /** `$dependency_statuses` after the whole foreach. */
  function StatusesOf(plugins: OrderedMap<string, PluginSpec>, site: Site): OrderedMap<string, DependencyStatus> {
    StatusesUpTo(plugins, site, |plugins|)
  }

  predicate AllActive(statuses: OrderedMap<string, DependencyStatus>) {
    forall i :: 0 <= i < |statuses| ==> statuses[i].1.isActive
  }

  /** `WHOLESALEX_VER` is defined and at least 1.2.4. */
  predicate WholesalexRecentEnough(site: Site) {
    site.wholesalexVer.Some? && site.versionAtLeast(site.wholesalexVer.value, MinimumWholesalexVersion)
  }

  predicate DependencyPass(statuses: OrderedMap<string, DependencyStatus>, site: Site) {
    AllActive(statuses) && WholesalexRecentEnough(site)
  }

  /** Which hooks the constructor registers: the public ones, or the failure notices and the install callback. */
  datatype Wiring = PublicHooks | Notices(introNotice: bool)

  class WholesalexWcfm {
    var version: string
    var pluginName: string
    var plugins: OrderedMap<string, PluginSpec>
    var wiring: Wiring

    constructor(plugins: OrderedMap<string, PluginSpec>, site: Site)
      ensures version == site.wcfmVersion.GetOr(DefaultVersion)
      ensures pluginName == PluginName
      ensures this.plugins == plugins
      ensures DependencyPass(StatusesOf(plugins, site), site) ==> wiring == PublicHooks
      ensures !DependencyPass(StatusesOf(plugins, site), site) ==>
        wiring == Notices(site.isAdmin && site.canActivatePlugins && WholesalexKey in Keys(StatusesOf(plugins, site)))
    {
      if site.wcfmVersion.Some? {
        version := site.wcfmVersion.value;
      } else {
        version := DefaultVersion;
      }
      pluginName := PluginName;
      this.plugins := plugins;
      wiring := PublicHooks;
      new;
      var statuses := CheckRequiredPluginsStatus(site);
      var pass := IsDependencyPass(statuses, site);
      if !pass {
        var introNotice := DefineNotices(statuses, site);
        wiring := Notices(introNotice);
      }
    }

    /** `check_required_plugins_status`. */
    method CheckRequiredPluginsStatus(site: Site) returns (statuses: OrderedMap<string, DependencyStatus>)
      ensures statuses == StatusesOf(plugins, site)
    {
      var activePlugins := site.activePlugins;
      if site.isMultisite {
        activePlugins := activePlugins + site.sitewidePlugins;
      }
      assert activePlugins == ActivePluginList(site);
      var all := plugins;
      statuses := [];
      var i := 0;
      while i < |all|
        invariant 0 <= i <= |all|
        invariant statuses == StatusesUpTo(all, site, i)
      {
        var key := all[i].0;
        var plugin := all[i].1;
        var isExist := site.pluginFileExists(plugin.path);
        var isActive := isExist && plugin.path in activePlugins;
        var status := DependencyStatus(plugin.path, isExist, isActive);
        assert status == StatusOf(all[i].1, site);
        statuses := Set(statuses, key, status);
        StatusesUpToStep(all, site, i);
        i := i + 1;
      }
    }

    /** `is_dependency_pass`: stops at the first inactive plugin, then asks for WholesaleX 1.2.4 or later. */
    method IsDependencyPass(statuses: OrderedMap<string, DependencyStatus>, site: Site) returns (pass: bool)
      ensures pass == DependencyPass(statuses, site)
    {
      var i := 0;
      while i < |statuses|
        invariant 0 <= i <= |statuses|
        invariant forall j :: 0 <= j < i ==> statuses[j].1.isActive
      {
        if !statuses[i].1.isActive {
          return false;
        }
        i := i + 1;
      }
      pass := WholesalexRecentEnough(site);
    }

    /** `define_notices`: the WholesaleX notice is added for an admin who may activate plugins, when WholesaleX is among the statuses. */
    method DefineNotices(statuses: OrderedMap<string, DependencyStatus>, site: Site) returns (introNotice: bool)
      ensures introNotice <==> site.isAdmin && site.canActivatePlugins && WholesalexKey in Keys(statuses)
    {
      introNotice := false;
      if site.isAdmin && site.canActivatePlugins {
        var i := 0;
        while i < |statuses|
          invariant 0 <= i <= |statuses|
          invariant introNotice <==> exists j :: 0 <= j < i && statuses[j].0 == WholesalexKey
        {
          if statuses[i].0 == WholesalexKey {
            introNotice := true;
          }
          i := i + 1;
        }
        InKeys(statuses, WholesalexKey);
      }
    }
  }

  /** A plugin counts as active only if its file exists, after any number of passes. */
  lemma {:induction false} ActiveImpliesExists(plugins: OrderedMap<string, PluginSpec>, site: Site, n: nat, i: int)
    requires n <= |plugins| && 0 <= i < |StatusesUpTo(plugins, site, n)|
    ensures StatusesUpTo(plugins, site, n)[i].1.isActive ==> StatusesUpTo(plugins, site, n)[i].1.isExist
  {
    if n > 0 {
      var prev := StatusesUpTo(plugins, site, n - 1);
      StatusesUpToStep(plugins, site, n - 1);
      SetAt(prev, plugins[n - 1].0, StatusOf(plugins[n - 1].1, site), i);
      if i < |prev| {
        ActiveImpliesExists(plugins, site, n - 1, i);
      }
    }
  }

  /** With distinct plugin keys, the first n passes list each plugin's status under the plugin's key, in order. */
  lemma {:induction false} StatusesPointwise(plugins: OrderedMap<string, PluginSpec>, site: Site, n: nat)
    requires DistinctKeys(plugins) && n <= |plugins|
    ensures |StatusesUpTo(plugins, site, n)| == n
    ensures forall i :: 0 <= i < n ==> StatusesUpTo(plugins, site, n)[i] == (plugins[i].0, StatusOf(plugins[i].1, site))
  {
    if n > 0 {
      var prev := StatusesUpTo(plugins, site, n - 1);
      var k := plugins[n - 1].0;
      var status := StatusOf(plugins[n - 1].1, site);
      StatusesPointwise(plugins, site, n - 1);
      assert k !in Keys(prev) by {
        forall i | 0 <= i < |prev| ensures prev[i].0 != k {
          assert prev[i].0 == plugins[i].0;
        }
        InKeys(prev, k);
      }
      var r := prev + [(k, status)];
      assert StatusesUpTo(plugins, site, n) == r by {
        StatusesUpToStep(plugins, site, n - 1);
        SetFresh(prev, k, status);
      }
      forall i | 0 <= i < n ensures r[i] == (plugins[i].0, StatusOf(plugins[i].1, site)) {
        if i < n - 1 {
          assert r[i] == prev[i];
        }
      }
    }
  }

  /** With distinct plugin keys, the statuses are keyed exactly like the plugins. */
  lemma StatusesKeys(plugins: OrderedMap<string, PluginSpec>, site: Site)
    requires DistinctKeys(plugins)
    ensures Keys(StatusesOf(plugins, site)) == Keys(plugins)
  {
    StatusesPointwise(plugins, site, |plugins|);
    var r := StatusesOf(plugins, site);
    forall i | 0 <= i < |r| ensures Keys(r)[i] == Keys(plugins)[i] {
      KeysAt(r, i);
      KeysAt(plugins, i);
    }
  }

  /** With distinct plugin keys, each plugin's key holds that plugin's status. */
  lemma StatusesByPlugin(plugins: OrderedMap<string, PluginSpec>, site: Site, i: int)
    requires DistinctKeys(plugins) && 0 <= i < |plugins|
    ensures Get(StatusesOf(plugins, site), plugins[i].0) == Some(StatusOf(plugins[i].1, site))
  {
    StatusesPointwise(plugins, site, |plugins|);
    GetAt(StatusesOf(plugins, site), i);
  }

  /** The gate passes exactly when every plugin's file exists and is in the active list, and WholesaleX is recent enough. */
  lemma PassMeansEveryPluginActive(plugins: OrderedMap<string, PluginSpec>, site: Site)
    requires DistinctKeys(plugins)
    ensures DependencyPass(StatusesOf(plugins, site), site) <==>
      (forall i :: 0 <= i < |plugins| ==> site.pluginFileExists(plugins[i].1.path) && plugins[i].1.path in ActivePluginList(site))
      && WholesalexRecentEnough(site)
  {
    StatusesPointwise(plugins, site, |plugins|);
  }

  /** The plugin list the add-on starts with has distinct keys, so the lemmas above apply to it. */
  lemma RequiredPluginsDistinct()
    ensures DistinctKeys(RequiredPlugins())
  {
  }

  /**
   * For the add-on's own plugin list, the statuses are keyed WooCommerce, WholesaleX, WCFM, and the gate
   * passes exactly when those three plugin files exist and are active and WholesaleX is recent enough.
   */
  lemma RequiredPluginsGate(site: Site)
    ensures Keys(StatusesOf(RequiredPlugins(), site)) == ["WooCommerce", "WholesaleX", "WCFM"]
    ensures DependencyPass(StatusesOf(RequiredPlugins(), site), site) <==>
      (forall path :: path in ["woocommerce/woocommerce.php", "wholesalex/wholesalex.php", "wc-frontend-manager/wc_frontend_manager.php"] ==>
        site.pluginFileExists(path) && path in ActivePluginList(site))
      && WholesalexRecentEnough(site)
  {
    var plugins := RequiredPlugins();
    RequiredPluginsDistinct();
    StatusesKeys(plugins, site);
    PassMeansEveryPluginActive(plugins, site);
    assert Keys(plugins) == ["WooCommerce", "WholesaleX", "WCFM"] by {
      KeysAt(plugins, 0);
      KeysAt(plugins, 1);
      KeysAt(plugins, 2);
    }
    assert [plugins[0].1.path, plugins[1].1.path, plugins[2].1.path]
      == ["woocommerce/woocommerce.php", "wholesalex/wholesalex.php", "wc-frontend-manager/wc_frontend_manager.php"];
  }

  /** On multisite, a plugin that is only network-activated still counts as active. */
  lemma SitewideCountsAsActive(plugin: PluginSpec, site: Site)
    requires site.isMultisite && site.pluginFileExists(plugin.path)
    requires plugin.path !in site.activePlugins && plugin.path in site.sitewidePlugins
    ensures StatusOf(plugin, site).isActive
  {
  }

  /** Whatever the plugins, the gate fails while `WHOLESALEX_VER` is undefined. */
  lemma NoWholesalexNoPass(statuses: OrderedMap<string, DependencyStatus>, site: Site)
    requires site.wholesalexVer.None?
    ensures !DependencyPass(statuses, site)
  {
  }
}
