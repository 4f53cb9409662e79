/**
 * `Multisite_Plugin_Updater`: one instance per externally updated plugin. It
 * answers WordPress's update check and plugin-information request by asking
 * the plugin's update server, and, when the plugin holds no license on the
 * network admin site, first scans the network's blogs for one that does.
 *
 * The pure functions below say what each step computes; the class's methods
 * do it step by step and are proved to agree with them.
 */
module Updater {
  import opened Php
  import opened WordPress
  import opened RequestGate

  /** The instance's fields. */
  datatype Fields = Fields(
    apiUrl: string,
    apiData: Data,
    name: string,
    slug: string,
    version: string,
    author: string,
    blogUrl: string,
    itemName: string)

  /** The plugin header fields the constructor asks `get_file_data` for. */
  datatype PluginHeader = PluginHeader(pluginName: string, pluginUri: string, version: string, author: string)

  /** The library calls the constructor makes: `get_file_data`,
      `plugin_basename`, `basename($file, '.php')`, `trailingslashit`. */
  datatype PluginLib = PluginLib(
    fileData: string -> PluginHeader,
    pluginBasename: string -> string,
    basenamePhp: string -> string,
    trailingSlashIt: string -> string)

  // ---------------------------------------------------------------------
  // get_active_plugins

  /** What `get_active_plugins` returns: a list, a non-array (when the site's
      option holds one and there is no sitewide row), or a TypeError raised by
      `array_merge`/`array_keys` on a non-array. */
  datatype Listing = NonArray | Ids(ids: seq<PluginId>) | TypeError

  /** A site's own `active_plugins` option; no row reads as an empty list. */
  function SiteOption(t: Tables, site: BlogId): Stored
  {
    match OptionRow(t, site, "active_plugins")
    case None => Array([])
    case Some(v) => v
  }

  /** The plugins active on a site: its `active_plugins` option followed by the
      keys of the network's `active_sitewide_plugins`. */
  function ActivePlugins(t: Tables, site: BlogId): (r: Listing)
    ensures r.NonArray? <==> t.sitewide.None? && SiteOption(t, site).Scalar?
    ensures r.TypeError? <==> t.sitewide.Some? && (SiteOption(t, site).Scalar? || t.sitewide.value.Scalar?)
    ensures r.Ids? ==> r.ids == SiteOption(t, site).items + (if t.sitewide.Some? then t.sitewide.value.items else [])
  {
    var plugins := SiteOption(t, site);
    match t.sitewide
    case None => if plugins.Array? then Ids(plugins.items) else NonArray
    case Some(meta) =>
      if plugins.Array? && meta.Array? then Ids(plugins.items + meta.items) else TypeError
  }

  // ---------------------------------------------------------------------
  // The license scan of api_request

  /** A hook result that can unlock updates: license, item name and version
      set, and an API url either already known or in the result. */
  predicate Complete(result: Data, apiUrl: string)
  {
    !EmptyAt(result, "license") && !EmptyAt(result, "item_name") && !EmptyAt(result, "version")
    && !(Empty(apiUrl) && EmptyAt(result, "api_url"))
  }

  /** What the scan makes of one blog. */
  datatype Verdict = Skip | Licensed(result: Data) | Crash

  /** One iteration of the scan: the hook is consulted only where the
      plugin is active. */
  function Consult(st: Fields, data: Data, t: Tables, host: Host, blog: BlogId): Verdict
  {
    match ActivePlugins(t, blog)
    case TypeError => Crash
    case NonArray => Skip
    case Ids(ids) =>
      if st.name !in ids then Skip
      else
        var result := host.licenseHook(st.slug, data, blog);
        if Complete(result, st.apiUrl) then Licensed(result) else Skip
  }

  datatype Scan = Found(at: nat, result: Data) | NotFound | Crashed

  /** The scan from blog i on: stops at the first blog that yields a
      complete license (or raises). */
  function ScanFrom(st: Fields, data: Data, t: Tables, host: Host, i: nat): (r: Scan)
    requires i <= |t.blogs|
    ensures r.Found? ==>
      i <= r.at < |t.blogs| && Consult(st, data, t, host, t.blogs[r.at]) == Licensed(r.result)
      && forall j :: i <= j < r.at ==> Consult(st, data, t, host, t.blogs[j]) == Skip
    ensures r == NotFound ==> forall j :: i <= j < |t.blogs| ==> Consult(st, data, t, host, t.blogs[j]) == Skip
    decreases |t.blogs| - i
  {
    if i == |t.blogs| then NotFound
    else match Consult(st, data, t, host, t.blogs[i])
      case Crash => Crashed
      case Licensed(result) => Found(i, result)
      case Skip => ScanFrom(st, data, t, host, i + 1)
  }

  /** The scan runs on a multisite network, in the network admin context,
      when the license, the item name or the API url is missing. */
  predicate ScanWanted(st: Fields, data: Data, host: Host)
  {
    host.isMultisite && NetworkAdminContext(host.isNetworkAdmin, host.referer)
    && (EmptyAt(data, "license") || EmptyAt(data, "item_name") || Empty(st.apiUrl))
  }

  /** The `break` branch of the scan: take the license found on `blog`. The API url is taken
      from the result only when the instance has none. */
  function Adopt(st: Fields, data: Data, result: Data, blog: BlogId, siteUrl: string): (Fields, Data)
  {
    var apiUrl := if Empty(st.apiUrl) then Get(result, "api_url") else st.apiUrl;
    var version := Get(result, "version");
    var author := if "author" in result then result["author"] else st.author;
    (st.(apiUrl := apiUrl, version := version, author := author),
     data["license" := Get(result, "license")]["item_name" := Get(result, "item_name")]
         ["version" := version]["author" := author]["blogid" := Decimal(blog)]["url" := siteUrl])
  }

  /** What `api_request` returns: false, the decoded response object, or a
      PHP error that ends the request. */
  datatype ApiResult = NoResponse | Response(info: UpdateInfo) | Fatal

  /** The request `api_request` posts, from the merged data after the scan. */
  function ApiRequestOf(st: Fields, data: Data, host: Host): Request
  {
    var url := if EmptyAt(data, "url") then host.siteUrl else data["url"];
    UpdateRequest(host, st.apiUrl, url, Get(data, "license"), Get(data, "item_name"), st.slug, st.author)
  }

  /** The request after the scan: without a license there is no request; a transport
      error is false; a body that is not an object ends in an error at the
      assignment of `blog_id`; otherwise sections are unserialised and the
      blog id of the last scanned blog (`$details`) is stored. */
  function Finish(st: Fields, data: Data, host: Host, details: Option<BlogId>): ApiResult
  {
    if "license" !in data then NoResponse
    else match host.post(ApiRequestOf(st, data, host))
      case TransportError => NoResponse
      case Body(None) => Fatal
      case Body(Some(o)) =>
        Response(o.(sections := if o.sections.Some? then Some(host.unserialize(o.sections.value)) else None,
                    blogId := details))
  }

  /** The `is_multisite()` block before the request: the license settled, as the
      instance's fields, the data to send and `$details`; None when the scan
      ends in a PHP error. */
  function Settle(st: Fields, data: Data, t: Tables, host: Host): Option<(Fields, Data, Option<BlogId>)>
  {
    if !ScanWanted(st, data, host) then Some((st, data, None))
    else match ScanFrom(st, data, t, host, 0)
      case Crashed => None
      case NotFound => Some((st, data, if |t.blogs| == 0 then None else Some(t.blogs[|t.blogs| - 1])))
      case Found(k, result) =>
        var (st', data') := Adopt(st, data, result, t.blogs[k], host.siteUrl);
        Some((st', data', Some(t.blogs[k])))
  }

  /** `api_request($action, $data)`: the instance's fields afterwards, and the
      result. */
  function ApiRequestSpec(st: Fields, data0: Data, t: Tables, host: Host): (Fields, ApiResult)
  {
    var data := st.apiData + data0;
    if Get(data, "slug") != st.slug then (st, NoResponse)
    else match Settle(st, data, t, host)
      case None => (st, Fatal)
      case Some((st', data', details)) => (st', Finish(st', data', host, details))
  }

  /** The data both filters pass to `api_request`. `isset($this->blog_url)`
      always holds, the field being a string, so the url is always sent. */
  function ToSend(st: Fields): Data
  {
    map["api_url" := st.apiUrl, "item_name" := st.itemName, "slug" := st.slug,
        "version" := st.version, "url" := st.blogUrl]
  }

  // ---------------------------------------------------------------------
  // The update transient

  /** `response[$name]` is set and carries a package. */
  predicate HasPackage(response: Option<map<PluginId, UpdateInfo>>, name: PluginId)
  {
    response.Some? && name in response.value && !EmptyOpt(response.value[name].package)
  }

  /** The final `if` of the filter: the response entry for the plugin is written only for a
      response object whose new version is above the local one. */
  function WriteResponse(response: Option<map<PluginId, UpdateInfo>>, name: PluginId, outcome: ApiResult,
                         localVersion: string, less: (string, string) -> bool): (r: Option<map<PluginId, UpdateInfo>>)
    ensures r != response ==>
      outcome.Response? && outcome.info.newVersion.Some? && less(localVersion, outcome.info.newVersion.value)
      && r.Some? && name in r.value && r.value[name] == outcome.info
    ensures forall k :: k != name ==>
      (response.Some? && k in response.value) == (r.Some? && k in r.value)
    ensures forall k :: k != name && response.Some? && k in response.value ==>
      r.Some? && r.value[k] == response.value[k]
  {
    if outcome.Response? && outcome.info.newVersion.Some? && less(localVersion, outcome.info.newVersion.value)
    then Some((if response.Some? then response.value else map[])[name := outcome.info])
    else response
  }

  /** What `plugins_api_filter` returns. */
  datatype InfoResult<D> = Passed(data: D) | Info(info: UpdateInfo) | InfoFatal

  /** The information request concerns this plugin. */
  predicate InfoRequested(action: string, argsSlug: Option<string>, slug: string)
  {
    action == "plugin_information" && argsSlug.Some? && argsSlug.value == slug
  }

  /** After `api_request`: false passes the original data through; a response has
      its compatibility property unserialised. */
  function InfoOf<D>(data: D, outcome: ApiResult, host: Host): InfoResult<D>
  {
    match outcome
    case NoResponse => Passed(data)
    case Fatal => InfoFatal
    case Response(o) =>
      Info(o.(compatibility := if o.compatibility.Some? then Some(host.unserialize(o.compatibility.value)) else None))
  }

  // ---------------------------------------------------------------------

  class MultisitePluginUpdater {
    var apiUrl: string
    var apiData: Data
    var name: string
    var slug: string
    var version: string
    var author: string
    var blogUrl: string
    var itemName: string

    function State(): Fields
      reads this
    {
      Fields(apiUrl, apiData, name, slug, version, author, blogUrl, itemName)
    }

    /** Fields from the arguments, falling back to the plugin
        header. Hook registration is not modelled. */
    constructor (apiUrlArg: string, pluginFile: string, apiDataArg: Data, lib: PluginLib)
      ensures var header := lib.fileData(pluginFile);
        State() == Fields(
          if Empty(apiUrlArg) then header.pluginUri else lib.trailingSlashIt(apiUrlArg),
          apiDataArg,
          lib.pluginBasename(pluginFile),
          lib.basenamePhp(pluginFile),
          if "version" in apiDataArg then apiDataArg["version"] else header.version,
          if "author" in apiDataArg then apiDataArg["author"] else header.author,
          if "blog_url" in apiDataArg then apiDataArg["blog_url"] else "",
          header.pluginName)
    {
      var header := lib.fileData(pluginFile);
      apiUrl := if Empty(apiUrlArg) then header.pluginUri else lib.trailingSlashIt(apiUrlArg);
      apiData := apiDataArg;
      name := lib.pluginBasename(pluginFile);
      slug := lib.basenamePhp(pluginFile);
      version := if "version" in apiDataArg then apiDataArg["version"] else header.version;
      author := if "author" in apiDataArg then apiDataArg["author"] else header.author;
      blogUrl := if "blog_url" in apiDataArg then apiDataArg["blog_url"] else "";
      itemName := header.pluginName;
    }

    /** `pre_set_site_transient_update_plugins_filter`: `fatal` is set when
        `api_request` ended in a PHP error, raised either by
        `get_active_plugins` on a blog of the scan or by the update server's
        answer. */
    method PreSetSiteTransientUpdatePluginsFilter(transient: UpdateTransient?, host: Host, db: Wpdb)
      returns (r: UpdateTransient?, fatal: bool)
      modifies this, db`blogid, transient
      ensures r == transient && db.blogid == old(db.blogid)
      ensures transient != null ==>
        transient.lastChecked == old(transient.lastChecked) && transient.checked == old(transient.checked)
      ensures transient == null || HasPackage(old(transient.response), old(name)) ==>
        State() == old(State()) && !fatal && (transient != null ==> transient.response == old(transient.response))
      ensures transient != null && !HasPackage(old(transient.response), old(name)) ==>
        var (st, outcome) := ApiRequestSpec(old(State()), ToSend(old(State())), db.tables, host);
        State() == st && fatal == outcome.Fatal?
        && transient.response == WriteResponse(old(transient.response), st.name, outcome, st.version, host.versionLess)
    {
      r, fatal := transient, false;
      if transient == null
        || (transient.response.Some? && name in transient.response.value
            && !EmptyOpt(transient.response.value[name].package))
      {
        return;
      }
      var toSend := map["api_url" := apiUrl, "item_name" := itemName, "slug" := slug, "version" := version];
      toSend := toSend["url" := blogUrl];
      assert toSend == ToSend(State());
      var apiResponse := ApiRequest("plugin_latest_version", toSend, host, db);
      if apiResponse.Fatal? {
        fatal := true;
        return;
      }
      if apiResponse.Response? && apiResponse.info.newVersion.Some?
        && host.versionLess(version, apiResponse.info.newVersion.value)
      {
        var entries := if transient.response.Some? then transient.response.value else map[];
        transient.response := Some(entries[name := apiResponse.info]);
      }
    }

    /** `plugins_api_filter($data, $action, $args)`; argsSlug is
        `$args->slug`, None when unset or when `$args` is null. */
    method PluginsApiFilter<D>(data: D, action: string, argsSlug: Option<string>, host: Host, db: Wpdb)
      returns (r: InfoResult<D>)
      modifies this, db`blogid
      ensures db.blogid == old(db.blogid)
      ensures !InfoRequested(action, argsSlug, old(slug)) ==> r == Passed(data) && State() == old(State())
      ensures InfoRequested(action, argsSlug, old(slug)) ==>
        var (st, outcome) := ApiRequestSpec(old(State()), ToSend(old(State())), db.tables, host);
        State() == st && r == InfoOf(data, outcome, host)
    {
      if action != "plugin_information" || argsSlug.None? || argsSlug.value != slug {
        return Passed(data);
      }
      var toSend := map["api_url" := apiUrl, "item_name" := itemName, "slug" := slug, "version" := version];
      toSend := toSend["url" := blogUrl];
      assert toSend == ToSend(State());
      var apiResponse := ApiRequest("plugin_information", toSend, host, db);
      if apiResponse.NoResponse? {
        return Passed(data);
      }
      if apiResponse.Fatal? {
        return InfoFatal;
      }
      var info := apiResponse.info;
      if info.compatibility.Some? {
        info := info.(compatibility := Some(host.unserialize(info.compatibility.value)));
      }
      r := Info(info);
    }

    /** `api_request($action, $data)`. The action is not used by the source. */
    method ApiRequest(action: string, data0: Data, host: Host, db: Wpdb) returns (r: ApiResult)
      modifies this, db`blogid
      ensures db.blogid == old(db.blogid)
      ensures (State(), r) == ApiRequestSpec(old(State()), data0, db.tables, host)
    {
      var data := apiData + data0;
      if Get(data, "slug") != slug {
        return NoResponse;
      }
      var settled, details;
      settled, data, details := SettleLicense(data, host, db);
      if !settled {
        return Fatal;
      }
      r := Send(data, details, host);
    }

    /** The `is_multisite()` block: the scan, when it is wanted, and the adoption of the
        license it finds. */
    method SettleLicense(data: Data, host: Host, db: Wpdb) returns (settled: bool, data': Data, details: Option<BlogId>)
      modifies this, db`blogid
      ensures db.blogid == old(db.blogid)
      ensures Settle(old(State()), data, db.tables, host) == if settled then Some((State(), data', details)) else None
      ensures !settled ==> State() == old(State())
    {
      var isNetworkAdmin := host.isNetworkAdmin || RefererIsNetworkAdminPluginsPage(host.referer);
      settled, data', details := true, data, None;
      if host.isMultisite && isNetworkAdmin
        && (EmptyAt(data, "license") || EmptyAt(data, "item_name") || Empty(apiUrl))
      {
        var scan;
        scan, details := ScanNetwork(data, host, db);
        if scan.Crashed? {
          settled := false;
        } else if scan.Found? {
          data' := AdoptLicense(data, scan.result, db.tables.blogs[scan.at], host.siteUrl);
        }
      }
    }

    /** The `break` branch of the scan: the license found is copied into the data and the
        instance, the API url only when the instance has none. */
    method AdoptLicense(data: Data, result: Data, blog: BlogId, siteUrl: string) returns (data': Data)
      modifies this
      ensures (State(), data') == Adopt(old(State()), data, result, blog, siteUrl)
    {
      if Empty(apiUrl) {
        apiUrl := Get(result, "api_url");
      }
      data' := data["license" := Get(result, "license")]["item_name" := Get(result, "item_name")];
      version := Get(result, "version");
      data' := data'["version" := version];
      author := if "author" in result then result["author"] else author;
      data' := data'["author" := author];
      data' := data'["blogid" := Decimal(blog)];
      data' := data'["url" := siteUrl];
    }

    /** The request, once the license is settled: from the license check
        to the decoded answer. */
    method Send(data: Data, details: Option<BlogId>, host: Host) returns (r: ApiResult)
      ensures r == Finish(State(), data, host, details)
    {
      if "license" !in data {
        return NoResponse;
      }
      var url := if EmptyAt(data, "url") then host.siteUrl else data["url"];
      var request := UpdateRequest(host, apiUrl, url, Get(data, "license"), Get(data, "item_name"), slug, author);
      assert request == ApiRequestOf(State(), data, host);
      var response := host.post(request);
      if response.TransportError? {
        return NoResponse;
      }
      if response.decoded.None? {
        return Fatal;
      }
      var o := response.decoded.value;
      if o.sections.Some? {
        o := o.(sections := Some(host.unserialize(o.sections.value)));
      }
      o := o.(blogId := details);
      r := Response(o);
    }

    /** The `foreach` over the network's blogs up to its `break`: visits the blogs in
        order and stops at the first complete license. `details` is the last
        blog visited, as `$details` is after the loop. */
    method ScanNetwork(data: Data, host: Host, db: Wpdb) returns (scan: Scan, details: Option<BlogId>)
      modifies db`blogid
      ensures db.blogid == old(db.blogid)
      ensures scan == ScanFrom(State(), data, db.tables, host, 0)
      ensures scan.Found? ==> details == Some(db.tables.blogs[scan.at])
      ensures scan.NotFound? ==> details == if |db.tables.blogs| == 0 then None else Some(db.tables.blogs[|db.tables.blogs| - 1])
    {
      var blogs := db.tables.blogs;
      ghost var st, t := State(), db.tables;
      details := None;
      var i := 0;
      while i < |blogs|
        invariant 0 <= i <= |blogs|
        invariant db.blogid == old(db.blogid)
        invariant ScanFrom(st, data, t, host, 0) == ScanFrom(st, data, t, host, i)
        invariant details == if i == 0 then None else Some(blogs[i - 1])
      {
        details := Some(blogs[i]);
        var verdict := ConsultBlog(data, host, db, blogs[i]);
        if verdict.Crash? {
          return Crashed, details;
        }
        if verdict.Licensed? {
          return Found(i, verdict.result), details;
        }
        i := i + 1;
      }
      scan := NotFound;
    }

    /** One iteration of the scan: the blog's active plugins, and the license
        hook where the plugin is active among them. */
    method ConsultBlog(data: Data, host: Host, db: Wpdb, blog: BlogId) returns (v: Verdict)
      modifies db`blogid
      ensures db.blogid == old(db.blogid)
      ensures v == Consult(State(), data, db.tables, host, blog)
    {
      var active := GetActivePlugins(blog, db);
      if active.TypeError? {
        return Crash;
      }
      if active.NonArray? || name !in active.ids {
        return Skip;
      }
      var result := host.licenseHook(slug, data, blog);
      if EmptyAt(result, "license") || EmptyAt(result, "item_name") || EmptyAt(result, "version")
        || (Empty(apiUrl) && EmptyAt(result, "api_url"))
      {
        return Skip;
      }
      v := Licensed(result);
    }

    /** `get_active_plugins($site_id)`: switches the database to the site,
        reads its option and the sitewide row, and switches back. */
    method GetActivePlugins(siteId: BlogId, db: Wpdb) returns (r: Listing)
      modifies db`blogid
      ensures db.blogid == old(db.blogid)
      ensures r == ActivePlugins(db.tables, siteId)
    {
      var resetSiteId := db.blogid;
      db.SetBlogId(siteId);
      var row := db.GetOptionRow("active_plugins");
      var plugins := Array([]);
      if row.Some? {
        plugins := row.value;
      }
      var meta := db.tables.sitewide;
      db.SetBlogId(resetSiteId);
      if meta.None? {
        return if plugins.Array? then Ids(plugins.items) else NonArray;
      }
      if !plugins.Array? || !meta.value.Array? {
        return TypeError;
      }
      r := Ids(plugins.items + meta.value.items);
    }
  }
}
