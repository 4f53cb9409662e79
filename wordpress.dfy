/**
 * The WordPress collaborators of the plugin, reduced to plain inputs: the
 * database tables it queries (behind a `Wpdb` object whose current blog id
 * the code switches), the request context, the filter hooks, the HTTP post
 * and the update transient object it reads and writes.
 */
module WordPress {
  import opened Php

  type BlogId = nat

  /** A plugin is identified by its file relative to the plugins directory,
      e.g. "akismet/akismet.php". */
  type PluginId = string

  /** A stored option after `maybe_unserialize`: a list, or something else. */
  datatype Stored = Scalar | Array(items: seq<string>)

  /**
   * What the plugin's queries read, for one network.
   * - options: each blog's options table, option name to stored value;
   * - sitewide: the `active_sitewide_plugins` row of the network's sitemeta
   *   (None when there is no row), holding the KEYS of the stored array;
   * - blogs: the public, live blogs of the network in registration order,
   *   the result of the SELECT both classes issue.
   */
  datatype Tables = Tables(
    options: map<BlogId, map<string, Stored>>,
    sitewide: Option<Stored>,
    blogs: seq<BlogId>)

  /** The row `option_name = name` of a blog's options table, if any. */
  function OptionRow(t: Tables, blog: BlogId, name: string): Option<Stored>
  {
    if blog in t.options && name in t.options[blog] then Some(t.options[blog][name]) else None
  }

  /** `$wpdb`: read-only tables, and the blog id that selects which blog's
      tables a query reads. */
  class Wpdb {
    var blogid: BlogId
    const tables: Tables

    constructor (blogid: BlogId, tables: Tables)
      ensures this.blogid == blogid && this.tables == tables
    {
      this.blogid := blogid;
      this.tables := tables;
    }

    /** `$wpdb->set_blog_id()` */
    method SetBlogId(id: BlogId)
      modifies this`blogid
      ensures blogid == id
    {
      blogid := id;
    }

    /** `get_row(... FROM $wpdb->options WHERE option_name = name LIMIT 1)`:
        reads the options table of the CURRENT blog. */
    function GetOptionRow(name: string): (r: Option<Stored>)
      reads this`blogid
    {
      OptionRow(tables, blogid, name)
    }
  }

  /** What `wp_remote_post` is given by the updater. */
  datatype ApiParams = ApiParams(eddAction: string, license: string, name: string, slug: string, author: string)
  datatype Request = Request(url: string, userAgent: string, timeout: nat, sslVerify: bool, body: ApiParams)

  /**
   * The object the update server returns after `json_decode`, with the
   * properties the plugin reads or writes; an unset property is None.
   */
  datatype UpdateInfo = UpdateInfo(
    newVersion: Option<string>,
    package: Option<string>,
    name: Option<string>,
    slug: Option<string>,
    url: Option<string>,
    sections: Option<string>,
    compatibility: Option<string>,
    blogId: Option<BlogId>)

  /** A `wp_remote_post` outcome: a WP_Error, or a body whose `json_decode`
      is an object (Some) or not (None). */
  datatype PostResult = TransportError | Body(decoded: Option<UpdateInfo>)

  /**
   * The request context and the calls into WordPress the core makes, as
   * parameters:
   * - isMultisite: `is_multisite()`;
   * - isNetworkAdmin: `function_exists('is_network_admin') && is_network_admin()`;
   * - referer: `$_SERVER['HTTP_REFERER']`, None when unset;
   * - siteUrl: `get_bloginfo('url')`; wpVersion: `$wp_version`;
   * - licenseHook(slug, data, blog): `apply_filters('edd_sl_multisite_updater_' . slug, data, blog)`;
   * - apiUrlHook: the `edd_sl_multisite_updater_api_url` filter;
   * - userAgentHook: the `http_headers_useragent` filter;
   * - htmlEntities, unserialize: `htmlentities`, `maybe_unserialize` on a property;
   * - versionLess(a, b): `version_compare(a, b, '<')`;
   * - post: `wp_remote_post` followed by `json_decode` of the body.
   */
  datatype Host = Host(
    isMultisite: bool,
    isNetworkAdmin: bool,
    referer: Option<string>,
    siteUrl: string,
    wpVersion: string,
    licenseHook: (string, Data, BlogId) -> Data,
    apiUrlHook: string -> string,
    userAgentHook: string -> string,
    htmlEntities: string -> string,
    unserialize: string -> string,
    versionLess: (string, string) -> bool,
    post: Request -> PostResult)

  /** The `update_plugins` site transient. Its `response` property is unset
      (None) or an array from plugin file to update object. */
  class UpdateTransient {
    var lastChecked: int
    var checked: map<PluginId, string>
    var response: Option<map<PluginId, UpdateInfo>>

    constructor (lastChecked: int, checked: map<PluginId, string>, response: Option<map<PluginId, UpdateInfo>>)
      ensures this.lastChecked == lastChecked && this.checked == checked && this.response == response
    {
      this.lastChecked := lastChecked;
      this.checked := checked;
      this.response := response;
    }
  }

  /** The request that `perform_post` and `api_request` send: POST to
      endpoint, 15 seconds, no TLS verification, a user agent naming the
      WordPress version and the requesting site. */
  function UpdateRequest(host: Host, endpoint: string, siteUrl: string, license: string,
                         itemName: string, slug: string, author: string): (r: Request)
  {
    Request(endpoint,
            host.userAgentHook("WordPress/" + host.wpVersion + "; " + siteUrl),
            15, false,
            ApiParams("get_version", license, host.htmlEntities(itemName), slug, author))
  }
}

/**
 * The request gate both classes apply before scanning the network: the
 * network admin flag, or, where that flag is not available (an admin AJAX
 * callback), a referer ending in the network plugins page.
 */
module RequestGate {
  import opened Php

  const NetworkPluginsPage: string := "wp-admin/network/plugins.php"

  predicate EndsWith(s: string, suffix: string)
  {
    exists k :: 0 <= k <= |s| && s[k..] == suffix
  }

  /** `referer_is_network_admin_plugins_page()`: the last 28 characters of the
      referer are the network plugins page. */
  function RefererIsNetworkAdminPluginsPage(referer: Option<string>): (r: bool)
    ensures r <==> referer.Some? && EndsWith(referer.value, NetworkPluginsPage)
  {
    if referer.None? then false
    else
      var s := referer.value;
      var tail := SubstrLast(s, 28);
      assert tail == NetworkPluginsPage ==> s[|s| - 28..] == NetworkPluginsPage;
      assert forall k :: 0 <= k <= |s| && s[k..] == NetworkPluginsPage ==> k == |s| - 28;
      NetworkPluginsPage == tail
  }

  /** `is_network_admin() || referer_is_network_admin_plugins_page()` */
  predicate NetworkAdminContext(isNetworkAdmin: bool, referer: Option<string>)
  {
    isNetworkAdmin || RefererIsNetworkAdminPluginsPage(referer)
  }
}
