/**
 * What the updater's specification functions promise: the first-match license
 * scan, when it runs, what `api_request` sends and returns, and how the
 * update transient may change.
 */
module UpdaterProperties {
  import opened Php
  import opened WordPress
  import opened RequestGate
  import opened Updater

  // ---------------------------------------------------------------------
  // The license scan

  /** The scan stops at blog k exactly when k is the first blog that is not
      skipped and it yields a complete license. */
  lemma {:induction false} ScanFindsFirstLicense(st: Fields, data: Data, t: Tables, host: Host, i: nat, k: nat, result: Data)
    requires i <= |t.blogs|
    ensures ScanFrom(st, data, t, host, i) == Found(k, result) <==>
      i <= k < |t.blogs| && Consult(st, data, t, host, t.blogs[k]) == Licensed(result)
      && forall j :: i <= j < k ==> Consult(st, data, t, host, t.blogs[j]) == Skip
    decreases |t.blogs| - i
  {
    if i < |t.blogs| && Consult(st, data, t, host, t.blogs[i]) == Skip {
      ScanFindsFirstLicense(st, data, t, host, i + 1, k, result);
      if i <= k < |t.blogs| && Consult(st, data, t, host, t.blogs[k]) == Licensed(result)
         && (forall j :: i <= j < k ==> Consult(st, data, t, host, t.blogs[j]) == Skip)
      {
        assert k != i;
      }
    }
  }

  /** The verdict on a blog depends only on what the scan reads for it:
      that blog's `active_plugins` row, the sitewide row and the hook's
      answer for that blog; not on the list of blogs, other blogs' rows or
      the hook's answers elsewhere. */
  lemma ConsultIgnoresBlogList(st: Fields, data: Data, t: Tables, t': Tables, host: Host, host': Host,
                               blog: BlogId)
    requires t'.sitewide == t.sitewide
    requires OptionRow(t', blog, "active_plugins") == OptionRow(t, blog, "active_plugins")
    requires host'.licenseHook(st.slug, data, blog) == host.licenseHook(st.slug, data, blog)
    ensures Consult(st, data, t', host', blog) == Consult(st, data, t, host, blog)
  {
    assert SiteOption(t', blog) == SiteOption(t, blog);
  }

  /** Blogs after the one that yields the license are never consulted: the
      scan over any network that agrees on the blogs up to it, on their
      `active_plugins` rows, on the sitewide row and on the hook's answers
      for them stops at the same blog with the same result, whatever the
      later blogs, their rows and the hook's answers for them are. */
  lemma {:induction false} ScanIgnoresLaterBlogs(st: Fields, data: Data, t: Tables, t': Tables,
                                                 host: Host, host': Host, i: nat, k: nat, result: Data)
    requires i <= |t.blogs| && i <= |t'.blogs|
    requires ScanFrom(st, data, t, host, i) == Found(k, result)
    requires k < |t'.blogs| && forall j :: i <= j <= k ==> t'.blogs[j] == t.blogs[j]
    requires t'.sitewide == t.sitewide
    requires forall j :: i <= j <= k ==>
      OptionRow(t', t.blogs[j], "active_plugins") == OptionRow(t, t.blogs[j], "active_plugins")
      && host'.licenseHook(st.slug, data, t.blogs[j]) == host.licenseHook(st.slug, data, t.blogs[j])
    ensures ScanFrom(st, data, t', host', i) == Found(k, result)
    decreases |t.blogs| - i
  {
    ConsultIgnoresBlogList(st, data, t, t', host, host', t.blogs[i]);
    if i < k {
      ScanIgnoresLaterBlogs(st, data, t, t', host, host', i + 1, k, result);
    }
  }

  /** A license the scan stops at is complete, and the plugin is active on
      that blog. */
  lemma FoundLicenseIsComplete(st: Fields, data: Data, t: Tables, host: Host)
    requires ScanFrom(st, data, t, host, 0).Found?
    ensures var s := ScanFrom(st, data, t, host, 0);
      s.at < |t.blogs|
      && Complete(s.result, st.apiUrl)
      && ActivePlugins(t, t.blogs[s.at]).Ids? && st.name in ActivePlugins(t, t.blogs[s.at]).ids
      && s.result == host.licenseHook(st.slug, data, t.blogs[s.at])
  {
  }

  // ---------------------------------------------------------------------
  // api_request

  /** Data whose slug is not the instance's gets false, and nothing changes. */
  lemma SlugMismatchIsFalse(st: Fields, data0: Data, t: Tables, host: Host)
    requires Get(st.apiData + data0, "slug") != st.slug
    ensures ApiRequestSpec(st, data0, t, host) == (st, NoResponse)
  {
  }

  /** The two filters always pass the slug check. */
  lemma FiltersPassSlugCheck(st: Fields)
    ensures Get(st.apiData + ToSend(st), "slug") == st.slug
  {
  }

  /** Outside a multisite network admin context, or with license, item name
      and API url all known, the scan does not run: the result does not depend
      on the blogs, their activation stores or the license hook. */
  lemma NoScanUnlessWanted(st: Fields, data0: Data, t: Tables, t': Tables, host: Host,
                           hook: (string, Data, BlogId) -> Data)
    requires !ScanWanted(st, st.apiData + data0, host)
    ensures ApiRequestSpec(st, data0, t, host) == ApiRequestSpec(st, data0, t', host.(licenseHook := hook))
  {
    var h' := host.(licenseHook := hook);
    assert !ScanWanted(st, st.apiData + data0, h');
    assert forall d: Data :: Finish(st, d, host, None) == Finish(st, d, h', None) by {
      forall d: Data ensures Finish(st, d, host, None) == Finish(st, d, h', None) {
        assert ApiRequestOf(st, d, host) == ApiRequestOf(st, d, h');
      }
    }
  }

  /** When the data holds no license and the scan finds none, `api_request`
      returns false and posts nothing: the result does not depend on the
      update server. */
  lemma NoLicenseNoRequest(st: Fields, data0: Data, t: Tables, host: Host, post: Request -> PostResult)
    requires "license" !in st.apiData + data0
    requires !ScanWanted(st, st.apiData + data0, host) || ScanFrom(st, st.apiData + data0, t, host, 0).NotFound?
    ensures ApiRequestSpec(st, data0, t, host).1 == NoResponse
    ensures ApiRequestSpec(st, data0, t, host) == ApiRequestSpec(st, data0, t, host.(post := post))
  {
    var h' := host.(post := post);
    var data := st.apiData + data0;
    assert ScanWanted(st, data, host) == ScanWanted(st, data, h');
    if ScanWanted(st, data, host) {
      ScanSameUnderPost(st, data, t, host, post, 0);
    }
  }

  lemma {:induction false} ScanSameUnderPost(st: Fields, data: Data, t: Tables, host: Host, post: Request -> PostResult, i: nat)
    requires i <= |t.blogs|
    ensures ScanFrom(st, data, t, host, i) == ScanFrom(st, data, t, host.(post := post), i)
    decreases |t.blogs| - i
  {
    if i < |t.blogs| {
      assert Consult(st, data, t, host, t.blogs[i]) == Consult(st, data, t, host.(post := post), t.blogs[i]);
      ScanSameUnderPost(st, data, t, host, post, i + 1);
    }
  }

  /** When the scan stops at a blog, the request sent carries that blog's
      license and item name, goes to the instance's API url if it had one and
      to the license's otherwise, and a response is tagged with that blog. */
  lemma FoundLicenseIsUsed(st: Fields, data0: Data, t: Tables, host: Host)
    requires Get(st.apiData + data0, "slug") == st.slug
    requires ScanWanted(st, st.apiData + data0, host)
    requires ScanFrom(st, st.apiData + data0, t, host, 0).Found?
    ensures var s := ScanFrom(st, st.apiData + data0, t, host, 0);
      var (st', outcome) := ApiRequestSpec(st, data0, t, host);
      var req := ApiRequestOf(st', Adopt(st, st.apiData + data0, s.result, t.blogs[s.at], host.siteUrl).1, host);
      && st'.apiUrl == (if Empty(st.apiUrl) then s.result["api_url"] else st.apiUrl)
      && st'.version == s.result["version"]
      && req.url == st'.apiUrl
      && req.body.license == s.result["license"]
      && req.body.name == host.htmlEntities(s.result["item_name"])
      && st'.name == st.name && st'.slug == st.slug && st'.itemName == st.itemName
      && (outcome.Response? ==> outcome.info.blogId == Some(t.blogs[s.at]))
      && (outcome != Fatal ==> host.post(req).TransportError? == outcome.NoResponse?)
  {
    var data := st.apiData + data0;
    var s := ScanFrom(st, data, t, host, 0);
    FoundLicenseIsComplete(st, data, t, host);
    var (st', data') := Adopt(st, data, s.result, t.blogs[s.at], host.siteUrl);
    assert Settle(st, data, t, host) == Some((st', data', Some(t.blogs[s.at])));
    assert ApiRequestSpec(st, data0, t, host) == (st', Finish(st', data', host, Some(t.blogs[s.at])));
    assert "license" in data';
  }

  /** The request payload, `$api_params` and `$args`: the `get_version` action, a
      15-second timeout and no TLS verification, whatever the data. */
  lemma RequestShape(st: Fields, data: Data, host: Host)
    ensures var req := ApiRequestOf(st, data, host);
      req.body.eddAction == "get_version" && req.timeout == 15 && !req.sslVerify
      && req.url == st.apiUrl && req.body.slug == st.slug && req.body.author == st.author
      && req.body.license == Get(data, "license")
  {
  }

  // ---------------------------------------------------------------------
  // The update transient

  /** A not-strictly-newer version is never written, when the version order
      is a strict order. */
  lemma NeverWritesOlderOrEqual(response: Option<map<PluginId, UpdateInfo>>, name: PluginId, outcome: ApiResult,
                                localVersion: string, less: (string, string) -> bool)
    requires forall a, b :: less(a, b) ==> !less(b, a)
    requires outcome.Response? && outcome.info.newVersion.Some?
    requires outcome.info.newVersion.value == localVersion || less(outcome.info.newVersion.value, localVersion)
    ensures WriteResponse(response, name, outcome, localVersion, less) == response
  {
  }

  /** A strictly newer version is written under the plugin's own key. */
  lemma WritesNewer(response: Option<map<PluginId, UpdateInfo>>, name: PluginId, info: UpdateInfo,
                    localVersion: string, less: (string, string) -> bool)
    requires info.newVersion.Some? && less(localVersion, info.newVersion.value)
    ensures var r := WriteResponse(response, name, Response(info), localVersion, less);
      r.Some? && name in r.value && r.value[name] == info
  {
  }

  /** Without a response object nothing is written. */
  lemma NoWriteWithoutResponse(response: Option<map<PluginId, UpdateInfo>>, name: PluginId, outcome: ApiResult,
                               localVersion: string, less: (string, string) -> bool)
    requires !outcome.Response? || outcome.info.newVersion.None?
    ensures WriteResponse(response, name, outcome, localVersion, less) == response
  {
  }

  // ---------------------------------------------------------------------
  // The network admin scenario: three blogs activate plugin X; the first has
  // no license, the second and third have different complete licenses.

  const ScenarioName: string := "x/x.php"
  const ScenarioSlug: string := "x"

  function ScenarioTables(): Tables
  {
    Tables(map[1 := map["active_plugins" := Array([ScenarioName])],
               2 := map["active_plugins" := Array([ScenarioName])],
               3 := map["active_plugins" := Array([ScenarioName])]],
           None, [1, 2, 3])
  }

  /** Blog 2 holds license K for item "Name" version 1.0 at url U; blog 3
      holds license L. */
  function ScenarioHook(slug: string, d: Data, blog: BlogId): Data
  {
    if blog == 2 then d["license" := "K"]["item_name" := "Name"]["version" := "1.0"]["api_url" := "U"]
    else if blog == 3 then d["license" := "L"]["item_name" := "Other"]["version" := "1.0"]["api_url" := "V"]
    else d
  }

  function ScenarioFields(): Fields
  {
    Fields("", map[], ScenarioName, ScenarioSlug, "1.0", "", "", "Name")
  }

  /** The scan selects blog 2, the request goes to U with license K, and the
      response is tagged with blog 2. */
  lemma ScenarioSelectsSecondBlog(host: Host)
    requires host.isMultisite && host.isNetworkAdmin
    requires host.licenseHook == ScenarioHook
    requires host.post(ApiRequestOf(ScenarioFields().(apiUrl := "U"),
                                    Adopt(ScenarioFields(), ToSend(ScenarioFields()),
                                          ScenarioHook(ScenarioSlug, ToSend(ScenarioFields()), 2), 2, host.siteUrl).1,
                                    host))
             == Body(Some(UpdateInfo(Some("1.1"), None, None, None, None, None, None, None)))
    ensures var (st, outcome) := ApiRequestSpec(ScenarioFields(), ToSend(ScenarioFields()), ScenarioTables(), host);
      st.apiUrl == "U" && outcome.Response? && outcome.info.newVersion == Some("1.1")
      && outcome.info.blogId == Some(2)
      && ApiRequestOf(st, Adopt(ScenarioFields(), ToSend(ScenarioFields()),
                                ScenarioHook(ScenarioSlug, ToSend(ScenarioFields()), 2), 2, host.siteUrl).1,
                      host).body.license == "K"
  {
    var st, d := ScenarioFields(), ToSend(ScenarioFields());
    assert st.apiData + d == d;
    ScenarioScan(host);
  }

  /** The scan of the scenario skips blog 1, where the hook adds no license,
      and stops at blog 2. */
  lemma ScenarioScan(host: Host)
    requires host.isMultisite && host.isNetworkAdmin
    requires host.licenseHook == ScenarioHook
    ensures ScanWanted(ScenarioFields(), ToSend(ScenarioFields()), host)
    ensures ScanFrom(ScenarioFields(), ToSend(ScenarioFields()), ScenarioTables(), host, 0)
      == Found(1, ScenarioHook(ScenarioSlug, ToSend(ScenarioFields()), 2))
  {
    var st, t, d := ScenarioFields(), ScenarioTables(), ToSend(ScenarioFields());
    assert ActivePlugins(t, 1) == Ids([ScenarioName]);
    assert ActivePlugins(t, 2) == Ids([ScenarioName]);
    assert Consult(st, d, t, host, 1) == Skip;
    var r2 := ScenarioHook(ScenarioSlug, d, 2);
    assert Complete(r2, st.apiUrl);
    assert Consult(st, d, t, host, 2) == Licensed(r2);
    assert ScanFrom(st, d, t, host, 1) == Found(1, r2);
  }
}
