# EDD SL Updates on Multisite, modelled in Dafny

EDD SL Updates on Multisite is a WordPress must-use plugin. It lets the network admin of a
multisite network see and install updates for plugins that are distributed through Easy
Digital Downloads Software Licensing (EDD SL), even when the license for such a plugin is held
by one of the network's sites rather than by the network itself. Two classes do the work:

- `Multisite_Plugin_Updater`: one instance per externally updated plugin. It hooks into
  WordPress's update check (`pre_set_site_transient_update_plugins`) and its plugin information
  request (`plugins_api`), and asks the plugin's update server for a newer version. If the
  plugin has no license in the network admin context, it first scans the network's blogs in
  registration order and takes the first license a blog's `edd_sl_multisite_updater_{slug}`
  filter supplies.
- `EDD_SL_Updates_On_Multisite`: in the network admin, it replaces the value of the
  `active_plugins` option with the current blog's own active plugins together with the plugins
  active anywhere on the network that are marked as externally updatable, so that WordPress
  checks them for updates. It memoises that list for
  the rest of the request. It also watches the update transient for entries that a blog's
  license found.

The model turns WordPress into plain inputs:

- the database queries become a `Tables` value behind a `Wpdb` object, whose blog id the code
  switches and restores;
- the request context, the filter hooks, the HTTP post and the library calls become the
  function fields of a `Host` value;
- the filesystem checks become a `Disk` value;
- the update transient and the memo in `$GLOBALS` become classes whose fields the methods
  update.

Each imperative PHP function is a Dafny method with the same loops and branches. Each method
is proved equal to a pure specification function: `ApiRequestSpec`, `ScanFrom`,
`ActivePlugins`, `WriteResponse`, `GetOptionsSpec`, `Fresh` and `Gathered`. The properties
the plugin promises are then proved about those functions as lemmas, in `updater_properties.dfy`
and `updates_on_multisite_properties.dfy`.

PHP semantics follow PHP 8:

- `array_keys`, `array_merge` or a property assignment that PHP 8 rejects with a `TypeError`
  or `Error` is an explicit fatal outcome, not an invented value.
- `empty()` holds for an unset key, `""` and `"0"`.
- An unset key reads as `""`.
- `array_unique` keeps first occurrences.
- `sort()` orders non-numeric strings bytewise.

Files:

- `php.dfy`: the PHP value semantics.
- `wordpress.dfy`: the WordPress collaborators and the request gate.
- `updater.dfy`: `Multisite_Plugin_Updater`.
- `updates_on_multisite.dfy`: `EDD_SL_Updates_On_Multisite`.
- `updater_properties.dfy` and `updates_on_multisite_properties.dfy`: the lemmas about both.

## Model

| member | source | states |
|---|---|---|
| Php.SubstrLast | edd-sl-updates-on-multisite/includes/class-multisite-plugin-updater.php:173 | `substr($s, -n)` is the last n characters, or all of a shorter string |
| Php.Unique | edd-sl-updates-on-multisite/includes/class-edd-sl-updates-on-multisite.php:222 | `array_unique` leaves no repetition and keeps exactly the values of its argument |
| Php.UniqueOfDistinct | edd-sl-updates-on-multisite/includes/class-edd-sl-updates-on-multisite.php:222 | a list without repetition is left as it is by `array_unique` |
| Php.UniquePrefix | edd-sl-updates-on-multisite/includes/class-edd-sl-updates-on-multisite.php:222 | `array_unique` never reorders: what it keeps of s is, in order, the front of what it keeps of s + t |
| Php.BelowIrreflexive | edd-sl-updates-on-multisite/includes/class-edd-sl-updates-on-multisite.php:233 | no string is below itself in the order `sort()` uses |
| Php.BelowTransitive | edd-sl-updates-on-multisite/includes/class-edd-sl-updates-on-multisite.php:233 | the order `sort()` uses is transitive |
| Php.BelowTotal | edd-sl-updates-on-multisite/includes/class-edd-sl-updates-on-multisite.php:233 | any two different strings are ordered one way or the other |
| Php.Insert | edd-sl-updates-on-multisite/includes/class-edd-sl-updates-on-multisite.php:233 | inserting into an ordered list keeps it ordered, adds exactly the element, and adds no repetition when the element is new |
| Php.Sort | edd-sl-updates-on-multisite/includes/class-edd-sl-updates-on-multisite.php:233 | `sort()` returns an ordered permutation of its argument, without repetition when the argument has none |
| Php.OrderedDistinctAscending | edd-sl-updates-on-multisite/includes/class-edd-sl-updates-on-multisite.php:233 | an ordered list without repetition is strictly increasing |
| Php.DecimalRoundTrip | edd-sl-updates-on-multisite/includes/class-multisite-plugin-updater.php:267 | the blog id stored in `$data['blogid']` is the decimal rendering of the id: its digits denote the id, with no leading zero. This only pins the representation: the database already returns the id as a string, and nothing later reads that key |
| RequestGate.RefererIsNetworkAdminPluginsPage | edd-sl-updates-on-multisite/includes/class-multisite-plugin-updater.php:168-174 | true exactly when the referer is set and ends in `wp-admin/network/plugins.php`; it is also the duplicate at class-edd-sl-updates-on-multisite.php lines 48-54 |
| RequestGate.NetworkAdminContext | edd-sl-updates-on-multisite/includes/class-multisite-plugin-updater.php:203 | the network admin context: `is_network_admin()` or a referer on the network plugins page; the same test gates `get_options` at class-edd-sl-updates-on-multisite.php line 67 |
| WordPress.UpdateRequest | edd-sl-updates-on-multisite/includes/class-multisite-plugin-updater.php:284-304 | the request both `api_request` and `perform_post` (lines 394-405) send: POST to the endpoint, 15 seconds, no TLS verification, a user agent naming the WordPress version and the site, and the `get_version` body |
| Updater.ActivePlugins | edd-sl-updates-on-multisite/includes/class-multisite-plugin-updater.php:361-383 | the site's `active_plugins` list comes first, followed by the sitewide plugin keys; the site list alone when there is no sitewide row; a non-array only when the site's option is one and there is no sitewide row; a TypeError when a sitewide row exists and either value is not an array |
| Updater.MultisitePluginUpdater.GetActivePlugins | edd-sl-updates-on-multisite/includes/class-multisite-plugin-updater.php:347-384 | returns `ActivePlugins` of the site and restores the database's blog id on every path |
| Updater.ScanFrom | edd-sl-updates-on-multisite/includes/class-multisite-plugin-updater.php:234-271 | a found license comes from a blog where the plugin is active, with a complete hook result, and every earlier blog was skipped; not found means every blog was skipped |
| Updater.WriteResponse | edd-sl-updates-on-multisite/includes/class-multisite-plugin-updater.php:111-119 | the response changes only for a response object whose new version is above the local one, and then only under the plugin's key; every other key keeps its presence and value |
| Updater.HasPackage | edd-sl-updates-on-multisite/includes/class-multisite-plugin-updater.php:89-97 | the filter returns early exactly when the response has an entry under the plugin's name whose package is not empty |
| Updater.ToSend | edd-sl-updates-on-multisite/includes/class-multisite-plugin-updater.php:99-107 | both filters send the API url, item name, slug, version and blog url of the instance, the url always being set |
| Updater.Complete | edd-sl-updates-on-multisite/includes/class-multisite-plugin-updater.php:249-252 | a blog's hook result is taken only with license, item name and version set, and an API url either known already or given |
| Updater.Consult | edd-sl-updates-on-multisite/includes/class-multisite-plugin-updater.php:238-255 | a blog raises when its active plugins raise, is skipped when the plugin is not active or the hook result is incomplete, and yields a license otherwise |
| Updater.ScanWanted | edd-sl-updates-on-multisite/includes/class-multisite-plugin-updater.php:203-205 | the scan runs only on a multisite network, in the network admin context, with license, item name or API url empty |
| Updater.Adopt | edd-sl-updates-on-multisite/includes/class-multisite-plugin-updater.php:257-270 | the API url comes from the result only when the instance has none; version, license and item name come from the result, the author if it is set; the data gains the blog's id and `get_bloginfo('url')`, which is read after the blog id is restored and so is the current site's url, not the found blog's |
| Updater.Settle | edd-sl-updates-on-multisite/includes/class-multisite-plugin-updater.php:203-277 | no scan leaves fields and data as they were; a found license is adopted, with that blog as `$details`; no license leaves them as they were, with the last blog as `$details`; a raising blog raises |
| Updater.Finish | edd-sl-updates-on-multisite/includes/class-multisite-plugin-updater.php:279-336 | no `license` key means no request; a transport error is false; a body that is not an object raises; otherwise the decoded object, sections unserialised, tagged with `$details` |
| Updater.ApiRequestOf | edd-sl-updates-on-multisite/includes/class-multisite-plugin-updater.php:284-306 | the request `api_request` posts: the data's license and item name with the instance's slug and author, to the instance's API url, the site url standing in for an empty `url` |
| Updater.ApiRequestSpec | edd-sl-updates-on-multisite/includes/class-multisite-plugin-updater.php:187-337 | a slug other than the instance's gives false and changes nothing; a raising scan raises and changes nothing; otherwise the fields are settled and the request made from them |
| Updater.InfoOf | edd-sl-updates-on-multisite/includes/class-multisite-plugin-updater.php:150-159 | false passes the original data through, an error raises, and a response is returned with compatibility unserialised |
| Updater.InfoRequested | edd-sl-updates-on-multisite/includes/class-multisite-plugin-updater.php:135 | the filter answers only for the action `plugin_information` with a set slug equal to the instance's |
| Updater.MultisitePluginUpdater.constructor | edd-sl-updates-on-multisite/includes/class-multisite-plugin-updater.php:35-53 | each field is derived from the arguments, falling back to the plugin header: the API url is trailing-slashed or the header's Plugin URI; version, author and blog url come from the data if set, the blog url otherwise being "" |
| Updater.MultisitePluginUpdater.PreSetSiteTransientUpdatePluginsFilter | edd-sl-updates-on-multisite/includes/class-multisite-plugin-updater.php:86-120 | returns its argument; leaves everything unchanged for a null transient or one whose entry for the plugin has a package; otherwise the instance is as `ApiRequestSpec` leaves it and only the response becomes `WriteResponse` with the updated local version; `checked` and `last_checked` never change; the blog id is restored |
| Updater.MultisitePluginUpdater.PluginsApiFilter | edd-sl-updates-on-multisite/includes/class-multisite-plugin-updater.php:133-160 | returns the data untouched unless the action is `plugin_information` and the slug matches; otherwise it returns the data on false and the response, with compatibility unserialised, on a response |
| Updater.MultisitePluginUpdater.ApiRequest | edd-sl-updates-on-multisite/includes/class-multisite-plugin-updater.php:187-337 | the instance's new fields and the result are those of `ApiRequestSpec`, and the blog id is restored |
| Updater.MultisitePluginUpdater.SettleLicense | edd-sl-updates-on-multisite/includes/class-multisite-plugin-updater.php:201-277 | the scan, when it is wanted, and the adoption of the license found agree with `Settle`; the instance is unchanged when the scan raises |
| Updater.MultisitePluginUpdater.ScanNetwork | edd-sl-updates-on-multisite/includes/class-multisite-plugin-updater.php:234-272 | the loop's outcome is `ScanFrom` from the first blog; `$details` is the blog found, or the last blog when none is found |
| Updater.MultisitePluginUpdater.ConsultBlog | edd-sl-updates-on-multisite/includes/class-multisite-plugin-updater.php:238-255 | one iteration of the scan agrees with `Consult`: a TypeError from the active plugins raises, a blog where the plugin is not active or the hook result is incomplete is skipped; the blog id is restored |
| Updater.MultisitePluginUpdater.AdoptLicense | edd-sl-updates-on-multisite/includes/class-multisite-plugin-updater.php:257-270 | the data and the fields become `Adopt` of the license found |
| Updater.MultisitePluginUpdater.Send | edd-sl-updates-on-multisite/includes/class-multisite-plugin-updater.php:279-336 | returns `Finish`: false without a license or on a transport error, an error when the body is not an object, and otherwise the decoded object with sections unserialised and `$details`'s blog id |
| UpdaterProperties.ScanFindsFirstLicense | edd-sl-updates-on-multisite/includes/class-multisite-plugin-updater.php:234-271 | the scan stops at blog k with a result r exactly when k is the first blog that is not skipped and it yields r, in both directions |
| UpdaterProperties.ConsultIgnoresBlogList | edd-sl-updates-on-multisite/includes/class-multisite-plugin-updater.php:238-255 | the verdict on a blog depends only on that blog's `active_plugins` row, the sitewide row and the hook's answer for it |
| UpdaterProperties.ScanIgnoresLaterBlogs | edd-sl-updates-on-multisite/includes/class-multisite-plugin-updater.php:234-271 | blogs after the one the license comes from are never consulted: any network and hook that agree up to that blog, on the blog ids, their `active_plugins` rows, the sitewide row and the hook's answers, give the same result, whatever the later blogs hold |
| UpdaterProperties.FoundLicenseIsComplete | edd-sl-updates-on-multisite/includes/class-multisite-plugin-updater.php:241-255 | the license found is complete, comes from that blog's hook, and the plugin is active on that blog |
| UpdaterProperties.SlugMismatchIsFalse | edd-sl-updates-on-multisite/includes/class-multisite-plugin-updater.php:193-195 | with a merged slug other than the instance's, `api_request` returns false and changes nothing |
| UpdaterProperties.FiltersPassSlugCheck | edd-sl-updates-on-multisite/includes/class-multisite-plugin-updater.php:99-107 | the data both filters send always passes the slug check |
| UpdaterProperties.NoScanUnlessWanted | edd-sl-updates-on-multisite/includes/class-multisite-plugin-updater.php:203-205 | unless the site is multisite, in the network admin context, and license, item name or API url is empty, the result depends neither on the blogs nor on the license hook |
| UpdaterProperties.NoLicenseNoRequest | edd-sl-updates-on-multisite/includes/class-multisite-plugin-updater.php:279-282 | with no license before the request, `api_request` returns false whatever the update server would answer |
| UpdaterProperties.FoundLicenseIsUsed | edd-sl-updates-on-multisite/includes/class-multisite-plugin-updater.php:257-331 | after a found license, the API url is replaced only if it was empty, the version is the license's, the request carries its license and item name, and a response carries that blog's id |
| UpdaterProperties.RequestShape | edd-sl-updates-on-multisite/includes/class-multisite-plugin-updater.php:284-306 | the payload built from any data: `get_version`, 15 seconds, no TLS verification, the instance's url, slug and author, and the data's license |
| UpdaterProperties.NeverWritesOlderOrEqual | edd-sl-updates-on-multisite/includes/class-multisite-plugin-updater.php:111-117 | for a strict version order, an equal or older version is never written |
| UpdaterProperties.WritesNewer | edd-sl-updates-on-multisite/includes/class-multisite-plugin-updater.php:111-117 | a strictly newer version is written under the plugin's key |
| UpdaterProperties.NoWriteWithoutResponse | edd-sl-updates-on-multisite/includes/class-multisite-plugin-updater.php:111-117 | false, an error, or a response without a new version writes nothing |
| UpdaterProperties.ScenarioSelectsSecondBlog | edd-sl-updates-on-multisite/includes/class-multisite-plugin-updater.php:203-331 | on three blogs where only the second and third hold licenses, the second blog's license and API url are used and the response is tagged with blog 2 |
| UpdatesOnMultisite.Updatable | edd-sl-updates-on-multisite/includes/class-edd-sl-updates-on-multisite.php:184-207 | a plugin is kept only when its file exists and its folder holds an updater marker file or its header says `Updateable` |
| UpdatesOnMultisite.Gathered | edd-sl-updates-on-multisite/includes/class-edd-sl-updates-on-multisite.php:134-171 | the blogs' lists in registration order, concatenated, with non-arrays skipped; an error as soon as one of them raises |
| UpdatesOnMultisite.Result | edd-sl-updates-on-multisite/includes/class-edd-sl-updates-on-multisite.php:231-233 | the current blog's list and the kept plugins, without repetition and sorted |
| UpdatesOnMultisite.GetOptionsSpec | edd-sl-updates-on-multisite/includes/class-edd-sl-updates-on-multisite.php:56-240 | false off a multisite network or outside the network admin context; the memoised list when there is one; otherwise the computed list, or an error when a blog's list or the current blog's own option raises |
| UpdatesOnMultisite.MemoAfter | edd-sl-updates-on-multisite/includes/class-edd-sl-updates-on-multisite.php:237 | a computed list is memoised under the option's key; nothing else is written |
| UpdatesOnMultisite.Pending | edd-sl-updates-on-multisite/includes/class-edd-sl-updates-on-multisite.php:24 | an entry gets a post only when its package is empty and it carries a non-zero blog id |
| UpdatesOnMultisite.PendingRequest | edd-sl-updates-on-multisite/includes/class-edd-sl-updates-on-multisite.php:24-37 | the post `perform_post` makes for an entry: the license hook of its slug is asked with the entry's blog id, and the answer is sent to the filtered url with the shape of the update request |
| UpdatesOnMultisite.Fresh | edd-sl-updates-on-multisite/includes/class-edd-sl-updates-on-multisite.php:173-220 | the closure keeps, without repetition, exactly the plugins of the list that were not met before and are updatable: the file exists, and a marker file exists or the `Updateable` header is true |
| UpdatesOnMultisite.BlogListing | edd-sl-updates-on-multisite/includes/class-edd-sl-updates-on-multisite.php:145-171 | the current blog's list is the sitewide plugin keys, raising when there is no sitewide array; every other blog's list is its own option, a non-array when missing |
| UpdatesOnMultisite.EddSlUpdatesOnMultisite.FilterUpdatePluginsTransient | edd-sl-updates-on-multisite/includes/class-edd-sl-updates-on-multisite.php:12-40 | returns its argument on every path; a post goes out exactly for the entries without a package that carry a blog id, asking that blog's license hook |
| UpdatesOnMultisite.EddSlUpdatesOnMultisite.FilterBlogPlugins | edd-sl-updates-on-multisite/includes/class-edd-sl-updates-on-multisite.php:173-220 | the filter keeps `Fresh` of the list; every plugin of the list is recorded as encountered, kept or not, and nothing recorded before is lost |
| UpdatesOnMultisite.EddSlUpdatesOnMultisite.MergeBlog | edd-sl-updates-on-multisite/includes/class-edd-sl-updates-on-multisite.php:173-222 | after one more blog's array, the accumulator is still what is kept of all lists so far, and the encountered list holds every plugin met |
| UpdatesOnMultisite.EddSlUpdatesOnMultisite.GetOptions | edd-sl-updates-on-multisite/includes/class-edd-sl-updates-on-multisite.php:56-240 | returns `GetOptionsSpec` and leaves the memo as `MemoAfter`; the blog id is restored on every path, a PHP error included, since the loop raises only while on the current blog and the last error comes after the restore |
| UpdatesOnMultisite.EddSlUpdatesOnMultisite.OtherBlogOptions | edd-sl-updates-on-multisite/includes/class-edd-sl-updates-on-multisite.php:130-226 | the loop's accumulator is what is kept of all the blogs' lists in order, or an error when a list raises; the current blog is restored at the end, and is also the blog the loop is on when it raises |
| UpdatesOnMultisite.EddSlUpdatesOnMultisite.ReadBlogPlugins | edd-sl-updates-on-multisite/includes/class-edd-sl-updates-on-multisite.php:139-167 | switches to the blog and reads its list as `BlogListing` |
| UpdatesOnMultisite.KeptAppend | edd-sl-updates-on-multisite/includes/class-edd-sl-updates-on-multisite.php:173-222 | what is kept of two blogs' lists is what is kept of the first followed by what is fresh in the second |
| UpdatesOnMultisite.FreshAppend | edd-sl-updates-on-multisite/includes/class-edd-sl-updates-on-multisite.php:173-181 | the encountered set is threaded through: filtering s + t is filtering s, then t with s met |
| UpdatesOnMultisite.DisjointFreshAppend | edd-sl-updates-on-multisite/includes/class-edd-sl-updates-on-multisite.php:222 | the `array_unique` of line 222 leaves the accumulated list as it is |
| UpdatesOnMultisite.GatheredStaysNone | edd-sl-updates-on-multisite/includes/class-edd-sl-updates-on-multisite.php:134-154 | once a blog's list raises, the whole loop has raised |
| UpdatesOnMultisiteProperties.OverridesOnlyInNetworkAdmin | edd-sl-updates-on-multisite/includes/class-edd-sl-updates-on-multisite.php:58-69 | `get_options` returns something other than false exactly on a multisite network in the network admin context |
| UpdatesOnMultisiteProperties.MemoIsReturned | edd-sl-updates-on-multisite/includes/class-edd-sl-updates-on-multisite.php:75-77 | a memoised list is returned as it is, and the memo is not touched |
| UpdatesOnMultisiteProperties.SecondCallAgrees | edd-sl-updates-on-multisite/includes/class-edd-sl-updates-on-multisite.php:75-77 | after a call that answers with a list, which line 237 memoises, a second call answers the same list whatever the tables then hold, and leaves the memo as it was |
| UpdatesOnMultisiteProperties.MemoWritesOneKey | edd-sl-updates-on-multisite/includes/class-edd-sl-updates-on-multisite.php:237 | only the option's `_processed` key is ever written, and no earlier entry changes |
| UpdatesOnMultisiteProperties.GatheredFailsOnlyOnSitewide | edd-sl-updates-on-multisite/includes/class-edd-sl-updates-on-multisite.php:145-166 | the loop raises exactly when the current blog is among the blogs and the network has no sitewide array |
| UpdatesOnMultisiteProperties.FatalExactly | edd-sl-updates-on-multisite/includes/class-edd-sl-updates-on-multisite.php:154-231 | past the gate and the memo, `get_options` raises exactly when there is no sitewide array for the current blog's turn or the current blog's own option is not an array |
| UpdatesOnMultisiteProperties.ComputedIsAscending | edd-sl-updates-on-multisite/includes/class-edd-sl-updates-on-multisite.php:231-233 | the computed list is strictly increasing, hence free of repetition |
| UpdatesOnMultisiteProperties.AnswersStayAscending | edd-sl-updates-on-multisite/includes/class-edd-sl-updates-on-multisite.php:231-237 | while every memoised list is strictly increasing, every answer is, and so is every list in the memo afterwards |
| UpdatesOnMultisiteProperties.ResultMembers | edd-sl-updates-on-multisite/includes/class-edd-sl-updates-on-multisite.php:231-233 | `array_unique` and `sort` keep exactly the plugins of both lists |
| UpdatesOnMultisiteProperties.ComputedMembers | edd-sl-updates-on-multisite/includes/class-edd-sl-updates-on-multisite.php:222-233 | the computed list holds the current blog's own plugins and the updatable plugins of the network's lists, and nothing else |
| UpdatesOnMultisiteProperties.KeptIsStable | edd-sl-updates-on-multisite/includes/class-edd-sl-updates-on-multisite.php:173-222 | later blogs never change what was kept of earlier ones: it stays, in order, at the front |
| UpdatesOnMultisiteProperties.KeptIgnoresRepeats | edd-sl-updates-on-multisite/includes/class-edd-sl-updates-on-multisite.php:177-181 | a plugin met again is not examined again: appending plugins already met keeps nothing more |
| UpdatesOnMultisiteProperties.FreshOfSeen | edd-sl-updates-on-multisite/includes/class-edd-sl-updates-on-multisite.php:177-180 | nothing already encountered passes the filter |
| UpdatesOnMultisiteProperties.KeptInFirstOccurrenceOrder | edd-sl-updates-on-multisite/includes/class-edd-sl-updates-on-multisite.php:134-222 | the kept plugins come in the order of their first occurrence over the blogs in registration order |

## Left out

- Hook registration (`hooks()`, `hook()`, `add_filter`) and the two loader files are not modelled. They only wire the methods to WordPress and show an admin notice.
- The SQL text is not modelled. The blogs query is its result, `Tables.blogs`, already restricted to public, live blogs and ordered by registration. The option and sitemeta rows arrive already unserialised, as a `Stored` value, and the sitewide row holds the keys of its array.
- `wp_cache_set`, `wp_cache_add` and `set_time_limit` are not modelled: they change nothing the core reads.
- The HTTP transport is a function parameter, `Host.post`, which also stands for `json_decode`. `perform_post`'s answer is discarded by its caller, so the model returns the requests it would send, not their results.
- `maybe_unserialize`, `htmlentities`, `get_file_data`, `file_exists`, `dirname`, `plugin_basename`, `basename`, `trailingslashit`, `get_bloginfo` and the filter hooks are uninterpreted function parameters.
- `version_compare` is an abstract relation, `Host.versionLess`. The lemma that an older version is never written assumes it is asymmetric.
- `sort()` is modelled as the bytewise order on strings. PHP 8's numeric comparison of two numeric strings is not modelled; plugin file names are not numeric.
- Loose comparisons (`!=`, `==` and `in_array`) are modelled as string equality. PHP's equality of numeric strings such as "1.0" and "1" is not modelled.
- Runtime errors follow PHP 8; PHP 7's warnings and null values are not modelled.
- The `Multisite_Plugin_Updater` that the `array_filter` closure constructs (class-edd-sl-updates-on-multisite.php lines 209-216) is not modelled: its construction only registers hooks and does not affect the list returned.
- The update transient is a nullable object. A transient that is `false` or an empty array is not modelled, and neither is a `response` property that is set but not an array; those cases are outside the model.
- The constructor's `$api_data` is always an array in the model. The default `null` is not modelled, because `array_merge` in `api_request` would then raise.
- Arguments the source never reads: `ApiRequest` keeps `$action` of `api_request` and ignores it; `$pre_option` and `$default` of `get_options`, and `$transient` of `filter_update_plugins_transient`, are left out of the model's signatures.
- `$data['blogid']` holds the blog id's decimal rendering; the database returns it as a string.
- UpdatesOnMultisite.EddSlUpdatesOnMultisite.FilterUpdatePluginsTransient: the requests are returned as a map keyed by plugin file, so the order in which PHP's `foreach` sends them is not captured.
