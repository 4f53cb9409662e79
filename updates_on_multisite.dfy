/**
 * `EDD_SL_Updates_On_Multisite`: in the network admin, replaces the value of
 * the `active_plugins` option by the plugins active anywhere on the network
 * that are updated from outside wordpress.org, so that WordPress checks them
 * for updates; and watches the update transient for entries that came from a
 * site's license.
 */
module UpdatesOnMultisite {
  import opened Php
  import opened WordPress
  import opened RequestGate

  /** The filesystem checks of the `array_filter` closure, paths relative to
      the plugins directory: `file_exists`, `dirname`, and the `Updateable`
      header as `get_file_data` reads it ("" when absent). */
  datatype Disk = Disk(
    fileExists: string -> bool,
    dirname: string -> string,
    updateableHeader: string -> string)

  /** The checks of the `array_filter` callback: the plugin file exists, and its folder holds an updater
      marker file or its header says `Updateable` with a true value. */
  predicate Updatable(disk: Disk, item: PluginId)
  {
    disk.fileExists(item)
    && (disk.fileExists(disk.dirname(item) + "/edd_mu_updater.php")
        || disk.fileExists(disk.dirname(item) + "/includes/class-updater.php")
        || !Empty(disk.updateableHeader(item)))
  }

  /** What the `array_filter` closure keeps of a blog's list when `seen`
      holds the plugins met before: the first occurrence of each plugin not
      met before, if it is updatable. */
  function Fresh(disk: Disk, seen: set<PluginId>, items: seq<PluginId>): (r: seq<PluginId>)
    ensures Distinct(r)
    ensures forall x :: x in r <==> x in items && x !in seen && Updatable(disk, x)
    decreases |items|
  {
    if items == [] then []
    else
      var p := items[..|items| - 1];
      var x := items[|items| - 1];
      var earlier := Fresh(disk, seen, p);
      if x !in seen && x !in p && Updatable(disk, x) then
        assert x !in earlier;
        earlier + [x]
      else earlier
  }

  /** Everything the loop keeps of the concatenated lists of the blogs. */
  function Kept(disk: Disk, s: seq<PluginId>): seq<PluginId>
  {
    Fresh(disk, {}, s)
  }

  /** Where a blog's list comes from, as the loop reads it: the network's sitewide
      plugins for the current blog, the blog's own option for every other
      one. `array_keys` of a missing or non-array sitewide value is a
      TypeError; a missing row of another blog reads as null. */
  function BlogListing(t: Tables, current: BlogId, option: string, blog: BlogId): (r: Option<Stored>)
    ensures blog == current ==>
      (r.Some? <==> t.sitewide.Some? && t.sitewide.value.Array?) && (r.Some? ==> r.value == t.sitewide.value)
    ensures blog != current ==>
      r.Some? && r.value == (if OptionRow(t, blog, option).Some? then OptionRow(t, blog, option).value else Scalar)
  {
    if blog == current then
      if t.sitewide.Some? && t.sitewide.value.Array? then t.sitewide else None
    else
      var row := OptionRow(t, blog, option);
      Some(if row.Some? then row.value else Scalar)
  }

  /** The lists of the first n blogs, concatenated; non-arrays are skipped.
      None when one of them raises. */
  function Gathered(t: Tables, current: BlogId, option: string, n: nat): (r: Option<seq<PluginId>>)
    requires n <= |t.blogs|
    decreases n
  {
    if n == 0 then Some([])
    else match Gathered(t, current, option, n - 1)
      case None => None
      case Some(s) =>
        match BlogListing(t, current, option, t.blogs[n - 1])
        case None => None
        case Some(Scalar) => Some(s)
        case Some(Array(items)) => Some(s + items)
  }

  /** What `get_options` answers: false (read the option as usual), the
      network-wide list, or a PHP error. */
  datatype OptionOverride = PassThrough | Override(plugins: seq<PluginId>) | Fatal

  /** The key of the process-wide memo. */
  function MemoKey(option: string): string
  {
    option + "_processed"
  }

  /** The closing `array_unique` and `sort`: the current blog's own list and the kept plugins,
      without repetition, sorted. */
  function Result(current: seq<PluginId>, kept: seq<PluginId>): seq<PluginId>
  {
    Sort(Unique(current + kept))
  }

  /** `get_options($pre_option, $option, $default)` on a network whose
      current blog is `current`, given the memo `memo`. */
  function GetOptionsSpec(host: Host, option: string, t: Tables, current: BlogId,
                          memo: map<string, seq<PluginId>>, disk: Disk): OptionOverride
  {
    if !host.isMultisite then PassThrough
    else if (!host.isNetworkAdmin) && !RefererIsNetworkAdminPluginsPage(host.referer) then PassThrough
    else if MemoKey(option) in memo then Override(memo[MemoKey(option)])
    else
      var own := match OptionRow(t, current, option) case None => Array([]) case Some(v) => v;
      match Gathered(t, current, option, |t.blogs|)
      case None => Fatal
      case Some(s) =>
        if own.Scalar? then Fatal else Override(Result(own.items, Kept(disk, s)))
  }

  /** The memo after `get_options`: the computed list is stored under its key. */
  function MemoAfter(host: Host, option: string, t: Tables, current: BlogId,
                     memo: map<string, seq<PluginId>>, disk: Disk): map<string, seq<PluginId>>
  {
    var r := GetOptionsSpec(host, option, t, current, memo, disk);
    if r.Override? && MemoKey(option) !in memo then memo[MemoKey(option) := r.plugins] else memo
  }

  /** `$GLOBALS`, as far as the memo goes. */
  class Globals {
    var processed: map<string, seq<PluginId>>

    constructor (processed: map<string, seq<PluginId>>)
      ensures this.processed == processed
    {
      this.processed := processed;
    }
  }

  /** Which entries of the update transient's response get a post: those
      without a package that carry the id of the blog whose license found
      them. */
  predicate Pending(obj: UpdateInfo)
  {
    EmptyOpt(obj.package) && obj.blogId.Some? && obj.blogId.value != 0
  }

  /** The request `perform_post` sends for a pending entry: the license
      hook of the entry's slug is asked for the blog's license. */
  function PendingRequest(host: Host, obj: UpdateInfo): Request
    requires obj.blogId.Some?
  {
    var data0 := map["license" := "", "item_name" := OrEmpty(obj.name), "slug" := OrEmpty(obj.slug), "author" := ""];
    var data := host.licenseHook(OrEmpty(obj.slug), data0, obj.blogId.value);
    var url := if EmptyAt(data, "url") then host.siteUrl else data["url"];
    UpdateRequest(host, host.apiUrlHook(OrEmpty(obj.url)), url, Get(data, "license"),
                  Get(data, "item_name"), Get(data, "slug"), Get(data, "author"))
  }

  class EddSlUpdatesOnMultisite {

    constructor ()
    {
    }

    /** `filter_update_plugins_transient($value, $transient)`: returns the
        transient it is given on every path; `posts` are the requests it
        sends, by plugin file. */
    method FilterUpdatePluginsTransient(value: UpdateTransient?, host: Host)
      returns (r: UpdateTransient?, posts: map<PluginId, Request>)
      ensures r == value
      ensures value == null || value.response.None? ==> posts == map[]
      ensures value != null && value.response.Some? ==>
        posts.Keys == set f | f in value.response.value && Pending(value.response.value[f])
      ensures value != null && value.response.Some? ==>
        forall f :: f in posts ==>
          f in value.response.value && Pending(value.response.value[f])
          && posts[f] == PendingRequest(host, value.response.value[f])
    {
      posts := map[];
      if value == null || value.response.None? {
        return value, posts;
      }
      var entries := value.response.value;
      var todo := entries.Keys;
      while todo != {}
        invariant todo <= entries.Keys
        invariant posts.Keys == set f | f in entries && f !in todo && Pending(entries[f])
        invariant forall f :: f in posts ==>
          f in entries && Pending(entries[f]) && posts[f] == PendingRequest(host, entries[f])
        decreases todo
      {
        var file :| file in todo;
        todo := todo - {file};
        var obj := entries[file];
        if !EmptyOpt(obj.package) || obj.blogId.None? || obj.blogId.value == 0 {
          continue;
        }
        posts := posts[file := PendingRequest(host, obj)];
      }
      r := value;
    }

    /** The `array_filter` over one blog's list with the shared
        `$plugins_encountered`: every plugin not met before is recorded,
        whether it is then kept or not. */
    method FilterBlogPlugins(disk: Disk, items: seq<PluginId>, encountered: seq<PluginId>)
      returns (value: seq<PluginId>, encountered': seq<PluginId>)
      ensures value == Fresh(disk, Elems(encountered), items)
      ensures Elems(encountered') == Elems(encountered) + Elems(items)
      ensures |encountered| <= |encountered'| && encountered'[..|encountered|] == encountered
    {
      value := [];
      encountered' := encountered;
      var i := 0;
      while i < |items|
        invariant 0 <= i <= |items|
        invariant value == Fresh(disk, Elems(encountered), items[..i])
        invariant Elems(encountered') == Elems(encountered) + Elems(items[..i])
        invariant |encountered| <= |encountered'| && encountered'[..|encountered|] == encountered
      {
        var item := items[i];
        assert items[..i + 1] == items[..i] + [item];
        assert items[..i + 1][..i] == items[..i];
        if item in encountered' {
        } else {
          encountered' := encountered' + [item];
          if disk.fileExists(item)
            && (disk.fileExists(disk.dirname(item) + "/edd_mu_updater.php")
                || disk.fileExists(disk.dirname(item) + "/includes/class-updater.php")
                || !Empty(disk.updateableHeader(item)))
          {
            value := value + [item];
          }
        }
        i := i + 1;
      }
      assert items[..i] == items;
    }

    /** `get_options($pre_option, $option, $default)`; the other two
        arguments are not used by the source. */
    method GetOptions(option: string, host: Host, db: Wpdb, globals: Globals, disk: Disk)
      returns (r: OptionOverride)
      modifies db`blogid, globals
      ensures db.blogid == old(db.blogid)
      ensures r == GetOptionsSpec(host, option, db.tables, old(db.blogid), old(globals.processed), disk)
      ensures globals.processed == MemoAfter(host, option, db.tables, old(db.blogid), old(globals.processed), disk)
    {
      if !host.isMultisite {
        return PassThrough;
      }
      if !host.isNetworkAdmin && !RefererIsNetworkAdminPluginsPage(host.referer) {
        return PassThrough;
      }
      if MemoKey(option) in globals.processed {
        return Override(globals.processed[MemoKey(option)]);
      }
      var currentBlogPlugins := Array([]);
      var row := db.GetOptionRow(option);
      if row.Some? {
        currentBlogPlugins := row.value;
      }
      var otherBlogOptions := OtherBlogOptions(option, db, disk);
      if otherBlogOptions.None? {
        return Fatal;
      }
      if currentBlogPlugins.Scalar? {
        return Fatal;
      }
      var result := Sort(Unique(currentBlogPlugins.items + otherBlogOptions.value));
      globals.processed := globals.processed[MemoKey(option) := result];
      r := Override(result);
    }

    /** The `foreach` over the network's blogs, from the current
        blog, which it switches back to at the end. None when a PHP error
        ends the loop; that error is raised only on the current blog, so the
        blog id is then the original one as well. */
    method OtherBlogOptions(option: string, db: Wpdb, disk: Disk) returns (other: Option<seq<PluginId>>)
      modifies db`blogid
      ensures db.blogid == old(db.blogid)
      ensures Gathered(db.tables, old(db.blogid), option, |db.tables.blogs|).None? ==> other.None?
      ensures Gathered(db.tables, old(db.blogid), option, |db.tables.blogs|).Some? ==>
        other == Some(Kept(disk, Gathered(db.tables, old(db.blogid), option, |db.tables.blogs|).value))
    {
      var blogs := db.tables.blogs;
      var currentBlogId := db.blogid;
      ghost var t := db.tables;
      var otherBlogOptions := [];
      var pluginsEncountered := [];
      ghost var seen: seq<PluginId> := [];
      var i := 0;
      while i < |blogs|
        invariant 0 <= i <= |blogs|
        invariant Gathered(t, currentBlogId, option, i) == Some(seen)
        invariant Elems(pluginsEncountered) == Elems(seen)
        invariant otherBlogOptions == Kept(disk, seen)
      {
        var thisBlogPlugins := ReadBlogPlugins(blogs[i], currentBlogId, option, db);
        if thisBlogPlugins.None? {
          GatheredStaysNone(t, currentBlogId, option, i + 1, |blogs|);
          return None;
        }
        if thisBlogPlugins.value.Scalar? {
          i := i + 1;
          continue;
        }
        var items := thisBlogPlugins.value.items;
        GatherArrayStep(t, currentBlogId, option, i, seen, items);
        otherBlogOptions, pluginsEncountered := MergeBlog(disk, items, otherBlogOptions, pluginsEncountered, seen);
        seen := seen + items;
        i := i + 1;
      }
      db.SetBlogId(currentBlogId);
      other := Some(otherBlogOptions);
    }

    /** For one blog whose list is an array: the filter with
        the shared encountered list, then the `array_unique` merge into the
        accumulator, which stays what is kept of all lists so far. */
    method MergeBlog(disk: Disk, items: seq<PluginId>, acc: seq<PluginId>, encountered: seq<PluginId>,
                     ghost seen: seq<PluginId>)
      returns (acc': seq<PluginId>, encountered': seq<PluginId>)
      requires acc == Kept(disk, seen) && Elems(encountered) == Elems(seen)
      ensures acc' == Kept(disk, seen + items)
      ensures Elems(encountered') == Elems(seen + items)
    {
      var value;
      value, encountered' := FilterBlogPlugins(disk, items, encountered);
      GatherElems(seen, items);
      KeptAppend(disk, seen, items);
      DisjointFreshAppend(disk, seen, items);
      acc' := Unique(acc + value);
    }

    /** The head of the loop body: switches to the blog and reads its list, from the
        sitewide row for the current blog. None where `array_keys` raises. */
    method ReadBlogPlugins(blog: BlogId, currentBlogId: BlogId, option: string, db: Wpdb)
      returns (l: Option<Stored>)
      modifies db`blogid
      ensures db.blogid == blog
      ensures l == BlogListing(db.tables, currentBlogId, option, blog)
    {
      db.SetBlogId(blog);
      if currentBlogId == blog {
        var meta := db.tables.sitewide;
        if meta.None? || meta.value.Scalar? {
          return None;
        }
        l := meta;
      } else {
        var row := db.GetOptionRow(option);
        l := Some(if row.Some? then row.value else Scalar);
      }
    }
  }

  /** What is kept of s + items is what is kept of s followed by the fresh
      plugins of items. */
  lemma {:induction false} KeptAppend(disk: Disk, s: seq<PluginId>, items: seq<PluginId>)
    ensures Kept(disk, s + items) == Kept(disk, s) + Fresh(disk, Elems(s), items)
  {
    FreshAppend(disk, {}, s, items);
    assert {} + Elems(s) == Elems(s);
  }

  lemma {:induction false} FreshAppend(disk: Disk, seen: set<PluginId>, s: seq<PluginId>, t: seq<PluginId>)
    ensures Fresh(disk, seen, s + t) == Fresh(disk, seen, s) + Fresh(disk, seen + Elems(s), t)
    decreases |t|
  {
    if t == [] {
      assert s + t == s;
    } else {
      var t' := t[..|t| - 1];
      var x := t[|t| - 1];
      FreshAppend(disk, seen, s, t');
      assert (s + t)[..|s + t| - 1] == s + t';
      assert (x in s + t') == (x in Elems(s) || x in t');
    }
  }

  /** The fresh plugins of a list, appended to what was kept before, repeat
      nothing, so `array_unique` leaves the concatenation as it is. */
  lemma DisjointFreshAppend(disk: Disk, s: seq<PluginId>, items: seq<PluginId>)
    ensures Unique(Kept(disk, s) + Fresh(disk, Elems(s), items)) == Kept(disk, s) + Fresh(disk, Elems(s), items)
  {
    var a, b := Kept(disk, s), Fresh(disk, Elems(s), items);
    assert forall x :: x in a ==> x !in b;
    DistinctConcat(a, b);
    UniqueOfDistinct(a + b);
  }

  /** One iteration of the blogs loop over a blog whose list is an array:
      the gathered lists grow by it. */
  lemma GatherArrayStep(t: Tables, current: BlogId, option: string, i: nat,
                        seen: seq<PluginId>, items: seq<PluginId>)
    requires i < |t.blogs|
    requires Gathered(t, current, option, i) == Some(seen)
    requires BlogListing(t, current, option, t.blogs[i]) == Some(Array(items))
    ensures Gathered(t, current, option, i + 1) == Some(seen + items)
  {
  }

  lemma GatherElems(seen: seq<PluginId>, items: seq<PluginId>)
    ensures Elems(seen + items) == Elems(seen) + Elems(items)
  {
  }

  /** Once a blog's list raises, the whole gathering has. */
  lemma {:induction false} GatheredStaysNone(t: Tables, current: BlogId, option: string, n: nat, m: nat)
    requires n <= m <= |t.blogs|
    requires Gathered(t, current, option, n) == None
    ensures Gathered(t, current, option, m) == None
    decreases m - n
  {
    if n < m {
      GatheredStaysNone(t, current, option, n + 1, m);
    }
  }
}
