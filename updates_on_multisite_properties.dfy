/**
 * What `get_options` promises: when it answers, what the network-wide list
 * holds and in which order, when it ends in a PHP error, and that its memo
 * makes a second call give the first call's answer.
 */
module UpdatesOnMultisiteProperties {
  import opened Php
  import opened WordPress
  import opened RequestGate
  import opened UpdatesOnMultisite

  // ---------------------------------------------------------------------
  // The gate and the memo

  /** `get_options` overrides the option exactly on a multisite network in
      the network admin context. */
  lemma OverridesOnlyInNetworkAdmin(host: Host, option: string, t: Tables, current: BlogId,
                                    memo: map<string, seq<PluginId>>, disk: Disk)
    ensures GetOptionsSpec(host, option, t, current, memo, disk) != PassThrough <==>
      host.isMultisite && NetworkAdminContext(host.isNetworkAdmin, host.referer)
  {
  }

  /** A memoised list is returned as it is, without reading any blog. */
  lemma MemoIsReturned(host: Host, option: string, t: Tables, current: BlogId,
                       memo: map<string, seq<PluginId>>, disk: Disk)
    requires host.isMultisite && NetworkAdminContext(host.isNetworkAdmin, host.referer)
    requires MemoKey(option) in memo
    ensures GetOptionsSpec(host, option, t, current, memo, disk) == Override(memo[MemoKey(option)])
    ensures MemoAfter(host, option, t, current, memo, disk) == memo
  {
  }

  /** A second call in the same request gives the first call's answer and
      leaves the memo as the first call left it, whatever the tables then
      hold. */
  lemma SecondCallAgrees(host: Host, option: string, t: Tables, t': Tables, current: BlogId, current': BlogId,
                         memo: map<string, seq<PluginId>>, disk: Disk, disk': Disk)
    requires GetOptionsSpec(host, option, t, current, memo, disk).Override?
    ensures var memo' := MemoAfter(host, option, t, current, memo, disk);
      GetOptionsSpec(host, option, t', current', memo', disk') == GetOptionsSpec(host, option, t, current, memo, disk)
      && MemoAfter(host, option, t', current', memo', disk') == memo'
  {
  }

  /** Only the memo's key for this option is ever written. */
  lemma MemoWritesOneKey(host: Host, option: string, t: Tables, current: BlogId,
                         memo: map<string, seq<PluginId>>, disk: Disk)
    ensures var memo' := MemoAfter(host, option, t, current, memo, disk);
      memo'.Keys <= memo.Keys + {MemoKey(option)}
      && forall k :: k in memo ==> k in memo' && memo'[k] == memo[k]
  {
  }

  // ---------------------------------------------------------------------
  // PHP errors

  /** Of all the blogs' lists, only the current blog's can raise: the
      gathering fails exactly when the current blog is among the blogs read
      and the network has no sitewide array. */
  lemma {:induction false} GatheredFailsOnlyOnSitewide(t: Tables, current: BlogId, option: string, n: nat)
    requires n <= |t.blogs|
    ensures Gathered(t, current, option, n).None? <==>
      current in t.blogs[..n] && !(t.sitewide.Some? && t.sitewide.value.Array?)
    decreases n
  {
    if n > 0 {
      GatheredFailsOnlyOnSitewide(t, current, option, n - 1);
      assert t.blogs[..n] == t.blogs[..n - 1] + [t.blogs[n - 1]];
      if Gathered(t, current, option, n - 1).None? {
        GatheredStaysNone(t, current, option, n - 1, n);
      }
    }
  }

  /** `get_options` ends in a PHP error exactly when, past the gate and the
      memo, the current blog is among the network's blogs with no sitewide
      array, or its own option is not an array. */
  lemma FatalExactly(host: Host, option: string, t: Tables, current: BlogId,
                     memo: map<string, seq<PluginId>>, disk: Disk)
    ensures GetOptionsSpec(host, option, t, current, memo, disk) == Fatal <==>
      host.isMultisite && NetworkAdminContext(host.isNetworkAdmin, host.referer) && MemoKey(option) !in memo
      && ((current in t.blogs && !(t.sitewide.Some? && t.sitewide.value.Array?))
          || (OptionRow(t, current, option).Some? && OptionRow(t, current, option).value.Scalar?))
  {
    GatheredFailsOnlyOnSitewide(t, current, option, |t.blogs|);
    assert t.blogs[..|t.blogs|] == t.blogs;
  }

  // ---------------------------------------------------------------------
  // The list computed

  /** A computed list is strictly increasing in the byte order, hence free
      of repetition. */
  lemma ComputedIsAscending(own: seq<PluginId>, kept: seq<PluginId>)
    ensures Ascending(Result(own, kept))
  {
    OrderedDistinctAscending(Result(own, kept));
  }

  /** Every memoised list stays strictly increasing across calls. */
  lemma AnswersStayAscending(host: Host, option: string, t: Tables, current: BlogId,
                            memo: map<string, seq<PluginId>>, disk: Disk)
    requires forall k :: k in memo ==> Ascending(memo[k])
    ensures var r := GetOptionsSpec(host, option, t, current, memo, disk);
      r.Override? ==> Ascending(r.plugins)
    ensures var memo' := MemoAfter(host, option, t, current, memo, disk);
      forall k :: k in memo' ==> Ascending(memo'[k])
  {
    var r := GetOptionsSpec(host, option, t, current, memo, disk);
    if r.Override? && MemoKey(option) !in memo {
      var own := match OptionRow(t, current, option) case None => Array([]) case Some(v) => v;
      var g := Gathered(t, current, option, |t.blogs|);
      assert own.Array? && g.Some? && r.plugins == Result(own.items, Kept(disk, g.value));
      ComputedIsAscending(own.items, Kept(disk, g.value));
      assert MemoAfter(host, option, t, current, memo, disk) == memo[MemoKey(option) := r.plugins];
    } else {
      assert MemoAfter(host, option, t, current, memo, disk) == memo;
    }
  }

  /** `array_unique` and `sort` keep exactly the plugins of both lists. */
  lemma ResultMembers(own: seq<PluginId>, kept: seq<PluginId>, x: PluginId)
    ensures x in Result(own, kept) <==> x in own || x in kept
  {
    var u := Unique(own + kept);
    assert x in Sort(u) <==> x in multiset(Sort(u));
    assert x in u <==> x in multiset(u);
  }

  /** A list computed from the current blog's own list `own` and the
      network's gathered lists `s` holds the plugins of `own` and the
      updatable plugins of `s`, and nothing else. */
  lemma ComputedMembers(host: Host, option: string, t: Tables, current: BlogId,
                        memo: map<string, seq<PluginId>>, disk: Disk,
                        own: seq<PluginId>, s: seq<PluginId>, x: PluginId)
    requires host.isMultisite && NetworkAdminContext(host.isNetworkAdmin, host.referer)
    requires MemoKey(option) !in memo
    requires OptionRow(t, current, option) == Some(Array(own)) || (OptionRow(t, current, option) == None && own == [])
    requires Gathered(t, current, option, |t.blogs|) == Some(s)
    ensures GetOptionsSpec(host, option, t, current, memo, disk).Override?
    ensures x in GetOptionsSpec(host, option, t, current, memo, disk).plugins <==>
      x in own || (x in s && Updatable(disk, x))
  {
    assert GetOptionsSpec(host, option, t, current, memo, disk) == Override(Result(own, Kept(disk, s)));
    ResultMembers(own, Kept(disk, s), x);
  }

  // ---------------------------------------------------------------------
  // What the loop keeps: the first occurrence decides

  /** The position of the first occurrence of x in s. */
  function FirstIndex(s: seq<PluginId>, x: PluginId): (r: nat)
    requires x in s
    ensures r < |s| && s[r] == x && x !in s[..r]
  {
    if s[0] == x then 0
    else
      var r := 1 + FirstIndex(s[1..], x);
      assert s[..r] == [s[0]] + s[1..][..r - 1];
      r
  }

  /** What the loop keeps of the earlier blogs is not changed by the later
      blogs: it stays, in order, at the front. */
  lemma KeptIsStable(disk: Disk, s: seq<PluginId>, t: seq<PluginId>)
    ensures |Kept(disk, s)| <= |Kept(disk, s + t)|
    ensures Kept(disk, s + t)[..|Kept(disk, s)|] == Kept(disk, s)
  {
    KeptAppend(disk, s, t);
  }

  /** A plugin met again later is not looked at again: appending plugins
      already met keeps nothing more. */
  lemma KeptIgnoresRepeats(disk: Disk, s: seq<PluginId>, t: seq<PluginId>)
    requires forall j :: 0 <= j < |t| ==> t[j] in s
    ensures Kept(disk, s + t) == Kept(disk, s)
  {
    KeptAppend(disk, s, t);
    FreshOfSeen(disk, Elems(s), t);
    assert Kept(disk, s) + [] == Kept(disk, s);
  }

  /** Nothing met before is fresh. */
  lemma {:induction false} FreshOfSeen(disk: Disk, seen: set<PluginId>, t: seq<PluginId>)
    requires forall j :: 0 <= j < |t| ==> t[j] in seen
    ensures Fresh(disk, seen, t) == []
    decreases |t|
  {
    if t != [] {
      FreshOfSeen(disk, seen, t[..|t| - 1]);
    }
  }

  /** The kept plugins come in the order of their first occurrence on the
      network, blogs in registration order. */
  lemma {:induction false} KeptInFirstOccurrenceOrder(disk: Disk, s: seq<PluginId>, i: nat, j: nat)
    requires i < j < |Kept(disk, s)|
    ensures FirstIndex(s, Kept(disk, s)[i]) < FirstIndex(s, Kept(disk, s)[j])
    decreases |s|
  {
    var p, x := s[..|s| - 1], s[|s| - 1];
    assert s == p + [x];
    var k := Kept(disk, p);
    var a, b := Kept(disk, s)[i], Kept(disk, s)[j];
    if j < |k| {
      assert Kept(disk, s)[..|k|] == k by { KeptIsStable(disk, p, [x]); }
      assert a == k[i] && b == k[j];
      KeptInFirstOccurrenceOrder(disk, p, i, j);
      FirstIndexOfPrefix(p, [x], a);
      FirstIndexOfPrefix(p, [x], b);
    } else {
      assert Kept(disk, s) == k + [x];
      assert b == x && x !in p;
      assert a == k[i] && a in p;
      FirstIndexOfPrefix(p, [x], a);
      FirstIndexUnique(s, x, |p|);
    }
  }

  /** A position holding x with no x before it is the first index. */
  lemma FirstIndexUnique(s: seq<PluginId>, x: PluginId, r: nat)
    requires r < |s| && s[r] == x && x !in s[..r]
    ensures FirstIndex(s, x) == r
  {
  }

  /** The first occurrence of an element of p in p + q is the one in p. */
  lemma FirstIndexOfPrefix(p: seq<PluginId>, q: seq<PluginId>, y: PluginId)
    requires y in p
    ensures FirstIndex(p + q, y) == FirstIndex(p, y)
  {
    var f := FirstIndex(p, y);
    assert (p + q)[..f] == p[..f];
    FirstIndexUnique(p + q, y, f);
  }
}
