/**
 * `MainActivity`: selects the installed packages to list, resolves their
 * labels and hands them to `PlaceholderContent`. Its companion object's
 * coordination members are one `Coordination.SharedFlags` object.
 */
module MainActivity {
  import opened Wrappers
  import opened PlaceholderContent

  /** `ApplicationInfo.FLAG_SYSTEM` and `ApplicationInfo.FLAG_UPDATED_SYSTEM_APP`. */
  const FLAG_SYSTEM: bv32 := 0x1
  const FLAG_UPDATED_SYSTEM_APP: bv32 := 0x80

  datatype ApplicationInfo = ApplicationInfo(flags: bv32, labelRes: int, nonLocalizedLabel: Option<string>)

  datatype PackageInfo = PackageInfo(packageName: string, applicationInfo: ApplicationInfo)

  predicate IsSystemApp(p: PackageInfo) {
    p.applicationInfo.flags & FLAG_SYSTEM != 0
  }

  predicate IsUpdatedSystemApp(p: PackageInfo) {
    p.applicationInfo.flags & FLAG_UPDATED_SYSTEM_APP != 0
  }

  /** The selection `getListInstalledApps` applies to each package. */
  predicate KeepPackage(p: PackageInfo, systemOnly: bool, userOnly: bool) {
    || (systemOnly && IsSystemApp(p) && !IsUpdatedSystemApp(p))
    || (userOnly && (!IsSystemApp(p) || IsUpdatedSystemApp(p)))
  }

  /** The packages of `s` that `KeepPackage` keeps, in their order in `s`. */
  function Selected(s: seq<PackageInfo>, systemOnly: bool, userOnly: bool): seq<PackageInfo>
    decreases |s|
  {
    if s == [] then []
    else (if KeepPackage(s[0], systemOnly, userOnly) then [s[0]] else []) + Selected(s[1..], systemOnly, userOnly)
  }

  lemma {:induction false} SelectedAppend(a: seq<PackageInfo>, b: seq<PackageInfo>, systemOnly: bool, userOnly: bool)
    ensures Selected(a + b, systemOnly, userOnly) == Selected(a, systemOnly, userOnly) + Selected(b, systemOnly, userOnly)
    decreases |a|
  {
    if a == [] {
      assert a + b == b;
    } else {
      assert (a + b)[1..] == a[1..] + b;
      SelectedAppend(a[1..], b, systemOnly, userOnly);
    }
  }

  /** `a` is `b` with some elements left out, the rest kept in order. */
  predicate IsSubsequence(a: seq<PackageInfo>, b: seq<PackageInfo>)
    decreases |b|
  {
    if a == [] then true
    else if b == [] then false
    else if a[0] == b[0] then IsSubsequence(a[1..], b[1..])
    else IsSubsequence(a, b[1..])
  }

  /** The selection keeps a package exactly when it is installed and passes the flag test. */
  lemma {:induction false} SelectedMembership(s: seq<PackageInfo>, systemOnly: bool, userOnly: bool, p: PackageInfo)
    ensures p in Selected(s, systemOnly, userOnly) <==> p in s && KeepPackage(p, systemOnly, userOnly)
    decreases |s|
  {
    if s != [] {
      SelectedMembership(s[1..], systemOnly, userOnly, p);
      assert s == [s[0]] + s[1..];
    }
  }

  /** The selection is an order-preserving subsequence of the installed list. */
  lemma {:induction false} SelectedIsSubsequence(s: seq<PackageInfo>, systemOnly: bool, userOnly: bool)
    ensures IsSubsequence(Selected(s, systemOnly, userOnly), s)
    decreases |s|
  {
    if s != [] {
      SelectedIsSubsequence(s[1..], systemOnly, userOnly);
      var rest := Selected(s[1..], systemOnly, userOnly);
      if KeepPackage(s[0], systemOnly, userOnly) {
        assert ([s[0]] + rest)[1..] == rest;
      } else {
        assert [] + rest == rest;
        SkipPreservesSubsequence(rest, s);
      }
    }
  }

  /** Allowing one more element at the front of the longer sequence keeps a subsequence a subsequence. */
  lemma {:induction false} SkipPreservesSubsequence(a: seq<PackageInfo>, b: seq<PackageInfo>)
    requires b != [] && IsSubsequence(a, b[1..])
    ensures IsSubsequence(a, b)
    decreases |b|, 0
  {
    if a != [] && a[0] == b[0] {
      SubsequenceTail(a, b[1..]);
    }
  }

  /** Dropping the first element of a subsequence keeps it a subsequence. */
  lemma {:induction false} SubsequenceTail(a: seq<PackageInfo>, b: seq<PackageInfo>)
    requires a != [] && IsSubsequence(a, b)
    ensures IsSubsequence(a[1..], b)
    decreases |b|, 1
  {
    if a[0] == b[0] {
      SkipPreservesSubsequence(a[1..], b);
    } else {
      SubsequenceTail(a, b[1..]);
      SkipPreservesSubsequence(a[1..], b);
    }
  }

  /**
   * The two disjuncts of the flag test are complementary: with both
   * selectors every package is kept, with neither none is.
   */
  lemma {:induction false} SelectorsAreComplementary(s: seq<PackageInfo>)
    ensures Selected(s, true, true) == s
    ensures Selected(s, false, false) == []
    ensures forall p :: p in s ==> (KeepPackage(p, true, false) <==> !KeepPackage(p, false, true))
    decreases |s|
  {
    if s != [] {
      SelectorsAreComplementary(s[1..]);
      assert s == [s[0]] + s[1..];
    }
  }

  /** `getListInstalledApps`: the index loop over `getInstalledPackages(0)` that appends every kept package. */
  method GetListInstalledApps(installed: seq<PackageInfo>, systemOnly: bool, userOnly: bool)
    returns (pkgInfoList: seq<PackageInfo>)
    ensures pkgInfoList == Selected(installed, systemOnly, userOnly)
  {
    pkgInfoList := [];
    for i := 0 to |installed|
      invariant pkgInfoList == Selected(installed[..i], systemOnly, userOnly)
    {
      var packageInfo := installed[i];
      var addPkg := (systemOnly && (IsSystemApp(packageInfo) && !IsUpdatedSystemApp(packageInfo))) ||
                    (userOnly && (!IsSystemApp(packageInfo) || IsUpdatedSystemApp(packageInfo)));
      if addPkg {
        pkgInfoList := pkgInfoList + [packageInfo];
      }
      assert installed[..i + 1] == installed[..i] + [packageInfo];
      SelectedAppend(installed[..i], [packageInfo], systemOnly, userOnly);
    }
    assert installed[..|installed|] == installed;
  }

  /**
   * What looking up a package's resources gives: `NameNotFound` when
   * `getApplicationIcon` or `getResourcesForApplication` throws
   * `NameNotFoundException` (which is swallowed), otherwise the resources'
   * `getString`.
   */
  datatype AppResources = NameNotFound | Resources(getString: int -> string)

  /** The localized label: only when the resources were found and `labelRes` is not 0. */
  function LocalizedLabel(p: PackageInfo, res: AppResources): Option<string> {
    match res
    case NameNotFound => None
    case Resources(getString) =>
      if p.applicationInfo.labelRes != 0 then Some(getString(p.applicationInfo.labelRes)) else None
  }

  /** The elvis chain: localized label, else the non-localized label, else the package name. */
  function Label(p: PackageInfo, res: AppResources): string {
    LocalizedLabel(p, res).GetOr(p.applicationInfo.nonLocalizedLabel.GetOr(p.packageName))
  }

  /**
   * The label is the first available of the three, so there always is one;
   * a swallowed `NameNotFoundException` falls through to the two fallbacks.
   */
  lemma LabelFallbackOrder(p: PackageInfo, res: AppResources)
    ensures res.Resources? && p.applicationInfo.labelRes != 0 ==>
      Label(p, res) == res.getString(p.applicationInfo.labelRes)
    ensures (res.NameNotFound? || p.applicationInfo.labelRes == 0) && p.applicationInfo.nonLocalizedLabel.Some? ==>
      Label(p, res) == p.applicationInfo.nonLocalizedLabel.value
    ensures (res.NameNotFound? || p.applicationInfo.labelRes == 0) && p.applicationInfo.nonLocalizedLabel.None? ==>
      Label(p, res) == p.packageName
  {
  }

  /** The `addItem` calls for `infos`: one per entry, in order, each unchecked. */
  function AddItemCalls(infos: seq<PackageInfo>, resources: PackageInfo -> AppResources): seq<ContentCall<PackageInfo>>
    decreases |infos|
  {
    if infos == [] then []
    else [AddItem(infos[0], Label(infos[0], resources(infos[0])), false)] + AddItemCalls(infos[1..], resources)
  }

  lemma {:induction false} AddItemCallsAppend(a: seq<PackageInfo>, b: seq<PackageInfo>, resources: PackageInfo -> AppResources)
    ensures AddItemCalls(a + b, resources) == AddItemCalls(a, resources) + AddItemCalls(b, resources)
    decreases |a|
  {
    if a == [] {
      assert a + b == b;
    } else {
      assert (a + b)[1..] == a[1..] + b;
      AddItemCallsAppend(a[1..], b, resources);
    }
  }

  /** Exactly one `addItem` per package, at the package's own position, with its label and `checked = false`. */
  lemma {:induction false} AddItemCallsOnePerPackage(infos: seq<PackageInfo>, resources: PackageInfo -> AppResources)
    ensures |AddItemCalls(infos, resources)| == |infos|
    ensures forall k :: 0 <= k < |infos| ==>
      AddItemCalls(infos, resources)[k] == AddItem(infos[k], Label(infos[k], resources(infos[k])), false)
    decreases |infos|
  {
    if infos != [] {
      AddItemCallsOnePerPackage(infos[1..], resources);
    }
  }

  class MainActivity {
    var mListDefault: seq<PlaceholderPackage>
    var mListInfo: seq<PackageInfo>

    constructor ()
      ensures mListDefault == [] && mListInfo == []
    {
      mListDefault := [];
      mListInfo := [];
    }

    /**
     * `addPackageToPlaceholderContent`: clear `ITEMS`, add one unchecked item
     * per `mListInfo` entry in order, then sort.
     */
    method AddPackageToPlaceholderContent(content: ContentLog<PackageInfo>, resources: PackageInfo -> AppResources)
      modifies content
      ensures content.calls == old(content.calls) + [ClearItems] + AddItemCalls(mListInfo, resources) + [SortItems]
    {
      content.Record(ClearItems);
      ghost var start := content.calls;
      for i := 0 to |mListInfo|
        invariant content.calls == start + AddItemCalls(mListInfo[..i], resources)
      {
        var pkgInfo := mListInfo[i];
        var appLabel := Label(pkgInfo, resources(pkgInfo));
        content.Record(AddItem(pkgInfo, appLabel, false));
        assert mListInfo[..i + 1] == mListInfo[..i] + [pkgInfo];
        AddItemCallsAppend(mListInfo[..i], [pkgInfo], resources);
      }
      assert mListInfo[..|mListInfo|] == mListInfo;
      content.Record(SortItems);
    }

    /**
     * `onResume`: with the usage-stats permission, clear `mListDefault`,
     * APPEND the user packages to `mListInfo` (which is never cleared) and
     * rebuild the content; without it, change nothing.
     */
    method OnResume(permissionGranted: bool, installed: seq<PackageInfo>,
                    content: ContentLog<PackageInfo>, resources: PackageInfo -> AppResources)
      modifies this, content
      ensures permissionGranted ==>
        && mListDefault == []
        && mListInfo == old(mListInfo) + Selected(installed, false, true)
        && content.calls == old(content.calls) + [ClearItems] + AddItemCalls(mListInfo, resources) + [SortItems]
      ensures !permissionGranted ==>
        mListDefault == old(mListDefault) && mListInfo == old(mListInfo) && content.calls == old(content.calls)
    {
      if permissionGranted {
        mListDefault := [];
        var apps := GetListInstalledApps(installed, false, true);
        mListInfo := mListInfo + apps;
        AddPackageToPlaceholderContent(content, resources);
      }
    }
  }

  /** Two permitted resumes over the same installed list leave every user package in `mListInfo` twice. */
  method ResumeTwiceAccumulates(activity: MainActivity, installed: seq<PackageInfo>,
                                content: ContentLog<PackageInfo>, resources: PackageInfo -> AppResources)
    requires activity.mListInfo == []
    modifies activity, content
    ensures activity.mListInfo == Selected(installed, false, true) + Selected(installed, false, true)
  {
    activity.OnResume(true, installed, content, resources);
    activity.OnResume(true, installed, content, resources);
  }
}
