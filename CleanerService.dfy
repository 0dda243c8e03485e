/**
 * `AppCacheCleanerService2`, the accessibility service that drives one
 * target's Settings screens: it finds and clicks the "storage" sub-menu and
 * the "clear cache" button, goes back, and opens `MainActivity`'s gate so
 * that a waiting sequencer may move on.
 *
 * The helpers the service calls but whose code is not part of this model
 * (`lowercaseCompareText`, `findAccessibilityNodeInfosByViewId`,
 * `findNestedChildByClassName`) are uninterpreted: they are the fields of a
 * `Platform` value, and nothing is assumed about them. `performClick` is an
 * oracle whose answer is only logged by the source.
 */
module CleanerService {
  import opened Wrappers
  import opened UiTree
  import opened Coordination
  import opened ButtonIdPattern

  /** `AccessibilityEvent.TYPE_WINDOW_STATE_CHANGED`. */
  const TYPE_WINDOW_STATE_CHANGED: int := 0x20

  /** The fixed candidates `updateLocaleText` appends after the live text: literal strings, not resource lookups. */
  const CLEAR_CACHE_FALLBACK := "getText(R.string.clear_cache_btn_text)"
  const STORAGE_SETTINGS_FALLBACK := "getText(R.string.storage_settings_for_app)"
  const STORAGE_LABEL_FALLBACK := "getText(R.string.storage_label)"

  const SETTINGS_ACTION_BAR_ID := "com.android.settings:id/action_bar"
  const ANDROID_ACTION_BAR_ID := "android:id/action_bar"
  const UP_ID := "android:id/up"
  const TITLE_ID := "android:id/title"
  const BACK_BUTTON_CLASSES := ["android.widget.ImageButton", "android.widget.ImageView"]

  /** An accessibility event: its type and its source node (`event.source` may be null). */
  datatype Event = Event(eventType: int, source: Option<Node>)

  /** What `performClick()` answers: true, false, or null when no clickable view was found. */
  datatype ClickResult = Performed | NotPerformed | NoClickableView

  /** The node helpers the service relies on whose code is not part of this model. */
  datatype Platform = Platform(
    lowercaseCompareText: (Node, string) -> bool,
    findByViewId: (Node, string) -> seq<Node>,
    findNestedChildByClassName: (Node, seq<string>) -> Option<Node>)

  /** `list.firstOrNull()`. */
  function FirstOrNone(s: seq<Node>): (r: Option<Node>)
    ensures r.None? <==> s == []
    ensures r.Some? ==> r.value == s[0]
  {
    if s == [] then None else Some(s[0])
  }

  /** The node's text compares equal to one of the candidates (`any { lowercaseCompareText(it) }`). */
  predicate TextMatchesAny(n: Node, candidates: seq<string>, pf: Platform) {
    exists k :: 0 <= k < |candidates| && pf.lowercaseCompareText(n, candidates[k])
  }

  /** The clear-cache button: an id that fully matches `com.android.settings:id/.*button.*` and a candidate text. */
  predicate IsClearCacheButton(n: Node, candidates: seq<string>, pf: Platform) {
    n.id.Some? && MatchesButtonId(n.id.value) && TextMatchesAny(n, candidates, pf)
  }

  /** The storage sub-menu: the id `android:id/title` exactly, and a candidate text. */
  predicate IsStorageAndCacheMenu(n: Node, candidates: seq<string>, pf: Platform) {
    n.id == Some(TITLE_ID) && TextMatchesAny(n, candidates, pf)
  }

  function ClearCacheButtonTest(candidates: seq<string>, pf: Platform): Node -> bool {
    n => IsClearCacheButton(n, candidates, pf)
  }

  function StorageAndCacheMenuTest(candidates: seq<string>, pf: Platform): Node -> bool {
    n => IsStorageAndCacheMenu(n, candidates, pf)
  }

  /** `findClearCacheButton`: the post-order search for the clear-cache button. */
  function FindClearCacheButton(root: Node, candidates: seq<string>, pf: Platform): Option<Node> {
    FindFirst(root, ClearCacheButtonTest(candidates, pf))
  }

  /** `findStorageAndCacheMenu`: the post-order search for the storage sub-menu. */
  function FindStorageAndCacheMenu(root: Node, candidates: seq<string>, pf: Platform): Option<Node> {
    FindFirst(root, StorageAndCacheMenuTest(candidates, pf))
  }

  /** `FirstMatch` with its meaning spelled out: the earliest node of `s` that passes `p`. */
  ghost predicate IsFirstIn(s: seq<Node>, p: Node -> bool, m: Node) {
    exists k :: 0 <= k < |s| && s[k] == m && p(m) && forall j :: 0 <= j < k ==> !p(s[j])
  }

  /**
   * `findClearCacheButton` finds nothing exactly when no node of the tree is
   * the button, and otherwise the first button in post-order.
   */
  lemma FindClearCacheButtonIsFirstMatch(root: Node, candidates: seq<string>, pf: Platform)
    ensures var r := FindClearCacheButton(root, candidates, pf);
      && (r.None? <==> forall m :: m in PostOrder(root) ==> !IsClearCacheButton(m, candidates, pf))
      && (r.Some? ==> IsFirstIn(PostOrder(root), ClearCacheButtonTest(candidates, pf), r.value))
  {
    var p := ClearCacheButtonTest(candidates, pf);
    FindFirstIsFirstInPostOrder(root, p);
    var s := PostOrder(root);
    if FirstMatch(s, p).None? {
      forall m | m in s ensures !IsClearCacheButton(m, candidates, pf) {
        var k :| 0 <= k < |s| && s[k] == m;
        assert !p(s[k]);
      }
    }
  }

  /**
   * `findStorageAndCacheMenu` finds nothing exactly when no node of the tree
   * is the menu, and otherwise the first menu in post-order.
   */
  lemma FindStorageAndCacheMenuIsFirstMatch(root: Node, candidates: seq<string>, pf: Platform)
    ensures var r := FindStorageAndCacheMenu(root, candidates, pf);
      && (r.None? <==> forall m :: m in PostOrder(root) ==> !IsStorageAndCacheMenu(m, candidates, pf))
      && (r.Some? ==> IsFirstIn(PostOrder(root), StorageAndCacheMenuTest(candidates, pf), r.value))
  {
    var p := StorageAndCacheMenuTest(candidates, pf);
    FindFirstIsFirstInPostOrder(root, p);
    var s := PostOrder(root);
    if FirstMatch(s, p).None? {
      forall m | m in s ensures !IsStorageAndCacheMenu(m, candidates, pf) {
        var k :| 0 <= k < |s| && s[k] == m;
        assert !p(s[k]);
      }
    }
  }

  /** The action bar: the first node with the Settings action-bar id, else the first with the framework one. */
  function FindActionBar(root: Node, pf: Platform): Option<Node> {
    match FirstOrNone(pf.findByViewId(root, SETTINGS_ACTION_BAR_ID))
    case Some(bar) => Some(bar)
    case None => FirstOrNone(pf.findByViewId(root, ANDROID_ACTION_BAR_ID))
  }

  /**
   * `findBackButton`: inside the action bar, the `android:id/up` node if there
   * is one, else the nested ImageButton/ImageView; nothing without an action bar.
   */
  function FindBackButton(root: Node, pf: Platform): (r: Option<Node>)
    ensures (pf.findByViewId(root, SETTINGS_ACTION_BAR_ID) == [] &&
             pf.findByViewId(root, ANDROID_ACTION_BAR_ID) == []) ==> r.None?
    ensures r.Some? ==> FindActionBar(root, pf).Some?
    ensures FindActionBar(root, pf).Some? ==>
      var bar := FindActionBar(root, pf).value;
      var ups := pf.findByViewId(bar, UP_ID);
      r == if ups != [] then Some(ups[0]) else pf.findNestedChildByClassName(bar, BACK_BUTTON_CLASSES)
  {
    match FindActionBar(root, pf)
    case None => None
    case Some(bar) =>
      match FirstOrNone(pf.findByViewId(bar, UP_ID))
      case Some(up) => Some(up)
      case None => pf.findNestedChildByClassName(bar, BACK_BUTTON_CLASSES)
  }

  /** The clicks `goBack` performs: the back button's, when there is one. */
  function BackClicks(root: Node, pf: Platform): (r: seq<Node>)
    ensures |r| <= 1
    ensures r == [] <==> FindBackButton(root, pf).None?
    ensures FindBackButton(root, pf).Some? ==> r == [FindBackButton(root, pf).value]
  {
    match FindBackButton(root, pf)
    case Some(b) => [b]
    case None => []
  }

  /** The clear-cache candidates after `updateLocaleText`: the live text, if any, then the fixed literal. */
  function ClearCacheCandidates(live: Option<string>): (r: seq<string>)
    ensures |r| >= 1 && r[|r| - 1] == CLEAR_CACHE_FALLBACK
    ensures live.None? ==> r == [CLEAR_CACHE_FALLBACK]
    ensures live.Some? ==> |r| == 2 && r[0] == live.value
  {
    (if live.Some? then [live.value] else []) + [CLEAR_CACHE_FALLBACK]
  }

  /** The storage candidates after `updateLocaleText`: the live text, if any, then the two fixed literals. */
  function StorageCandidates(live: Option<string>): (r: seq<string>)
    ensures |r| >= 2 && r[|r| - 2] == STORAGE_SETTINGS_FALLBACK && r[|r| - 1] == STORAGE_LABEL_FALLBACK
    ensures live.None? ==> |r| == 2
    ensures live.Some? ==> |r| == 3 && r[0] == live.value
  {
    (if live.Some? then [live.value] else []) + [STORAGE_SETTINGS_FALLBACK, STORAGE_LABEL_FALLBACK]
  }

  /**
   * What one accessibility event makes the service do: the nodes it clicks,
   * in order, whether it goes back (which marks the target's step done) and
   * whether it opens the gate.
   */
  datatype Reaction = Reaction(clicks: seq<Node>, wentBack: bool, openedGate: bool)

  const NoReaction := Reaction([], false, false)

  /** The event is one the service acts on: a window-state change with a source node. */
  predicate IsWindowChange(event: Event) {
    event.eventType == TYPE_WINDOW_STATE_CHANGED && event.source.Some?
  }

  /** `onAccessibilityEvent` as a decision over the `MainActivity` flags `f` and the event's tree. */
  function React(f: Flags, clearCacheTexts: seq<string>, storageTexts: seq<string>, event: Event, pf: Platform): Reaction {
    if f.cleanCacheFinished || !IsWindowChange(event) then NoReaction
    else
      var root := event.source.value;
      if f.cleanAppCacheFinished then Reaction(BackClicks(root, pf), true, true)
      else
        match FindClearCacheButton(root, clearCacheTexts, pf)
        case Some(button) =>
          Reaction((if button.enabled then [button] else []) + BackClicks(root, pf), true, false)
        case None =>
          match FindStorageAndCacheMenu(root, storageTexts, pf)
          case Some(menu) =>
            if menu.enabled then Reaction([menu], false, false)
            else Reaction(BackClicks(root, pf), true, true)
          case None => Reaction(BackClicks(root, pf), true, true)
  }

  /** The flags after a reaction: going back sets `cleanAppCacheFinished`; the gate only ever opens. */
  function AfterReaction(f: Flags, r: Reaction): Flags {
    f.(cleanAppCacheFinished := f.cleanAppCacheFinished || r.wentBack,
       gateOpen := f.gateOpen || r.openedGate)
  }

  /** The accessibility-button callback: ignored outside a run, otherwise interrupt and open the gate. */
  function AfterButtonClicked(f: Flags): (g: Flags)
    ensures f.cleanCacheFinished ==> g == f
    ensures !f.cleanCacheFinished ==> g.cleanCacheInterrupt && g.gateOpen
    ensures g.cleanAppCacheFinished == f.cleanAppCacheFinished && g.cleanCacheFinished == f.cleanCacheFinished
    ensures g.loadingPkgList == f.loadingPkgList
  {
    if f.cleanCacheFinished then f
    else f.(cleanCacheInterrupt := true, gateOpen := true)
  }

  /** Outside a run, for any other event type, or without a source node, an event changes nothing. */
  lemma EventIgnoredOutsideWindowChangesOfARun(f: Flags, ct: seq<string>, st: seq<string>, event: Event, pf: Platform)
    requires f.cleanCacheFinished || event.eventType != TYPE_WINDOW_STATE_CHANGED || event.source.None?
    ensures React(f, ct, st, event, pf) == NoReaction
    ensures AfterReaction(f, React(f, ct, st, event, pf)) == f
  {
  }

  /** Once the target's step is done, every window change goes back and opens the gate, and clicks nothing else. */
  lemma StepDoneGoesBackAndOpensGate(f: Flags, ct: seq<string>, st: seq<string>, event: Event, pf: Platform)
    requires !f.cleanCacheFinished && IsWindowChange(event) && f.cleanAppCacheFinished
    ensures React(f, ct, st, event, pf) == Reaction(BackClicks(event.source.value, pf), true, true)
  {
  }

  /**
   * When the tree holds a clear-cache button, the service takes the first one
   * in post-order, clicks it only if it is enabled, goes back, and does NOT
   * open the gate on this event.
   */
  lemma ClearCacheButtonFoundGoesBackWithoutOpening(
    f: Flags, ct: seq<string>, st: seq<string>, event: Event, pf: Platform, b: Node)
    requires !f.cleanCacheFinished && IsWindowChange(event) && !f.cleanAppCacheFinished
    requires b in PostOrder(event.source.value) && IsClearCacheButton(b, ct, pf)
    ensures var r := React(f, ct, st, event, pf);
      && r.wentBack && !r.openedGate
      && exists m :: IsFirstIn(PostOrder(event.source.value), ClearCacheButtonTest(ct, pf), m) &&
           r.clicks == (if m.enabled then [m] else []) + BackClicks(event.source.value, pf)
  {
    var root := event.source.value;
    FindClearCacheButtonIsFirstMatch(root, ct, pf);
    var m := FindClearCacheButton(root, ct, pf).value;
    assert IsFirstIn(PostOrder(root), ClearCacheButtonTest(ct, pf), m);
  }

  /**
   * When the tree has no clear-cache button but a storage menu, the service
   * takes the first menu in post-order: an enabled one is clicked and nothing
   * else happens; a disabled one makes the service go back and open the gate.
   */
  lemma StorageMenuFoundClicksOrGivesUp(
    f: Flags, ct: seq<string>, st: seq<string>, event: Event, pf: Platform, s: Node)
    requires !f.cleanCacheFinished && IsWindowChange(event) && !f.cleanAppCacheFinished
    requires forall m :: m in PostOrder(event.source.value) ==> !IsClearCacheButton(m, ct, pf)
    requires s in PostOrder(event.source.value) && IsStorageAndCacheMenu(s, st, pf)
    ensures var r := React(f, ct, st, event, pf);
      exists m :: IsFirstIn(PostOrder(event.source.value), StorageAndCacheMenuTest(st, pf), m) &&
        r == if m.enabled then Reaction([m], false, false)
             else Reaction(BackClicks(event.source.value, pf), true, true)
  {
    var root := event.source.value;
    FindClearCacheButtonIsFirstMatch(root, ct, pf);
    FindStorageAndCacheMenuIsFirstMatch(root, st, pf);
    var m := FindStorageAndCacheMenu(root, st, pf).value;
    assert IsFirstIn(PostOrder(root), StorageAndCacheMenuTest(st, pf), m);
  }

  /** When the tree has neither a clear-cache button nor a storage menu, the service goes back and opens the gate. */
  lemma NothingFoundGoesBackAndOpensGate(f: Flags, ct: seq<string>, st: seq<string>, event: Event, pf: Platform)
    requires !f.cleanCacheFinished && IsWindowChange(event) && !f.cleanAppCacheFinished
    requires forall m :: m in PostOrder(event.source.value) ==> !IsClearCacheButton(m, ct, pf)
    requires forall m :: m in PostOrder(event.source.value) ==> !IsStorageAndCacheMenu(m, st, pf)
    ensures React(f, ct, st, event, pf) == Reaction(BackClicks(event.source.value, pf), true, true)
  {
    FindClearCacheButtonIsFirstMatch(event.source.value, ct, pf);
    FindStorageAndCacheMenuIsFirstMatch(event.source.value, st, pf);
  }

  /**
   * Every node the service clicks on its own account (all but the back
   * button) is an enabled node of the event's tree: the clear-cache button
   * or the storage menu. The gate is opened only together with going back.
   */
  lemma ReactionClicksOnlyEnabledTreeNodes(f: Flags, ct: seq<string>, st: seq<string>, event: Event, pf: Platform)
    ensures var r := React(f, ct, st, event, pf);
      && (r.openedGate ==> r.wentBack)
      && (r != NoReaction ==> !f.cleanCacheFinished && IsWindowChange(event))
      && (r.clicks != [] && !r.wentBack ==>
            |r.clicks| == 1 && r.clicks[0].enabled && r.clicks[0] in PostOrder(event.source.value) &&
            IsStorageAndCacheMenu(r.clicks[0], st, pf))
      && (r.wentBack && !r.openedGate ==>
            exists b :: b in PostOrder(event.source.value) && IsClearCacheButton(b, ct, pf) &&
              r.clicks == (if b.enabled then [b] else []) + BackClicks(event.source.value, pf))
  {
    var r := React(f, ct, st, event, pf);
    if !f.cleanCacheFinished && IsWindowChange(event) && !f.cleanAppCacheFinished {
      var root := event.source.value;
      FindClearCacheButtonIsFirstMatch(root, ct, pf);
      FindStorageAndCacheMenuIsFirstMatch(root, st, pf);
      var button := FindClearCacheButton(root, ct, pf);
      if button.Some? {
        var s := PostOrder(root);
        var k :| 0 <= k < |s| && s[k] == button.value && ClearCacheButtonTest(ct, pf)(button.value) &&
                 forall j :: 0 <= j < k ==> !ClearCacheButtonTest(ct, pf)(s[j]);
        assert button.value in s;
      } else {
        var menu := FindStorageAndCacheMenu(root, st, pf);
        if menu.Some? {
          var s := PostOrder(root);
          var k :| 0 <= k < |s| && s[k] == menu.value && StorageAndCacheMenuTest(st, pf)(menu.value) &&
                   forall j :: 0 <= j < k ==> !StorageAndCacheMenuTest(st, pf)(s[j]);
          assert menu.value in s;
        }
      }
    }
  }

  /** The flags after the service has reacted to each event of `events` in turn. */
  function Replay(f: Flags, ct: seq<string>, st: seq<string>, events: seq<Event>, pf: Platform): Flags
    decreases |events|
  {
    if events == [] then f
    else Replay(AfterReaction(f, React(f, ct, st, events[0], pf)), ct, st, events[1..], pf)
  }

  /**
   * Accessibility events never end a run, never interrupt it and never touch
   * `loadingPkgList`; a done step stays done, and an open gate stays open
   * (nothing closes it).
   */
  lemma {:induction false} EventsOnlyAdvanceStepAndGate(
    f: Flags, ct: seq<string>, st: seq<string>, events: seq<Event>, pf: Platform)
    ensures var g := Replay(f, ct, st, events, pf);
      && g.cleanCacheFinished == f.cleanCacheFinished
      && g.cleanCacheInterrupt == f.cleanCacheInterrupt
      && g.loadingPkgList == f.loadingPkgList
      && (f.cleanAppCacheFinished ==> g.cleanAppCacheFinished)
      && (f.gateOpen ==> g.gateOpen)
    decreases |events|
  {
    if events != [] {
      EventsOnlyAdvanceStepAndGate(AfterReaction(f, React(f, ct, st, events[0], pf)), ct, st, events[1..], pf);
    }
  }

  /**
   * While its record says no run is in progress, the service does nothing:
   * no sequence of events and no press of the button changes the record.
   * `MainActivity`'s record starts that way (`InitialFlags`) and no code in
   * MainActivity.kt, ListActivity.kt or AppCacheCleanerService2.kt clears its
   * `cleanCacheFinished`, so as written the service
   * never acts.
   */
  lemma {:induction false} ServiceIdleWhileNoRun(
    f: Flags, ct: seq<string>, st: seq<string>, events: seq<Event>, pf: Platform)
    requires f.cleanCacheFinished
    ensures Replay(f, ct, st, events, pf) == f
    ensures AfterButtonClicked(f) == f
    decreases |events|
  {
    if events != [] {
      ServiceIdleWhileNoRun(f, ct, st, events[1..], pf);
    }
  }

  /**
   * During a run, once the target's step is done, any later window change
   * opens the gate: the sequencer's waiter is always released by the next
   * screen change.
   */
  lemma {:induction false} StepDoneThenNextWindowChangeOpensGate(
    f: Flags, ct: seq<string>, st: seq<string>, events: seq<Event>, pf: Platform, i: nat)
    requires !f.cleanCacheFinished && f.cleanAppCacheFinished
    requires i < |events| && IsWindowChange(events[i])
    ensures Replay(f, ct, st, events, pf).gateOpen
    decreases |events|
  {
    var g := AfterReaction(f, React(f, ct, st, events[0], pf));
    if i == 0 {
      EventsOnlyAdvanceStepAndGate(g, ct, st, events[1..], pf);
    } else {
      assert events[1..][i - 1] == events[i];
      StepDoneThenNextWindowChangeOpensGate(g, ct, st, events[1..], pf, i - 1);
    }
  }

  /**
   * A target whose storage menu leads to an enabled clear-cache button: the
   * first window change clicks the menu, the second clicks the button and
   * goes back without opening the gate, and only the third opens it.
   */
  lemma MenuThenButtonScenario()
    ensures
      var pf := Platform((n: Node, t: string) => n.text == Some(t), (n: Node, id: string) => [],
                         (n: Node, cs: seq<string>) => None);
      var menu := Node(Some(TITLE_ID), Some(STORAGE_LABEL_FALLBACK), true, None, []);
      var button := Node(Some(PatternInstance('.', '.', "", "2")), Some(CLEAR_CACHE_FALLBACK), true, None, []);
      var screen1 := Event(TYPE_WINDOW_STATE_CHANGED, Some(Node(None, None, true, None, [menu])));
      var screen2 := Event(TYPE_WINDOW_STATE_CHANGED, Some(Node(None, None, true, None, [button])));
      var screen3 := Event(TYPE_WINDOW_STATE_CHANGED, Some(Node(None, None, true, None, [])));
      var ct, st := ClearCacheCandidates(None), StorageCandidates(None);
      var f0 := InitialFlags.(cleanCacheFinished := false);
      var r1 := React(f0, ct, st, screen1, pf);
      var f1 := AfterReaction(f0, r1);
      var r2 := React(f1, ct, st, screen2, pf);
      var f2 := AfterReaction(f1, r2);
      var r3 := React(f2, ct, st, screen3, pf);
      && r1 == Reaction([menu], false, false) && f1 == f0
      && r2 == Reaction([button], true, false) && f2.cleanAppCacheFinished && !f2.gateOpen
      && r3 == Reaction([], true, true) && AfterReaction(f2, r3).gateOpen
  {
    var pf := Platform((n: Node, t: string) => n.text == Some(t), (n: Node, id: string) => [],
                       (n: Node, cs: seq<string>) => None);
    var menu := Node(Some(TITLE_ID), Some(STORAGE_LABEL_FALLBACK), true, None, []);
    var id := PatternInstance('.', '.', "", "2");
    var button := Node(Some(id), Some(CLEAR_CACHE_FALLBACK), true, None, []);
    var ct, st := ClearCacheCandidates(None), StorageCandidates(None);
    var root1 := Node(None, None, true, None, [menu]);
    var root2 := Node(None, None, true, None, [button]);
    assert MatchesButtonId(id) by {
      MatchesButtonIdIsFullMatch(id);
      assert NoLineTerminator("") && NoLineTerminator("2");
    }
    assert !IsClearCacheButton(menu, ct, pf);
    assert IsStorageAndCacheMenu(menu, st, pf) by { assert pf.lowercaseCompareText(menu, st[1]); }
    assert IsClearCacheButton(button, ct, pf) by { assert pf.lowercaseCompareText(button, ct[0]); }
    assert FindFirstIn([], ClearCacheButtonTest(ct, pf)) == None;
    assert FindFirst(menu, ClearCacheButtonTest(ct, pf)) == None;
    assert FindFirstIn([menu], ClearCacheButtonTest(ct, pf)) == None;
    assert FindClearCacheButton(root1, ct, pf) == None;
    assert FindFirstIn([], StorageAndCacheMenuTest(st, pf)) == None;
    assert FindFirst(menu, StorageAndCacheMenuTest(st, pf)) == Some(menu);
    assert FindFirstIn([menu], StorageAndCacheMenuTest(st, pf)) == Some(menu);
    assert FindStorageAndCacheMenu(root1, st, pf) == Some(menu);
    assert FindFirst(button, ClearCacheButtonTest(ct, pf)) == Some(button);
    assert FindFirstIn([button], ClearCacheButtonTest(ct, pf)) == Some(button);
    assert FindClearCacheButton(root2, ct, pf) == Some(button);
  }

  /** A broadcast delivered to `mLocalReceiver`: its action and its string extras. */
  datatype Intent = Intent(action: Option<string>, extras: map<string, string>)

  /** `intent.getStringExtra(key)`. */
  function StringExtra(intent: Intent, key: string): Option<string> {
    if key in intent.extras then Some(intent.extras[key]) else None
  }

  /** What `mLocalReceiver` did with a broadcast. */
  datatype ReceiverEffect =
    | Ignored
    | SelfDisabled(buttonUnregistered: bool)
    | SearchTextsUpdated

  const SDK_N := 24
  const SDK_O := 26

  /**
   * The companion object's two candidate lists. They are static in the
   * source, so one `CleanerService` object stands for all service instances.
   */
  class CleanerService {
    var clearCacheTexts: seq<string>
    var storageTexts: seq<string>

    /** `onCreate`: seeds both lists with `updateLocaleText(null, null)`. */
    constructor ()
      ensures clearCacheTexts == [CLEAR_CACHE_FALLBACK]
      ensures storageTexts == [STORAGE_SETTINGS_FALLBACK, STORAGE_LABEL_FALLBACK]
    {
      clearCacheTexts := [];
      storageTexts := [];
      new;
      UpdateLocaleText(None, None);
    }

    /**
     * `updateLocaleText`: clears both lists and rebuilds them from the
     * arguments. Nothing of the old lists survives, so a second call with
     * the same arguments changes nothing.
     */
    method UpdateLocaleText(clearCacheText: Option<string>, storageText: Option<string>)
      modifies this
      ensures clearCacheTexts == ClearCacheCandidates(clearCacheText)
      ensures storageTexts == StorageCandidates(storageText)
    {
      clearCacheTexts := [];
      if clearCacheText.Some? {
        clearCacheTexts := clearCacheTexts + [clearCacheText.value];
      }
      clearCacheTexts := clearCacheTexts + [CLEAR_CACHE_FALLBACK];

      storageTexts := [];
      if storageText.Some? {
        storageTexts := storageTexts + [storageText.value];
      }
      storageTexts := storageTexts + [STORAGE_SETTINGS_FALLBACK];
      storageTexts := storageTexts + [STORAGE_LABEL_FALLBACK];
    }

    /**
     * `mLocalReceiver.onReceive`: "disableSelf" turns the service off from
     * Android N on (unregistering the button first from O on);
     * "addExtraSearchText" rebuilds the candidate lists from the extras
     * "clear_cache" and "storage"; anything else is ignored.
     */
    method OnReceive(intent: Option<Intent>, sdk: int) returns (effect: ReceiverEffect)
      modifies this
      ensures intent.Some? && intent.value.action == Some("addExtraSearchText") ==>
        && effect == SearchTextsUpdated
        && clearCacheTexts == ClearCacheCandidates(StringExtra(intent.value, "clear_cache"))
        && storageTexts == StorageCandidates(StringExtra(intent.value, "storage"))
      ensures !(intent.Some? && intent.value.action == Some("addExtraSearchText")) ==>
        clearCacheTexts == old(clearCacheTexts) && storageTexts == old(storageTexts)
      ensures effect.SelfDisabled? <==> intent.Some? && intent.value.action == Some("disableSelf") && sdk >= SDK_N
      ensures effect.SelfDisabled? ==> effect.buttonUnregistered == (sdk >= SDK_O)
      ensures effect == SearchTextsUpdated <==> intent.Some? && intent.value.action == Some("addExtraSearchText")
      ensures effect == Ignored <==> !effect.SelfDisabled? && effect != SearchTextsUpdated
    {
      effect := Ignored;
      if intent.None? || intent.value.action.None? {
        return;
      }
      var action := intent.value.action.value;
      if action == "disableSelf" {
        if sdk < SDK_N {
          return;
        }
        effect := SelfDisabled(sdk >= SDK_O);
      } else if action == "addExtraSearchText" {
        UpdateLocaleText(StringExtra(intent.value, "clear_cache"), StringExtra(intent.value, "storage"));
        effect := SearchTextsUpdated;
      }
    }

    /**
     * `goBack`: clicks the back button when there is one, and marks the
     * target's step done in every case, whatever the click answered.
     */
    method GoBack(flags: SharedFlags, root: Node, pf: Platform, performClick: Node -> ClickResult)
      returns (clicks: seq<Node>)
      modifies flags
      ensures clicks == BackClicks(root, pf)
      ensures flags.cleanAppCacheFinished
      ensures flags.loadingPkgList == old(flags.loadingPkgList)
      ensures flags.cleanCacheFinished == old(flags.cleanCacheFinished)
      ensures flags.cleanCacheInterrupt == old(flags.cleanCacheInterrupt)
    {
      clicks := [];
      var backButton := FindBackButton(root, pf);
      if backButton.Some? {
        // The click's answer is only logged.
        var answer := performClick(backButton.value);
        clicks := [backButton.value];
      }
      flags.cleanAppCacheFinished := true;
    }

    /** `onAccessibilityEvent`, acting on `MainActivity`'s flags and gate. */
    method OnAccessibilityEvent(flags: SharedFlags, event: Event, pf: Platform, performClick: Node -> ClickResult)
      returns (clicks: seq<Node>)
      modifies flags, flags.waitAccessibility
      ensures var r := React(old(flags.Snapshot()), clearCacheTexts, storageTexts, event, pf);
        clicks == r.clicks && flags.Snapshot() == AfterReaction(old(flags.Snapshot()), r)
    {
      clicks := [];
      if flags.cleanCacheFinished {
        return;
      }
      if event.eventType != TYPE_WINDOW_STATE_CHANGED {
        return;
      }
      if event.source.None? {
        return;
      }
      var root := event.source.value;

      if flags.cleanAppCacheFinished {
        clicks := GoBack(flags, root, pf, performClick);
        flags.waitAccessibility.Open();
      } else {
        var clearCacheButton := FindClearCacheButton(root, clearCacheTexts, pf);
        if clearCacheButton.Some? {
          if clearCacheButton.value.enabled {
            // The click's answer is only logged.
            var answer := performClick(clearCacheButton.value);
            clicks := [clearCacheButton.value];
          }
          var back := GoBack(flags, root, pf, performClick);
          clicks := clicks + back;
          return;
        }

        var storageAndCacheMenu := FindStorageAndCacheMenu(root, storageTexts, pf);
        if storageAndCacheMenu.Some? {
          if storageAndCacheMenu.value.enabled {
            // The click's answer is only logged.
            var answer := performClick(storageAndCacheMenu.value);
            clicks := [storageAndCacheMenu.value];
          } else {
            clicks := GoBack(flags, root, pf, performClick);
            flags.waitAccessibility.Open();
          }
          return;
        }

        clicks := GoBack(flags, root, pf, performClick);
        flags.waitAccessibility.Open();
      }
    }

    /**
     * The accessibility button's `onClicked`: outside a run it does nothing;
     * during one it sets `MainActivity`'s interrupt flag and opens its gate.
     */
    method OnAccessibilityButtonClicked(flags: SharedFlags)
      modifies flags, flags.waitAccessibility
      ensures flags.Snapshot() == AfterButtonClicked(old(flags.Snapshot()))
    {
      if flags.cleanCacheFinished {
        return;
      }
      flags.cleanCacheInterrupt := true;
      flags.waitAccessibility.Open();
    }
  }
}
