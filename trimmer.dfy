/**
 * The chat trimmer mixed into the chat box views overview: width accounting,
 * the choice of the oldest maximized chat and the trimming loop that
 * minimizes chats until the open ones fit the page.
 *
 * DOM measurement is given: every view carries whether its element is
 * visible and its outer width (margins included), and `Layout` carries the
 * outer widths of the page body, of the minimized-chats tray and of the
 * control box toggle.
 */
module ChatTrimmer {
  import opened Wrappers
  import opened ChatBoxes

  /** A chat box view: its model, and the visibility and outer width of its element. */
  datatype ChatBoxView = ChatBoxView(model: ChatBox, visible: bool, outerWidth: nat)

  /** Outer widths measured on the page. */
  datatype Layout = Layout(bodyWidth: nat, trayWidth: nat, toggleWidth: nat)

  /** The settings trimming consults. */
  datatype Settings = Settings(noTrimming: bool, viewMode: ViewMode)

  /** Which exit `TrimChats` took. */
  datatype TrimOutcome =
    | Disabled          // trimming switched off, not connected, or not overlayed
    | NothingToTrim     // at most one chat is shown
    | FullscreenLayout  // the first shown chat is as wide as the page
    | NoTray            // the minimized-chats tray has no element yet
    | Fits              // the loop ended with everything fitting
    | CannotTrim        // the loop stopped: nothing left that may be minimized

  /** The models the views show: what the width functions read. */
  function Models(views: seq<ChatBoxView>): set<ChatBox> {
    set v | v in views :: v.model
  }

  /** Whether the views are keyed by distinct ids, as a keyed overview is. */
  predicate DistinctIds(views: seq<ChatBoxView>) {
    forall i, j :: 0 <= i < j < |views| ==> views[i].model.id != views[j].model.id
  }

  /** The id of the chat being inserted, `null` in the source when there is none. */
  function NewId(newchat: Option<ChatBoxView>): Option<string> {
    if newchat.Some? then Some(newchat.value.model.id) else None
  }

  /** The exclusion list the loop passes (`[new_id]`); a `null` entry matches no id and is left out. */
  function NewIdList(newchat: Option<ChatBoxView>): (ids: seq<string>)
    ensures forall id :: id in ids <==> NewId(newchat) == Some(id)
  {
    if newchat.Some? then [newchat.value.model.id] else []
  }

  /** The view registered under `id`, as `get(id)` of the overview. */
  function FindView(views: seq<ChatBoxView>, id: string): (r: Option<ChatBoxView>)
    ensures r.Some? ==> r.value in views && r.value.model.id == id
    ensures r.None? ==> forall v :: v in views ==> v.model.id != id
  {
    if views == [] then None
    else if views[0].model.id == id then Some(views[0])
    else FindView(views[1..], id)
  }

  /** The width taken by the control box: its own, or its toggle's when it is absent or hidden. */
  function ControlboxWidth(views: seq<ChatBoxView>, layout: Layout): (w: nat)
    ensures (forall v :: v in views ==> v.model.id != ControlboxId) ==> w == layout.toggleWidth
    ensures forall v :: v in views && v.model.id == ControlboxId && v.visible && DistinctIds(views) ==> w == v.outerWidth
    ensures forall v :: v in views && v.model.id == ControlboxId && !v.visible && DistinctIds(views) ==> w == layout.toggleWidth
  {
    match FindView(views, ControlboxId)
    case None => layout.toggleWidth
    case Some(c) =>
      assert DistinctIds(views) ==> forall v :: v in views && v.model.id == ControlboxId ==> v == c by {
        if DistinctIds(views) {
          forall v | v in views && v.model.id == ControlboxId ensures v == c {
            var i :| 0 <= i < |views| && views[i] == v;
            var j :| 0 <= j < |views| && views[j] == c;
            assert i == j;
          }
        }
      }
      if !c.visible then layout.toggleWidth else c.outerWidth
  }

  /** `getChatBoxWidth`: the width a view takes on the page. */
  function ChatBoxWidth(v: ChatBoxView, views: seq<ChatBoxView>, layout: Layout): (w: nat)
    reads v.model
    ensures v.model.id == ControlboxId ==> w == ControlboxWidth(views, layout)
    ensures v.model.id != ControlboxId && (v.model.minimized || !v.visible) ==> w == 0
    ensures v.model.id != ControlboxId && !v.model.minimized && v.visible ==> w == v.outerWidth
  {
    if v.model.id == ControlboxId then ControlboxWidth(views, layout)
    else if !v.model.minimized && v.visible then v.outerWidth
    else 0
  }

  /** The summed width of the views whose id is not `excluded`; `all` is the whole overview. */
  function SumWidths(vs: seq<ChatBoxView>, all: seq<ChatBoxView>, excluded: Option<string>, layout: Layout): nat
    reads Models(vs)
  {
    if vs == [] then 0
    else
      (if excluded == Some(vs[0].model.id) then 0 else ChatBoxWidth(vs[0], all, layout))
      + SumWidths(vs[1..], all, excluded, layout)
  }

  /** The measured width of the chat being inserted, 0 when there is none. */
  function NewChatWidth(newchat: Option<ChatBoxView>): nat {
    if newchat.Some? then newchat.value.outerWidth else 0
  }

  /** `getBoxesWidth`: the new chat's measured width plus the width of every other view. */
  function BoxesWidth(views: seq<ChatBoxView>, newchat: Option<ChatBoxView>, layout: Layout): (w: nat)
    reads Models(views)
    ensures w >= NewChatWidth(newchat)
  {
    NewChatWidth(newchat) + SumWidths(views, views, NewId(newchat), layout)
  }

  /** Whether a box counts as minimized by `pluck('minimized').includes(true)`. */
  predicate AnyMinimized(boxes: seq<ChatBox>)
    reads boxes
  {
    exists b :: b in boxes && b.minimized
  }

  /** `getMinimizedWidth`: the tray's width, paid only while some box is minimized. */
  function MinimizedWidth(boxes: seq<ChatBox>, layout: Layout): (w: nat)
    reads boxes
    ensures !AnyMinimized(boxes) ==> w == 0
    ensures AnyMinimized(boxes) ==> w == layout.trayWidth
  {
    if AnyMinimized(boxes) then layout.trayWidth else 0
  }

  /** A view is shown when its model is neither minimized nor closed and its element is visible. */
  predicate Shown(v: ChatBoxView)
    reads v.model
  {
    !v.model.minimized && !v.model.closed && v.visible
  }

  /** `getShownChats`: the shown views, in overview order. */
  function ShownChats(views: seq<ChatBoxView>): (r: seq<ChatBoxView>)
    reads Models(views)
    ensures |r| <= |views|
    ensures forall i :: 0 <= i < |r| ==> r[i] in views && Shown(r[i])
    ensures forall v :: v in views && Shown(v) ==> v in r
  {
    if views == [] then []
    else (if Shown(views[0]) then [views[0]] else []) + ShownChats(views[1..])
  }

  /** Filtering distributes over concatenation: the shown views of `a + b`
      are those of `a` followed by those of `b`, so the result keeps the
      overview's order. */
  lemma {:induction false} ShownChatsAppend(a: seq<ChatBoxView>, b: seq<ChatBoxView>)
    ensures ShownChats(a + b) == ShownChats(a) + ShownChats(b)
  {
    if a == [] {
      assert a + b == b;
    } else {
      assert (a + b)[0] == a[0];
      assert (a + b)[1..] == a[1..] + b;
      ShownChatsAppend(a[1..], b);
    }
  }

  /** A shown view occurs in the result as often as in the overview, any
      other view not at all. */
  lemma {:induction false} ShownChatsMultiplicity(views: seq<ChatBoxView>, v: ChatBoxView)
    ensures multiset(ShownChats(views))[v] == if Shown(v) then multiset(views)[v] else 0
  {
    if views != [] {
      assert views == [views[0]] + views[1..];
      ShownChatsMultiplicity(views[1..], v);
    }
  }

  /** The first result is the first shown view of the overview. */
  lemma {:induction false} ShownChatsFirst(views: seq<ChatBoxView>)
    requires ShownChats(views) != []
    ensures exists k :: 0 <= k < |views| && views[k] == ShownChats(views)[0] && Shown(views[k])
                        && forall j :: 0 <= j < k ==> !Shown(views[j])
  {
    if Shown(views[0]) {
      assert views[0] == ShownChats(views)[0];
    } else {
      ShownChatsFirst(views[1..]);
      var k :| 0 <= k < |views| - 1 && views[1..][k] == ShownChats(views[1..])[0] && Shown(views[1..][k])
               && forall j :: 0 <= j < k ==> !Shown(views[1..][j]);
      assert views[k + 1] == ShownChats(views)[0];
      forall j | 0 <= j < k + 1 ensures !Shown(views[j]) {
        if j > 0 { assert views[j] == views[1..][j - 1]; }
      }
    }
  }

  /** A box the trimmer may minimize: not excluded (the control box is always
      excluded by the time this is asked) and not already minimized. */
  predicate Eligible(b: ChatBox, excludeIds: seq<string>)
    reads b
  {
    b.id !in excludeIds && !b.minimized
  }

  /** No box of the collection may be minimized any more. */
  predicate NoneEligible(boxes: seq<ChatBox>, excludeIds: seq<string>)
    reads boxes
  {
    forall b :: b in boxes ==> !Eligible(b, excludeIds)
  }

  /** The `minimized` flags of the collection, position by position. */
  function MinimizedFlags(boxes: seq<ChatBox>): (r: seq<bool>)
    reads boxes
    ensures |r| == |boxes| && forall i :: 0 <= i < |boxes| ==> r[i] == boxes[i].minimized
  {
    seq(|boxes|, i reads boxes requires 0 <= i < |boxes| => boxes[i].minimized)
  }

  /** Which positions of the collection carry an excluded id. */
  function ExcludedFlags(boxes: seq<ChatBox>, excludeIds: seq<string>): (r: seq<bool>)
    ensures |r| == |boxes| && forall i :: 0 <= i < |boxes| ==> r[i] == (boxes[i].id in excludeIds)
  {
    seq(|boxes|, i requires 0 <= i < |boxes| => boxes[i].id in excludeIds)
  }

  /** The `time_minimized` attributes of the collection, position by position. */
  function MinimizedTimes(boxes: seq<ChatBox>): (r: seq<Option<Time>>)
    reads boxes
    ensures |r| == |boxes| && forall i :: 0 <= i < |boxes| ==> r[i] == boxes[i].timeMinimized
  {
    seq(|boxes|, i reads boxes requires 0 <= i < |boxes| => boxes[i].timeMinimized)
  }

  /** What trimming may do to the collection, position by position, from the
      flags and times `flags0`/`times0` to `flags`/`times`: no box is
      maximized; a box newly minimized is not excluded and was minimized at
      `now`; a box whose flag is unchanged keeps its time; and the boxes are
      taken oldest first, so a box is minimized only once every older box that
      is not excluded is minimized too. */
  predicate TrimmedOldestFirst(flags0: seq<bool>, times0: seq<Option<Time>>, excluded: seq<bool>, now: Time,
                               flags: seq<bool>, times: seq<Option<Time>>)
  {
    |flags0| == |times0| == |excluded| == |flags| == |times| &&
    (forall i :: 0 <= i < |flags| && flags0[i] ==> flags[i]) &&
    (forall i :: 0 <= i < |flags| && !flags0[i] && flags[i] ==> !excluded[i] && times[i] == Some(now)) &&
    (forall i :: 0 <= i < |flags| && flags[i] == flags0[i] ==> times[i] == times0[i]) &&
    (forall i, j :: 0 <= i < j < |flags| && !flags0[j] && flags[j] && !excluded[i] ==> flags[i])
  }

  /** Before the first round nothing has been trimmed. */
  lemma TrimmedNothing(flags0: seq<bool>, times0: seq<Option<Time>>, excluded: seq<bool>, now: Time)
    requires |flags0| == |times0| == |excluded|
    ensures TrimmedOldestFirst(flags0, times0, excluded, now, flags0, times0)
  {
  }

  /** Minimizing, at `now`, the first box that is neither minimized nor
      excluded keeps the trimming oldest first. */
  lemma TrimmedStep(flags0: seq<bool>, times0: seq<Option<Time>>, excluded: seq<bool>, now: Time,
                    flags: seq<bool>, times: seq<Option<Time>>, k: nat)
    requires TrimmedOldestFirst(flags0, times0, excluded, now, flags, times)
    requires k < |flags| && !flags[k] && !excluded[k]
    requires forall j :: 0 <= j < k ==> flags[j] || excluded[j]
    ensures TrimmedOldestFirst(flags0, times0, excluded, now, flags[k := true], times[k := Some(now)])
  {
  }

  /** The positions still open to trimming: neither minimized nor excluded. */
  function Candidates(flags: seq<bool>, excluded: seq<bool>): set<int> {
    set i | 0 <= i < |flags| && i < |excluded| && !flags[i] && !excluded[i]
  }

  /** Minimizing a candidate takes it out of the candidates and adds none. */
  lemma CandidatesShrink(flags: seq<bool>, excluded: seq<bool>, k: nat)
    requires k < |flags| == |excluded| && !flags[k] && !excluded[k]
    ensures Candidates(flags[k := true], excluded) < Candidates(flags, excluded)
  {
    assert k in Candidates(flags, excluded) - Candidates(flags[k := true], excluded);
  }

  /** `getOldestMaximizedChat`: the first box of the sorted collection that is
      neither excluded, nor the control box, nor minimized. The source appends
      'controlbox' to the caller's list in place; the extended list is returned. */
  method GetOldestMaximizedChat(boxes: seq<ChatBox>, exclude: seq<string>)
    returns (oldest: Option<ChatBox>, excludeIds: seq<string>)
    requires |boxes| > 0
    ensures excludeIds == exclude + [ControlboxId]
    ensures oldest.None? <==> NoneEligible(boxes, excludeIds)
    ensures oldest.Some? ==> oldest.value.id != ControlboxId && oldest.value.id !in exclude && !oldest.value.minimized
    ensures oldest.Some? ==> exists k :: 0 <= k < |boxes| && boxes[k] == oldest.value
                                         && forall j :: 0 <= j < k ==> !Eligible(boxes[j], excludeIds)
  {
    excludeIds := exclude + [ControlboxId];
    var i := 0;
    var model := boxes[i];
    while model.id in excludeIds || model.minimized
      invariant 0 <= i < |boxes| && model == boxes[i]
      invariant forall j :: 0 <= j < i ==> !Eligible(boxes[j], excludeIds)
      decreases |boxes| - i
    {
      i := i + 1;
      if i == |boxes| {
        // `this.model.at(i)` is undefined past the end
        forall b | b in boxes ensures !Eligible(b, excludeIds) {
          var j :| 0 <= j < |boxes| && boxes[j] == b;
        }
        return None, excludeIds;
      }
      model := boxes[i];
    }
    assert Eligible(boxes[i], excludeIds);
    oldest := Some(model);
  }

  /** The trimming guards that do not depend on the page. */
  predicate TrimmingEnabled(settings: Settings, connected: bool) {
    !settings.noTrimming && connected && settings.viewMode == Overlayed
  }

  /** Whether the open chats and the tray fit the page. */
  predicate FitsPage(views: seq<ChatBoxView>, boxes: seq<ChatBox>, newchat: Option<ChatBoxView>, layout: Layout)
    reads Models(views), boxes
  {
    MinimizedWidth(boxes, layout) + BoxesWidth(views, newchat, layout) <= layout.bodyWidth
  }

  /** A collection holds each box once. */
  predicate DistinctBoxes(boxes: seq<ChatBox>) {
    forall i, j :: 0 <= i < j < |boxes| ==> boxes[i] != boxes[j]
  }

  /** The boxes a flag sequence marks as minimized. */
  function MarkedBoxes(boxes: seq<ChatBox>, flags: seq<bool>): set<ChatBox> {
    set i | 0 <= i < |boxes| && i < |flags| && flags[i] :: boxes[i]
  }

  /** `getChatBoxWidth` when exactly the boxes of `marked` are minimized. */
  function ChatBoxWidthWith(v: ChatBoxView, views: seq<ChatBoxView>, layout: Layout, marked: set<ChatBox>): nat {
    if v.model.id == ControlboxId then ControlboxWidth(views, layout)
    else if v.model !in marked && v.visible then v.outerWidth
    else 0
  }

  /** `SumWidths` when exactly the boxes of `marked` are minimized. */
  function SumWidthsWith(vs: seq<ChatBoxView>, all: seq<ChatBoxView>, excluded: Option<string>, layout: Layout,
                         marked: set<ChatBox>): nat
  {
    if vs == [] then 0
    else
      (if excluded == Some(vs[0].model.id) then 0 else ChatBoxWidthWith(vs[0], all, layout, marked))
      + SumWidthsWith(vs[1..], all, excluded, layout, marked)
  }

  /** Whether the chats and the tray would fit the page if the `minimized`
      flags of the collection were `flags`. */
  predicate FitsWith(views: seq<ChatBoxView>, boxes: seq<ChatBox>, flags: seq<bool>, newchat: Option<ChatBoxView>,
                     layout: Layout)
  {
    (if true in flags then layout.trayWidth else 0)
    + NewChatWidth(newchat) + SumWidthsWith(views, views, NewId(newchat), layout, MarkedBoxes(boxes, flags))
    <= layout.bodyWidth
  }

  /** The widths read from the boxes are the widths computed from their flags. */
  lemma {:induction false} SumWidthsFlags(vs: seq<ChatBoxView>, all: seq<ChatBoxView>, excluded: Option<string>,
                                          layout: Layout, boxes: seq<ChatBox>)
    requires forall v :: v in vs ==> v.model in boxes
    ensures SumWidths(vs, all, excluded, layout)
            == SumWidthsWith(vs, all, excluded, layout, MarkedBoxes(boxes, MinimizedFlags(boxes)))
  {
    if vs != [] {
      var m := vs[0].model;
      var i :| 0 <= i < |boxes| && boxes[i] == m;
      assert m.minimized ==> m in MarkedBoxes(boxes, MinimizedFlags(boxes));
      SumWidthsFlags(vs[1..], all, excluded, layout, boxes);
    }
  }

  /** `FitsPage` is `FitsWith` on the current flags. */
  lemma FitsPageFlags(views: seq<ChatBoxView>, boxes: seq<ChatBox>, newchat: Option<ChatBoxView>, layout: Layout)
    requires forall v :: v in views ==> v.model in boxes
    ensures FitsPage(views, boxes, newchat, layout) == FitsWith(views, boxes, MinimizedFlags(boxes), newchat, layout)
  {
    SumWidthsFlags(views, views, NewId(newchat), layout, boxes);
    var flags := MinimizedFlags(boxes);
    if AnyMinimized(boxes) {
      var b :| b in boxes && b.minimized;
      var i :| 0 <= i < |boxes| && boxes[i] == b;
      assert flags[i];
    }
  }

  /** The flags just before the round that minimized position `p`: those on
      entry, plus the positions before `p` minimized since. Trimming goes
      oldest first, so these are the earlier rounds. */
  function FlagsBefore(flags0: seq<bool>, flags: seq<bool>, p: int): (r: seq<bool>)
    ensures |r| == |flags0|
  {
    seq(|flags0|, i requires 0 <= i < |flags0| => flags0[i] || (i < p && i < |flags| && flags[i]))
  }

  /** No more was minimized than needed: every box trimming minimized was
      minimized while the chats, with the boxes minimized before it, did not
      fit the page. */
  predicate OnlyWhileOverflowing(views: seq<ChatBoxView>, boxes: seq<ChatBox>, newchat: Option<ChatBoxView>,
                                 layout: Layout, flags0: seq<bool>, flags: seq<bool>)
  {
    forall p :: 0 <= p < |flags| && p < |flags0| && !flags0[p] && flags[p] ==>
                  !FitsWith(views, boxes, FlagsBefore(flags0, flags, p), newchat, layout)
  }

  /** Minimizing the first candidate position while the chats do not fit
      keeps every round justified. */
  lemma OnlyWhileOverflowingStep(views: seq<ChatBoxView>, boxes: seq<ChatBox>, newchat: Option<ChatBoxView>,
                                 layout: Layout, flags0: seq<bool>, times0: seq<Option<Time>>, excluded: seq<bool>,
                                 now: Time, flags: seq<bool>, times: seq<Option<Time>>, k: nat)
    requires TrimmedOldestFirst(flags0, times0, excluded, now, flags, times)
    requires OnlyWhileOverflowing(views, boxes, newchat, layout, flags0, flags)
    requires k < |flags| && !flags[k] && !excluded[k]
    requires !FitsWith(views, boxes, flags, newchat, layout)
    ensures OnlyWhileOverflowing(views, boxes, newchat, layout, flags0, flags[k := true])
  {
    var next := flags[k := true];
    forall p | 0 <= p < |next| && !flags0[p] && next[p]
      ensures !FitsWith(views, boxes, FlagsBefore(flags0, next, p), newchat, layout)
    {
      if p == k {
        forall i | 0 <= i < |flags| ensures FlagsBefore(flags0, next, k)[i] == flags[i] {
          if i > k && flags[i] && !flags0[i] {
            assert false;
          }
        }
        assert FlagsBefore(flags0, next, k) == flags;
      } else {
        assert p < k by {
          if p > k { assert false; }
        }
        assert FlagsBefore(flags0, next, p) == FlagsBefore(flags0, flags, p);
      }
    }
  }

  /** `trimChats`: after the guards, minimize the oldest eligible chat while
      the tray and the open chats are wider than the page. `connected` is the
      connection state, `trayPresent` whether the tray has its element. Only
      the `minimized` and `time_minimized` attributes of the boxes may change. */
  method TrimChats(views: seq<ChatBoxView>, boxes: seq<ChatBox>, newchat: Option<ChatBoxView>,
                   settings: Settings, connected: bool, trayPresent: bool, layout: Layout, now: Time)
    returns (outcome: TrimOutcome)
    requires DistinctBoxes(boxes)
    requires forall v :: v in views ==> v.model in boxes
    modifies boxes`minimized, boxes`timeMinimized
    ensures outcome == Disabled <==> !TrimmingEnabled(settings, connected)
    ensures outcome == NothingToTrim <==> TrimmingEnabled(settings, connected) && old(|ShownChats(views)| <= 1)
    ensures outcome == FullscreenLayout <==>
              TrimmingEnabled(settings, connected)
              && old(|ShownChats(views)| > 1 && ChatBoxWidth(ShownChats(views)[0], views, layout) == layout.bodyWidth)
    ensures outcome == NoTray <==>
              TrimmingEnabled(settings, connected)
              && old(|ShownChats(views)| > 1 && ChatBoxWidth(ShownChats(views)[0], views, layout) != layout.bodyWidth)
              && !trayPresent
    ensures outcome in {Disabled, NothingToTrim, FullscreenLayout, NoTray} ==> unchanged(boxes)
    ensures outcome == Fits ==> FitsPage(views, boxes, newchat, layout)
    ensures outcome == CannotTrim ==>
              !FitsPage(views, boxes, newchat, layout) && NoneEligible(boxes, NewIdList(newchat) + [ControlboxId])
    // nothing is trimmed when everything already fits
    ensures old(FitsPage(views, boxes, newchat, layout)) ==> unchanged(boxes)
    // only boxes that were eligible on entry are minimized, at `now`, oldest
    // first, and nothing is maximized
    ensures outcome in {Fits, CannotTrim} ==>
              TrimmedOldestFirst(old(MinimizedFlags(boxes)), old(MinimizedTimes(boxes)),
                                 ExcludedFlags(boxes, NewIdList(newchat) + [ControlboxId]), now,
                                 MinimizedFlags(boxes), MinimizedTimes(boxes))
    // no more than needed: each box was minimized while the chats did not fit
    ensures outcome in {Fits, CannotTrim} ==>
              OnlyWhileOverflowing(views, boxes, newchat, layout, old(MinimizedFlags(boxes)), MinimizedFlags(boxes))
  {
    if settings.noTrimming || !connected || settings.viewMode != Overlayed {
      return Disabled;
    }
    var shownChats := ShownChats(views);
    if |shownChats| <= 1 {
      return NothingToTrim;
    }
    if ChatBoxWidth(shownChats[0], views, layout) == layout.bodyWidth {
      // responsive mode: the chats are fullscreen
      return FullscreenLayout;
    }
    if !trayPresent {
      return NoTray;
    }
    assert shownChats[0] in views;
    var fits := MinimizeUntilFits(views, boxes, newchat, layout, now);
    outcome := if fits then Fits else CannotTrim;
  }

  /** One round of the loop of `trimChats`: `getOldestMaximizedChat([new_id])`,
      then `minimize` on the box found. Reports whether a box was found. The
      ghost parameters describe the collection when trimming began: a round
      keeps the trimming oldest first and leaves fewer candidates. */
  method MinimizeOldest(boxes: seq<ChatBox>, newIds: seq<string>, now: Time,
                        ghost flags0: seq<bool>, ghost times0: seq<Option<Time>>, ghost excluded: seq<bool>,
                        ghost views: seq<ChatBoxView>, ghost newchat: Option<ChatBoxView>, ghost layout: Layout)
    returns (found: bool)
    requires |boxes| > 0 && DistinctBoxes(boxes)
    requires excluded == ExcludedFlags(boxes, newIds + [ControlboxId])
    requires TrimmedOldestFirst(flags0, times0, excluded, now, MinimizedFlags(boxes), MinimizedTimes(boxes))
    requires OnlyWhileOverflowing(views, boxes, newchat, layout, flags0, MinimizedFlags(boxes))
    requires !FitsWith(views, boxes, MinimizedFlags(boxes), newchat, layout)
    modifies boxes`minimized, boxes`timeMinimized
    ensures !found ==> unchanged(boxes) && NoneEligible(boxes, newIds + [ControlboxId])
    ensures TrimmedOldestFirst(flags0, times0, excluded, now, MinimizedFlags(boxes), MinimizedTimes(boxes))
    ensures OnlyWhileOverflowing(views, boxes, newchat, layout, flags0, MinimizedFlags(boxes))
    ensures found ==> Candidates(MinimizedFlags(boxes), excluded) < old(Candidates(MinimizedFlags(boxes), excluded))
  {
    var oldest, excludeIds := GetOldestMaximizedChat(boxes, newIds);
    if oldest.None? {
      return false;
    }
    var chosen := oldest.value;
    var k :| 0 <= k < |boxes| && boxes[k] == chosen && forall j :: 0 <= j < k ==> !Eligible(boxes[j], excludeIds);
    ghost var flags, times := MinimizedFlags(boxes), MinimizedTimes(boxes);
    assert !flags[k] && !excluded[k];
    assert forall j :: 0 <= j < k ==> flags[j] || excluded[j];
    TrimmedStep(flags0, times0, excluded, now, flags, times, k);
    OnlyWhileOverflowingStep(views, boxes, newchat, layout, flags0, times0, excluded, now, flags, times, k);
    CandidatesShrink(flags, excluded, k);
    // the view is hidden at once in the source; hiding is not modelled
    MinimizeAt(boxes, k, now);
    found := true;
  }

  /** `minimize` on the box at position `k`, seen from the collection. */
  method MinimizeAt(boxes: seq<ChatBox>, k: nat, now: Time)
    requires k < |boxes| && DistinctBoxes(boxes)
    modifies boxes`minimized, boxes`timeMinimized
    ensures MinimizedFlags(boxes) == old(MinimizedFlags(boxes))[k := true]
    ensures MinimizedTimes(boxes) == old(MinimizedTimes(boxes))[k := Some(now)]
  {
    ghost var flags, times := MinimizedFlags(boxes), MinimizedTimes(boxes);
    boxes[k].Minimize(now);
    forall j | 0 <= j < |boxes| && j != k
      ensures boxes[j].minimized == flags[j] && boxes[j].timeMinimized == times[j]
    {
      assert boxes[j] != boxes[k];
    }
    assert MinimizedFlags(boxes) == flags[k := true];
    assert MinimizedTimes(boxes) == times[k := Some(now)];
  }

  /** The loop of `trimChats`: while the tray and the open chats are wider than
      the page, the oldest maximized chat other than the new one is minimized.
      Returns whether everything fits in the end. `trimChats` only gets here
      with at least two shown chats, so the collection is not empty. */
  method MinimizeUntilFits(views: seq<ChatBoxView>, boxes: seq<ChatBox>, newchat: Option<ChatBoxView>,
                           layout: Layout, now: Time)
    returns (fits: bool)
    requires |boxes| > 0 && DistinctBoxes(boxes)
    requires forall v :: v in views ==> v.model in boxes
    modifies boxes`minimized, boxes`timeMinimized
    ensures fits ==> FitsPage(views, boxes, newchat, layout)
    ensures !fits ==> !FitsPage(views, boxes, newchat, layout) && NoneEligible(boxes, NewIdList(newchat) + [ControlboxId])
    ensures old(FitsPage(views, boxes, newchat, layout)) ==> unchanged(boxes)
    ensures TrimmedOldestFirst(old(MinimizedFlags(boxes)), old(MinimizedTimes(boxes)),
                               ExcludedFlags(boxes, NewIdList(newchat) + [ControlboxId]), now,
                               MinimizedFlags(boxes), MinimizedTimes(boxes))
    ensures OnlyWhileOverflowing(views, boxes, newchat, layout, old(MinimizedFlags(boxes)), MinimizedFlags(boxes))
  {
    var newIds := NewIdList(newchat);
    ghost var flags0, times0 := MinimizedFlags(boxes), MinimizedTimes(boxes);
    ghost var excluded := ExcludedFlags(boxes, newIds + [ControlboxId]);
    TrimmedNothing(flags0, times0, excluded, now);
    while !FitsPage(views, boxes, newchat, layout)
      invariant old(FitsPage(views, boxes, newchat, layout)) ==> unchanged(boxes)
      invariant TrimmedOldestFirst(flags0, times0, excluded, now, MinimizedFlags(boxes), MinimizedTimes(boxes))
      invariant OnlyWhileOverflowing(views, boxes, newchat, layout, flags0, MinimizedFlags(boxes))
      decreases Candidates(MinimizedFlags(boxes), excluded)
    {
      assert forall o :: o in Models(views) ==> o in boxes;
      FitsPageFlags(views, boxes, newchat, layout);
      var found := MinimizeOldest(boxes, newIds, now, flags0, times0, excluded, views, newchat, layout);
      if !found {
        return false;
      }
    }
    fits := true;
  }

  /** Leaving out the views keyed by an id no view has changes no sum. */
  lemma {:induction false} SumWidthsAbsentId(vs: seq<ChatBoxView>, all: seq<ChatBoxView>, id: string, layout: Layout)
    requires forall v :: v in vs ==> v.model.id != id
    ensures SumWidths(vs, all, Some(id), layout) == SumWidths(vs, all, None, layout)
  {
    if vs != [] {
      SumWidthsAbsentId(vs[1..], all, id, layout);
    }
  }

  /** With distinct ids, leaving out the id of one view removes exactly that view's width. */
  lemma {:induction false} SumWidthsWithout(vs: seq<ChatBoxView>, all: seq<ChatBoxView>, v: ChatBoxView, layout: Layout)
    requires v in vs && DistinctIds(vs)
    ensures SumWidths(vs, all, None, layout) == SumWidths(vs, all, Some(v.model.id), layout) + ChatBoxWidth(v, all, layout)
  {
    assert DistinctIds(vs[1..]) by {
      forall i, j | 0 <= i < j < |vs| - 1 ensures vs[1..][i].model.id != vs[1..][j].model.id {
        assert vs[1..][i] == vs[i + 1] && vs[1..][j] == vs[j + 1];
      }
    }
    if vs[0] == v {
      forall w | w in vs[1..] ensures w.model.id != v.model.id {
        var j :| 0 <= j < |vs| - 1 && vs[1..][j] == w;
        assert vs[j + 1] == w;
      }
      SumWidthsAbsentId(vs[1..], all, v.model.id, layout);
    } else {
      SumWidthsWithout(vs[1..], all, v, layout);
    }
  }

  /** When the chat being inserted is one of the views (distinct ids), `getBoxesWidth`
      counts it with its measured width in place of the width `getChatBoxWidth`
      gives it, and counts every other view as `getBoxesWidth()` without a new chat does. */
  lemma BoxesWidthOfInsertedChat(views: seq<ChatBoxView>, newchat: ChatBoxView, layout: Layout)
    requires newchat in views && DistinctIds(views)
    ensures BoxesWidth(views, Some(newchat), layout) + ChatBoxWidth(newchat, views, layout)
            == newchat.outerWidth + BoxesWidth(views, None, layout)
  {
    SumWidthsWithout(views, views, newchat, layout);
  }

  /** The width the views take once no box of the collection is eligible: only
      the control box, unless it is the excluded view. */
  lemma {:induction false} SumWidthsNoneEligible(vs: seq<ChatBoxView>, all: seq<ChatBoxView>, boxes: seq<ChatBox>,
                                                 newchat: Option<ChatBoxView>, layout: Layout)
    requires DistinctIds(vs)
    requires forall v :: v in vs ==> v.model in boxes
    requires NoneEligible(boxes, NewIdList(newchat) + [ControlboxId])
    ensures SumWidths(vs, all, NewId(newchat), layout)
            == if NewId(newchat) != Some(ControlboxId) && FindView(vs, ControlboxId).Some?
               then ControlboxWidth(all, layout) else 0
  {
    if vs != [] {
      assert DistinctIds(vs[1..]) by {
        forall i, j | 0 <= i < j < |vs| - 1 ensures vs[1..][i].model.id != vs[1..][j].model.id {
          assert vs[1..][i] == vs[i + 1] && vs[1..][j] == vs[j + 1];
        }
      }
      SumWidthsNoneEligible(vs[1..], all, boxes, newchat, layout);
      assert !Eligible(vs[0].model, NewIdList(newchat) + [ControlboxId]);
      if vs[0].model.id == ControlboxId {
        forall w | w in vs[1..] ensures w.model.id != ControlboxId {
          var j :| 0 <= j < |vs| - 1 && vs[1..][j] == w;
          assert vs[j + 1] == w;
        }
      }
    }
  }

  /** When trimming stops because nothing is eligible, the chats still take the
      new chat's width and the control box's width: the page overflows only if
      those two alone do not fit. */
  lemma BoxesWidthNoneEligible(views: seq<ChatBoxView>, boxes: seq<ChatBox>, newchat: Option<ChatBoxView>, layout: Layout)
    requires DistinctIds(views)
    requires forall v :: v in views ==> v.model in boxes
    requires NoneEligible(boxes, NewIdList(newchat) + [ControlboxId])
    ensures BoxesWidth(views, newchat, layout)
            == NewChatWidth(newchat)
               + if NewId(newchat) != Some(ControlboxId) && FindView(views, ControlboxId).Some?
                 then ControlboxWidth(views, layout) else 0
  {
    SumWidthsNoneEligible(views, views, boxes, newchat, layout);
  }

  /** Three open chats of 300 pixels each, none of them the control box, on
      a page 700 pixels wide with a tray of no width. */
  function ThreeViews(a: ChatBox, b: ChatBox, c: ChatBox): seq<ChatBoxView> {
    [ChatBoxView(a, true, 300), ChatBoxView(b, true, 300), ChatBoxView(c, true, 300)]
  }

  /** The widths of the three chats under any flags of the collection `[a, b, c]`. */
  lemma ThreeViewsWidth(a: ChatBox, b: ChatBox, c: ChatBox, flags: seq<bool>)
    requires a != b && b != c && a != c && |flags| == 3
    requires a.id != ControlboxId && b.id != ControlboxId && c.id != ControlboxId
    ensures SumWidthsWith(ThreeViews(a, b, c), ThreeViews(a, b, c), None, Layout(700, 0, 0), MarkedBoxes([a, b, c], flags))
            == (if flags[0] then 0 else 300) + (if flags[1] then 0 else 300) + (if flags[2] then 0 else 300)
  {
    var views := ThreeViews(a, b, c);
    var marked := MarkedBoxes([a, b, c], flags);
    assert a in marked <==> flags[0];
    assert b in marked <==> flags[1];
    assert c in marked <==> flags[2];
    var layout := Layout(700, 0, 0);
    assert views[2..][1..] == [];
    assert SumWidthsWith(views[2..], views, None, layout, marked) == if flags[2] then 0 else 300;
    assert views[1..][1..] == views[2..];
    assert SumWidthsWith(views[1..], views, None, layout, marked)
           == (if flags[1] then 0 else 300) + (if flags[2] then 0 else 300);
  }

  /** Trimming three such chats, the oldest first, minimizes the oldest one
      and no other: the other two take 600 pixels and fit. */
  lemma TrimThreeChats(a: ChatBox, b: ChatBox, c: ChatBox, times0: seq<Option<Time>>, now: Time,
                       flags: seq<bool>, times: seq<Option<Time>>)
    requires a != b && b != c && a != c
    requires a.id != ControlboxId && b.id != ControlboxId && c.id != ControlboxId
    requires TrimmedOldestFirst([false, false, false], times0, [false, false, false], now, flags, times)
    requires OnlyWhileOverflowing(ThreeViews(a, b, c), [a, b, c], None, Layout(700, 0, 0), [false, false, false], flags)
    requires FitsWith(ThreeViews(a, b, c), [a, b, c], flags, None, Layout(700, 0, 0))
    ensures flags == [true, false, false]
  {
    var views, boxes, layout := ThreeViews(a, b, c), [a, b, c], Layout(700, 0, 0);
    ThreeViewsWidth(a, b, c, flags);
    assert flags[0];
    if flags[1] {
      var before := FlagsBefore([false, false, false], flags, 1);
      ThreeViewsWidth(a, b, c, before);
      assert false;
    }
  }
}
