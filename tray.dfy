/**
 * The minimized-chats tray: a keyed registry of entries, one per minimized
 * chat, with a toggle model that counts the entries, totals the unread
 * messages and remembers whether the tray's flyout is collapsed.
 */
module MinimizedTray {
  import opened Wrappers
  import opened ChatBoxes

  /** The boxes of the collection whose `minimized` flag is set, in collection
      order (`where({'minimized': true})`). The control box is not filtered out. */
  function MinimizedOnes(boxes: seq<ChatBox>): (r: seq<ChatBox>)
    reads boxes
    ensures forall b :: b in r ==> b in boxes && b.minimized
    ensures forall b :: b in boxes && b.minimized ==> b in r
  {
    if boxes == [] then []
    else if boxes[0].minimized then [boxes[0]] + MinimizedOnes(boxes[1..])
    else MinimizedOnes(boxes[1..])
  }

  /** The ids of a list of boxes. */
  function Ids(items: seq<ChatBox>): set<string> {
    set b | b in items :: b.id
  }

  /** `sum(pluck('num_unread'))`: the unread messages of every box of the collection. */
  function SumUnread(boxes: seq<ChatBox>): (total: nat)
    reads boxes
    ensures forall b :: b in boxes ==> b.numUnread <= total
  {
    if boxes == [] then 0 else boxes[0].numUnread + SumUnread(boxes[1..])
  }

  /** The total of a concatenation is the sum of the totals. */
  lemma {:induction false} SumUnreadAppend(a: seq<ChatBox>, b: seq<ChatBox>)
    ensures SumUnread(a + b) == SumUnread(a) + SumUnread(b)
  {
    if a == [] {
      assert a + b == b;
    } else {
      assert (a + b)[1..] == a[1..] + b;
      SumUnreadAppend(a[1..], b);
    }
  }

  /** The total is zero exactly when no box has an unread message. */
  lemma {:induction false} SumUnreadZero(boxes: seq<ChatBox>)
    ensures SumUnread(boxes) == 0 <==> forall b :: b in boxes ==> b.numUnread == 0
  {
    if boxes != [] {
      SumUnreadZero(boxes[1..]);
      assert forall b :: b in boxes ==> b == boxes[0] || b in boxes[1..];
    }
  }

  /** A `MinimizedChatBoxView`: the tray entry of one minimized chat, and
      whether its element is in the document (`el.parentNode`). A fresh view
      is attached as soon as it is created. */
  datatype MinimizedEntry = MinimizedEntry(model: ChatBox, attached: bool)

  /** Whether `id` has an entry whose element is still attached. */
  predicate HasAttached(entries: map<string, MinimizedEntry>, id: string) {
    id in entries && entries[id].attached
  }

  /** Every attached entry of `before` is still there, untouched, in `after`. */
  ghost predicate KeepsAttached(before: map<string, MinimizedEntry>, after: map<string, MinimizedEntry>) {
    forall id :: HasAttached(before, id) ==> id in after && after[id] == before[id]
  }

  /** Every entry of `after` is an entry of `before` or shows one of `items`. */
  ghost predicate EntriesFrom(before: map<string, MinimizedEntry>, after: map<string, MinimizedEntry>, items: seq<ChatBox>) {
    forall id :: id in after ==> (id in before && after[id] == before[id]) || after[id].model in items
  }

  /** `MinimizedChatsToggle`: the tray's own model, with its defaults. */
  class MinimizedChatsToggle {
    var collapsed: bool
    var numMinimized: nat
    var numUnread: nat

    constructor ()
      ensures !collapsed && numMinimized == 0 && numUnread == 0
    {
      collapsed := false;
      numMinimized := 0;
      numUnread := 0;
    }
  }

  /** `MinimizedChats`: the tray. `entries` is the overview keyed by chat id,
      `hidden` the `hidden` class of its element. */
  class MinimizedChats {
    var entries: map<string, MinimizedEntry>
    var hidden: bool
    const toggleModel: MinimizedChatsToggle

    /** Every entry is keyed by the id of the chat it shows. */
    ghost predicate KeysMatch()
      reads this
    {
      forall id :: id in entries ==> entries[id].model.id == id
    }

    /** The tray invariant: the toggle counts the entries, and the tray is
        hidden exactly when it has none. */
    ghost predicate Valid()
      reads this, toggleModel
    {
      KeysMatch() && toggleModel.numMinimized == |entries| && hidden == (|entries| == 0)
    }

    /** The tray as first built: no entries, hidden, and a toggle model with
        its defaults (restoring the toggle from storage is not modelled). */
    constructor ()
      ensures Valid() && entries == map[] && fresh(toggleModel)
      ensures !toggleModel.collapsed && toggleModel.numUnread == 0
    {
      entries := map[];
      hidden := true;
      toggleModel := new MinimizedChatsToggle();
    }

    /** `initialize`: an entry for every box of the collection already minimized. */
    method Initialize(boxes: seq<ChatBox>)
      requires Valid() && entries == map[]
      modifies this`entries, this`hidden, toggleModel`numMinimized
      ensures Valid()
      ensures entries.Keys == Ids(MinimizedOnes(boxes))
      ensures forall id :: id in entries ==> entries[id].attached && entries[id].model in MinimizedOnes(boxes)
    {
      AddMultipleChats(MinimizedOnes(boxes));
    }

    /** `render`, as far as it concerns state: the tray is hidden when empty and
        shown otherwise (its element being visible exactly when not hidden). */
    method Render()
      modifies this`hidden
      ensures hidden == (|entries| == 0)
    {
      if |entries| == 0 {
        hidden := true;
      } else if hidden {
        hidden := false;
      }
    }

    /** `toggle`: flips `collapsed`. The sliding animation is not modelled. */
    method Toggle()
      requires Valid()
      modifies toggleModel`collapsed
      ensures Valid()
      ensures toggleModel.collapsed == !old(toggleModel.collapsed)
    {
      toggleModel.collapsed := !toggleModel.collapsed;
    }

    /** `addChatView`: an entry whose element is still attached is kept as it is;
        otherwise a new attached entry for `item` is registered under its id. */
    method AddChatView(item: ChatBox)
      requires KeysMatch()
      modifies this`entries
      ensures KeysMatch()
      ensures HasAttached(old(entries), item.id) ==> entries == old(entries)
      ensures !HasAttached(old(entries), item.id) ==> entries == old(entries)[item.id := MinimizedEntry(item, true)]
    {
      if item.id in entries && entries[item.id].attached {
        return;
      }
      entries := entries[item.id := MinimizedEntry(item, true)];
    }

    /** `addMultipleChats`: `addChatView` for every item, then the count. */
    method AddMultipleChats(items: seq<ChatBox>)
      requires KeysMatch()
      modifies this`entries, this`hidden, toggleModel`numMinimized
      ensures Valid()
      ensures entries.Keys == old(entries).Keys + Ids(items)
      ensures forall id :: id in Ids(items) ==> entries[id].attached
      ensures EntriesFrom(old(entries), entries, items)
      ensures KeepsAttached(old(entries), entries)
    {
      var i := 0;
      while i < |items|
        invariant 0 <= i <= |items|
        invariant KeysMatch()
        invariant entries.Keys == old(entries).Keys + Ids(items[..i])
        invariant forall id :: id in Ids(items[..i]) ==> entries[id].attached
        invariant EntriesFrom(old(entries), entries, items[..i])
        invariant KeepsAttached(old(entries), entries)
      {
        assert items[..i + 1] == items[..i] + [items[i]];
        AddChatView(items[i]);
        i := i + 1;
      }
      assert items[..i] == items;
      toggleModel.numMinimized := |entries|;
      Render();
    }

    /** `addChat`: `addChatView` for one item, then the count. */
    method AddChat(item: ChatBox)
      requires Valid()
      modifies this`entries, this`hidden, toggleModel`numMinimized
      ensures Valid()
      ensures HasAttached(old(entries), item.id) ==> entries == old(entries)
      ensures !HasAttached(old(entries), item.id) ==> entries == old(entries)[item.id := MinimizedEntry(item, true)]
    {
      AddChatView(item);
      toggleModel.numMinimized := |entries|;
      Render();
    }

    /** `removeChat`: drops the entry of `item`, if any, then the count. */
    method RemoveChat(item: ChatBox)
      requires Valid()
      modifies this`entries, this`hidden, toggleModel`numMinimized
      ensures Valid()
      ensures entries == old(entries) - {item.id}
    {
      entries := entries - {item.id};
      toggleModel.numMinimized := |entries|;
      Render();
    }

    /** `onChanged`: keeps the tray in step with one box's `minimized` flag;
        the control box, which has its own toggle, is ignored. */
    method OnChanged(item: ChatBox)
      requires Valid()
      modifies this`entries, this`hidden, toggleModel`numMinimized
      ensures Valid()
      ensures item.id == ControlboxId ==> entries == old(entries)
      ensures item.id != ControlboxId ==> (item.id in entries <==> item.minimized)
      ensures item.minimized && HasAttached(old(entries), item.id) ==> entries == old(entries)
      ensures item.id != ControlboxId && item.minimized && !HasAttached(old(entries), item.id) ==>
                entries[item.id] == MinimizedEntry(item, true)
      ensures entries - {item.id} == old(entries) - {item.id}
    {
      if item.id == ControlboxId {
        return;
      }
      if item.minimized {
        AddChat(item);
      } else if item.id in entries {
        RemoveChat(item);
      }
    }

    /** `updateUnreadMessagesCounter`: the toggle's unread count becomes the
        total over the whole collection. */
    method UpdateUnreadMessagesCounter(boxes: seq<ChatBox>)
      requires Valid()
      modifies this`hidden, toggleModel`numUnread
      ensures Valid() && entries == old(entries)
      ensures toggleModel.numUnread == SumUnread(boxes)
    {
      toggleModel.numUnread := SumUnread(boxes);
      Render();
    }

    /** An entry's `remove`: its element leaves the document; the entry stays registered. */
    method RemoveEntryView(id: string)
      requires Valid() && id in entries
      modifies this`entries
      ensures Valid()
      ensures entries == old(entries)[id := old(entries)[id].(attached := false)]
    {
      entries := entries[id := entries[id].(attached := false)];
    }

    /** An entry's `restore`, followed by the `change:minimized` notification
        the tray listens to: the entry's element is removed, the chat
        maximized, and the tray drops the entry. The tray ignores the control
        box, so a control box entry stays registered, detached from the page.
        The 200ms leading-edge debounce is not modelled. */
    method Restore(id: string, now: Time)
      requires Valid() && id in entries
      modifies this`entries, this`hidden, toggleModel`numMinimized, entries[id].model`minimized, entries[id].model`timeOpened
      ensures Valid()
      ensures id != ControlboxId ==> entries == old(entries) - {id}
      ensures id == ControlboxId ==> entries == old(entries)[id := old(entries)[id].(attached := false)]
      ensures !old(entries[id].model).minimized && old(entries[id].model).timeOpened == Some(now)
    {
      var chat := entries[id].model;
      RemoveEntryView(id);
      ghost var detached := entries;
      assert detached - {id} == old(entries) - {id};
      chat.Maximize(now);
      OnChanged(chat);
      assert id != ControlboxId ==> entries == detached - {id};
    }

    /** An entry's `close`: its element is removed and the chat destroyed, whose
        `destroy` notification drops the entry. The destruction belongs to the chat core. */
    method Close(id: string)
      requires Valid() && id in entries
      modifies this`entries, this`hidden, toggleModel`numMinimized
      ensures Valid()
      ensures entries == old(entries) - {id}
    {
      var chat := entries[id].model;
      RemoveEntryView(id);
      RemoveChat(chat);
      assert entries == old(entries) - {id};
    }
  }
}
