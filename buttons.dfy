/**
 * The minimize button of a chat's heading: the plugin answers the
 * `getHeadingButtons` hook by inserting one "minimize" entry into the list of
 * heading buttons, just before the button it belongs next to.
 */
module HeadingButtons {
  import opened ChatBoxes

  /** One heading button. The click handler (which calls the view's
      `minimize`) is not part of the value. */
  datatype Button = Button(aClass: string, text: string, title: string, iconClass: string,
                           name: string, standalone: bool)

  /** `buttons.map(t => t.name)`. */
  function Names(buttons: seq<Button>): (r: seq<string>)
    ensures |r| == |buttons|
    ensures forall i :: 0 <= i < |buttons| ==> r[i] == buttons[i].name
  {
    seq(|buttons|, i requires 0 <= i < |buttons| => buttons[i].name)
  }

  /** `Array.prototype.indexOf`: the first position of `x`, or -1 when absent. */
  function IndexOf(names: seq<string>, x: string): (i: int)
    ensures -1 <= i < |names|
    ensures i >= 0 ==> names[i] == x && forall m :: 0 <= m < i ==> names[m] != x
    ensures i == -1 <==> x !in names
  {
    if names == [] then -1
    else if names[0] == x then 0
    else
      var j := IndexOf(names[1..], x);
      if j == -1 then -1 else j + 1
  }

  /** Where the new entry goes: at the first `anchor` entry, or at the front
      when there is none. */
  function InsertionIndex(buttons: seq<Button>, anchor: string): (k: nat)
    ensures k <= |buttons|
    ensures anchor in Names(buttons) ==>
              k < |buttons| && buttons[k].name == anchor &&
              forall m :: 0 <= m < k ==> buttons[m].name != anchor
    ensures anchor !in Names(buttons) ==> k == 0
  {
    var i := IndexOf(Names(buttons), anchor);
    if i >= 0 then i else 0
  }

  /** The shared shape of both hook handlers: `data` spliced in before the
      first `anchor` entry, or prepended. */
  function InsertBefore(buttons: seq<Button>, data: Button, anchor: string): (r: seq<Button>)
    ensures |r| == |buttons| + 1
    ensures var k := InsertionIndex(buttons, anchor);
            r[k] == data && r[..k] + r[k + 1..] == buttons
  {
    var k := InsertionIndex(buttons, anchor);
    var r := buttons[..k] + [data] + buttons[k..];
    assert r[..k] == buttons[..k] && r[k + 1..] == buttons[k..];
    r
  }

  /** With no `anchor` entry the new entry comes first and the rest follows unchanged. */
  lemma InsertBeforeFront(buttons: seq<Button>, data: Button, anchor: string)
    requires anchor !in Names(buttons)
    ensures InsertBefore(buttons, data, anchor) == [data] + buttons
  {
  }

  /** Inserting adds exactly one entry, `data`, and removes none. */
  lemma InsertBeforeMultiset(buttons: seq<Button>, data: Button, anchor: string)
    ensures multiset(InsertBefore(buttons, data, anchor)) == multiset(buttons) + multiset{data}
  {
  }

  /** The first occurrence of a name is shifted by one position in `s` when an
      entry that does not carry it is inserted at or before that position. */
  lemma {:induction false} IndexOfInsert(names: seq<string>, k: nat, y: string, x: string)
    requires k <= |names| && y != x
    requires x in names && k <= IndexOf(names, x)
    ensures IndexOf(names[..k] + [y] + names[k..], x) == IndexOf(names, x) + 1
  {
    var s := names[..k] + [y] + names[k..];
    if k == 0 {
      assert s == [y] + names;
      assert s[1..] == names;
    } else {
      var tail := names[1..];
      assert names[0] != x;
      assert x in tail;
      assert IndexOf(names, x) == IndexOf(tail, x) + 1;
      assert s[1..] == tail[..k - 1] + [y] + tail[k - 1..] by {
        assert names[..k] == [names[0]] + tail[..k - 1];
        assert names[k..] == tail[k - 1..];
      }
      IndexOfInsert(tail, k - 1, y, x);
      assert s[0] == names[0];
    }
  }

  /** The names of a spliced list are the spliced names. */
  lemma NamesSplice(buttons: seq<Button>, k: nat, data: Button)
    requires k <= |buttons|
    ensures Names(buttons[..k] + [data] + buttons[k..]) == Names(buttons)[..k] + [data.name] + Names(buttons)[k..]
  {
  }

  /** When the list has an `anchor` entry and the new entry is not one, the
      new entry lands immediately before the first `anchor` entry. */
  lemma InsertBeforeAnchor(buttons: seq<Button>, data: Button, anchor: string)
    requires anchor in Names(buttons) && data.name != anchor
    ensures var r := InsertBefore(buttons, data, anchor);
            var j := IndexOf(Names(r), anchor);
            j >= 1 && r[j - 1] == data && j == IndexOf(Names(buttons), anchor) + 1
  {
    var r := InsertBefore(buttons, data, anchor);
    var k := InsertionIndex(buttons, anchor);
    assert k == IndexOf(Names(buttons), anchor);
    assert r == buttons[..k] + [data] + buttons[k..];
    NamesSplice(buttons, k, data);
    IndexOfInsert(Names(buttons), k, data.name, anchor);
  }

  /** The untranslated titles of the two buttons. */
  const ChatTitle: string := "Minimize this chat"
  const GroupchatTitle: string := "Minimize this groupchat"

  /** The minimize entry: standalone exactly in the overlayed view mode. */
  function MinimizeButton(title: string, viewMode: ViewMode): (b: Button)
    ensures b.name == "minimize" && b.title == title
    ensures b.standalone <==> viewMode == Overlayed
  {
    Button("toggle-chatbox-button", "Minimize", title, "fa-minus", "minimize", viewMode == Overlayed)
  }

  /** `addMinimizeButtonToChat`: the minimize entry, before the first "close" entry. */
  function AddMinimizeButtonToChat(buttons: seq<Button>, viewMode: ViewMode): (r: seq<Button>)
    ensures |r| == |buttons| + 1
    ensures var k := InsertionIndex(buttons, "close");
            r[k] == MinimizeButton(ChatTitle, viewMode) && r[..k] + r[k + 1..] == buttons
  {
    InsertBefore(buttons, MinimizeButton(ChatTitle, viewMode), "close")
  }

  /** `addMinimizeButtonToMUC`: the minimize entry, before the first "signout" entry. */
  function AddMinimizeButtonToMUC(buttons: seq<Button>, viewMode: ViewMode): (r: seq<Button>)
    ensures |r| == |buttons| + 1
    ensures var k := InsertionIndex(buttons, "signout");
            r[k] == MinimizeButton(GroupchatTitle, viewMode) && r[..k] + r[k + 1..] == buttons
  {
    InsertBefore(buttons, MinimizeButton(GroupchatTitle, viewMode), "signout")
  }

  /** The `getHeadingButtons` handler: groupchats get the groupchat variant,
      every other chat the one-to-one variant. `isChatroom` says whether the
      model's `type` is the groupchat type. */
  function GetHeadingButtons(isChatroom: bool, buttons: seq<Button>, viewMode: ViewMode): (r: seq<Button>)
    ensures |r| == |buttons| + 1
    ensures var anchor := if isChatroom then "signout" else "close";
            var k := InsertionIndex(buttons, anchor);
            r[k].name == "minimize" && r[..k] + r[k + 1..] == buttons
    ensures var k := InsertionIndex(buttons, if isChatroom then "signout" else "close");
            r[k] == MinimizeButton(if isChatroom then GroupchatTitle else ChatTitle, viewMode)
  {
    if isChatroom then AddMinimizeButtonToMUC(buttons, viewMode)
    else AddMinimizeButtonToChat(buttons, viewMode)
  }
}
