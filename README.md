# Chat minimization and trimming (converse.js `converse-minimize`)

This project models the minimize plugin of the converse.js XMPP web client.
The plugin keeps the overlayed chat windows within the page. Every chat box
can be minimized and maximized. When a new chat box would not fit, the chat
trimmer minimizes the oldest maximized chats until the open chats and the
tray of minimized chats fit the page. The tray keeps one entry per minimized
chat and a toggle that counts its entries and totals the unread messages of
every chat box in the collection.
Finally, the plugin adds a minimize button to every chat's heading.

The model has four modules:

- `ChatBoxes` (`chatbox.dfy`) — the chat box model class and its minimize
  and maximize transitions, the `initialize` and `maybeShow` overrides, and
  the view's `show` override.
- `ChatTrimmer` (`trimmer.dfy`) — width accounting, the choice of the oldest
  maximized chat, and the trimming loop. The loop minimizes `ChatBox`
  objects in place.
- `MinimizedTray` (`tray.dfy`) — the tray as a class. It holds the keyed
  entries (a `map` from chat id to entry) and a toggle model class. Its
  invariant `Valid` says that the toggle's `numMinimized` equals the number
  of keys and that the tray is hidden exactly when it is empty.
- `HeadingButtons` (`buttons.dfy`) — the pure list insertion of the minimize
  button.

`Wrappers` (`wrappers.dfy`) holds only the `Option` type.

Page measurement is given, not computed:

- each view carries the visibility of its element and its outer width;
- `Layout` carries the measured widths of the page body, the tray and the
  control box toggle.

These measurements are taken once per `trimChats` call and stay fixed across
its rounds, where the source measures again at every test of the loop. The
results agree: a minimized box other than the control box takes no width
whatever its visibility, and the tray's width is charged only once some box is
minimized.

The chat box collection is passed as a sequence already in its sort order.
The views of the overview are passed as a sequence in overview order.

## Model

| member | source | states |
|---|---|---|
| ChatBoxes.ChatBox.constructor | src/converse-minimize.js:54-65 | `minimized` is true only when stored as true. A box other than the control box gets the current time as `time_minimized` when none is stored. The control box keeps its stored attributes. |
| ChatBoxes.ChatBox.Minimize | src/converse-minimize.js:129-134 | Sets `minimized` and records the minimization time. No other field changes. |
| ChatBoxes.ChatBox.Maximize | src/converse-minimize.js:122-127 | Clears `minimized` and records the opening time. No other field changes. |
| ChatBoxes.ChatBox.MaybeShow | src/converse-minimize.js:56-73 | The chat core's `maybeShow` is reached exactly when the call is forced or the box was not minimized. An unforced call on a minimized box changes nothing. When the chat core then triggers the model's `show` event, the listener registered in `initialize` maximizes the box with the current time. Without that event the box is unchanged. |
| ChatBoxes.ShowView | src/converse-minimize.js:77-85 | In overlayed mode a minimized box is minimized again, with the current time, instead of shown, and the call is not handed on. In every other case the call is handed to the chat core, and this override leaves `minimized` and `time_minimized` as they were. |
| ChatBoxes.MinimizeThenMaximize | src/converse-minimize.js:122-134 | Minimizing and then maximizing leaves the box maximized, with both timestamps recorded. |
| ChatTrimmer.NewIdList | src/converse-minimize.js:285-286 | The exclusion list holds the new chat's id exactly when there is a new chat. |
| ChatTrimmer.FindView | src/converse-minimize.js:220 | A view that is found carries the id asked for. When nothing is found, no view carries that id. |
| ChatTrimmer.ControlboxWidth | src/converse-minimize.js:219-227 | The toggle's width when no view is the control box. With distinct ids, the control box's own width when it is registered and visible, and the toggle's width when it is registered and hidden. |
| ChatTrimmer.ChatBoxWidth | src/converse-minimize.js:218-232 | The control box takes the control box width. Any other view takes 0 when minimized or hidden, and its outer width otherwise. |
| ChatTrimmer.BoxesWidth | src/converse-minimize.js:250-255 | The total is never below the new chat's own measured width. |
| ChatTrimmer.MinimizedWidth | src/converse-minimize.js:245-248 | The tray's width when some box is minimized, and 0 otherwise. |
| ChatTrimmer.ShownChats | src/converse-minimize.js:234-243 | A view is in the result exactly when it is in the overview and is shown, that is, not minimized, not closed and visible. |
| ChatTrimmer.ShownChatsAppend | src/converse-minimize.js:234-243 | The shown views of two concatenated overviews are those of the first followed by those of the second, so the result keeps the overview's order. |
| ChatTrimmer.ShownChatsMultiplicity | src/converse-minimize.js:234-243 | A shown view occurs in the result as often as in the overview, and any other view does not occur. |
| ChatTrimmer.ShownChatsFirst | src/converse-minimize.js:234-243 | The first result is the first shown view of the overview. |
| ChatTrimmer.GetOldestMaximizedChat | src/converse-minimize.js:304-317 | The exclusion list gains "controlbox". The result is none exactly when no box is eligible. A returned box is not the control box, not excluded and not minimized, and every box before it in sort order is ineligible. |
| ChatTrimmer.TrimChats | src/converse-minimize.js:266-300 | Each early exit is taken exactly when its guard holds, and then no box changes. Nothing changes when everything already fits. After the loop, either everything fits, or it does not fit and no box is eligible. Only `minimized` and `time_minimized` may change. No box is maximized. Every newly minimized box is neither the control box nor the new chat and carries the current time. A box is minimized only when every older box that is not excluded is minimized too (oldest first). No more is minimized than needed: each box was minimized while the chats, with the boxes minimized before it, did not fit. |
| ChatTrimmer.MinimizeUntilFits | src/converse-minimize.js:283-300 | The loop ends with everything fitting, or with it not fitting and no eligible box left. Nothing changes when everything already fits. Only `minimized` and `time_minimized` change. The boxes are minimized oldest first, at the current time, and never the control box or the new chat. No box is maximized. Each box was minimized while the chats, with the boxes minimized before it, did not fit. Termination holds because the positions open to trimming shrink on every round. |
| ChatTrimmer.MinimizeOldest | src/converse-minimize.js:284-297 | One round, run while the chats do not fit: when no box is eligible nothing changes, and the round reports that. Otherwise the first eligible box in sort order is minimized at the current time. Trimming stays oldest first, every round stays justified by an overflow, and fewer positions remain open to trimming. |
| ChatTrimmer.MinimizeAt | src/converse-minimize.js:296 | Minimizing one box of the collection changes the flag and time at its position only. |
| ChatTrimmer.TrimmedNothing | src/converse-minimize.js:283 | Before the first round, the collection trivially satisfies the trimming invariant. |
| ChatTrimmer.TrimmedStep | src/converse-minimize.js:284-297 | Minimizing the first position that is neither minimized nor excluded keeps the trimming oldest first and keeps the other parts of the invariant. |
| ChatTrimmer.CandidatesShrink | src/converse-minimize.js:283-300 | Minimizing a candidate removes it from the positions open to trimming and adds none. |
| ChatTrimmer.SumWidthsFlags | src/converse-minimize.js:218-232 | The summed widths read from the boxes equal the widths computed from their `minimized` flags. |
| ChatTrimmer.FitsPageFlags | src/converse-minimize.js:284 | The loop condition, read from the boxes, is the fit computed from the current flags. |
| ChatTrimmer.OnlyWhileOverflowingStep | src/converse-minimize.js:284-296 | Minimizing the first candidate while the chats do not fit keeps every minimization justified by an overflow at its own round. |
| ChatTrimmer.ThreeViewsWidth | src/converse-minimize.js:218-255 | Three 300-pixel chats take 300 pixels for each one that is not minimized. |
| ChatTrimmer.TrimThreeChats | src/converse-minimize.js:283-300 | Three 300-pixel chats on a 700-pixel page with a tray of no width: a trimming that fits, goes oldest first and minimizes only while overflowing minimizes the oldest chat and no other. These are the conditions `TrimChats` ensures. |
| ChatTrimmer.SumWidthsAbsentId | src/converse-minimize.js:250-255 | Excluding an id that no view carries changes no sum. |
| ChatTrimmer.SumWidthsWithout | src/converse-minimize.js:250-255 | With distinct ids, excluding one view's id removes exactly that view's width from the sum. |
| ChatTrimmer.BoxesWidthOfInsertedChat | src/converse-minimize.js:250-255 | `getBoxesWidth(newchat)` counts the new chat once, with its measured width, in place of the width `getChatBoxWidth` gives it. Every other view is counted as in `getBoxesWidth()`. |
| ChatTrimmer.SumWidthsNoneEligible | src/converse-minimize.js:250-255 | Once no box is eligible, the views other than the new chat take only the control box's width. |
| ChatTrimmer.BoxesWidthNoneEligible | src/converse-minimize.js:250-255 | When trimming stops for lack of eligible boxes, the chats take the new chat's width plus, when the control box is registered and is not the new chat, the control box's width. |
| MinimizedTray.MinimizedOnes | src/converse-minimize.js:391 | `where({'minimized': true})`: exactly the boxes of the collection that are minimized. |
| MinimizedTray.SumUnread | src/converse-minimize.js:467 | No box's unread count exceeds the total. |
| MinimizedTray.SumUnreadAppend | src/converse-minimize.js:467 | The total over two concatenated collections is the sum of their totals. |
| MinimizedTray.SumUnreadZero | src/converse-minimize.js:467 | The total is zero exactly when no box has unread messages. |
| MinimizedTray.MinimizedChatsToggle.constructor | src/converse-minimize.js:473-479 | The toggle starts not collapsed, with no minimized chats and no unread messages. |
| MinimizedTray.MinimizedChats.constructor | src/converse-minimize.js:380-390 | A new tray is empty and hidden, and has a fresh toggle with its defaults. The invariant holds from the start. |
| MinimizedTray.MinimizedChats.Initialize | src/converse-minimize.js:388-396 | Afterwards the keys are exactly the ids of the minimized boxes. Every entry is attached and shows a minimized box. The invariant holds. |
| MinimizedTray.MinimizedChats.Render | src/converse-minimize.js:398-409 | The tray is hidden exactly when it has no entries. |
| MinimizedTray.MinimizedChats.Toggle | src/converse-minimize.js:420-424 | Flips `collapsed` and changes nothing else. The invariant still holds. |
| MinimizedTray.MinimizedChats.AddChatView | src/converse-minimize.js:438-446 | An id that already has an attached entry leaves the registry unchanged. Otherwise exactly that id is set to a fresh attached entry for the item. |
| MinimizedTray.MinimizedChats.AddMultipleChats | src/converse-minimize.js:448-452 | The keys become the old keys plus the items' ids, and every item id is attached. Old attached entries are kept. Every entry is old or shows one of the items. The count invariant is restored. |
| MinimizedTray.MinimizedChats.AddChat | src/converse-minimize.js:454-458 | Has the effect of `addChatView`, and the count invariant still holds. |
| MinimizedTray.MinimizedChats.RemoveChat | src/converse-minimize.js:460-464 | Exactly the item's key is removed, and the count invariant still holds. |
| MinimizedTray.MinimizedChats.OnChanged | src/converse-minimize.js:426-436 | The control box is ignored. Otherwise the item has an entry exactly when it is minimized, and a newly minimized item gets a fresh attached entry. Entries under other ids do not change. |
| MinimizedTray.MinimizedChats.UpdateUnreadMessagesCounter | src/converse-minimize.js:466-469 | The toggle's unread count becomes the total over the whole collection. The entries do not change. |
| MinimizedTray.MinimizedChats.RemoveEntryView | src/converse-minimize.js:374 | After `remove`, the entry stays registered with its element detached. |
| MinimizedTray.MinimizedChats.Restore | src/converse-minimize.js:371-376 | The chat is maximized with the current time. The tray loses exactly that entry. The tray ignores the control box, so a control box entry stays registered, detached from the page. |
| MinimizedTray.MinimizedChats.Close | src/converse-minimize.js:356-369 | The tray loses exactly that entry, and the invariant holds. |
| HeadingButtons.Names | src/converse-minimize.js:528 | Has one name per button, position by position. |
| HeadingButtons.IndexOf | src/converse-minimize.js:529 | The result is the first position of the name, or -1 exactly when the name is absent. |
| HeadingButtons.InsertionIndex | src/converse-minimize.js:529-530 | The position of the first anchor entry, with no anchor before it, or the front when there is no anchor. |
| HeadingButtons.InsertBefore | src/converse-minimize.js:530 | The list grows by one. The new entry is at the insertion index, and removing it gives back the input list in its order. |
| HeadingButtons.InsertBeforeFront | src/converse-minimize.js:530 | With no anchor entry, the new entry is prepended to the unchanged list. |
| HeadingButtons.InsertBeforeMultiset | src/converse-minimize.js:530 | Exactly one entry, the new one, is added and none is lost. |
| HeadingButtons.IndexOfInsert | src/converse-minimize.js:529-530 | Inserting a different name at or before the first occurrence of a name shifts that occurrence by one. |
| HeadingButtons.NamesSplice | src/converse-minimize.js:528-530 | The names of a spliced button list are the spliced names. |
| HeadingButtons.InsertBeforeAnchor | src/converse-minimize.js:530 | When an anchor entry exists, the new entry sits immediately before the first anchor entry of the result. |
| HeadingButtons.MinimizeButton | src/converse-minimize.js:519-527 | The entry is named "minimize", carries the given title, and is standalone exactly in overlayed mode. |
| HeadingButtons.AddMinimizeButtonToChat | src/converse-minimize.js:518-531 | The minimize entry titled "Minimize this chat" is inserted before the first "close" entry, or at the front. All other entries keep their order. |
| HeadingButtons.AddMinimizeButtonToMUC | src/converse-minimize.js:533-546 | The minimize entry titled "Minimize this groupchat" is inserted before the first "signout" entry, or at the front. All other entries keep their order. |
| HeadingButtons.GetHeadingButtons | src/converse-minimize.js:559-565 | Groupchats get the full groupchat minimize entry (`MinimizeButton` with the groupchat title and the view mode) before the first "signout" entry. Every other chat gets the full chat entry before the first "close" entry. With no anchor the entry goes to the front. All other entries keep their order. |

## Left out

- Page measurement (`getOuterWidth`, `isVisible`, the body element) is not modelled. Widths and visibility are given as numbers and flags.
- `TrimChats` does not model the `await` on the tray's initialisation promise. The promise is taken as already resolved, and `trayPresent` stands for the tray element existing.
- TrimChats and MinimizeUntilFits require a sequence of distinct boxes, and that every view shows a box of that sequence. A Backbone collection holds each model once, and the overview's views are built from the chat box collection.
- MinimizeUntilFits: hiding the chosen chat's view before minimizing it (`view.hide()`) is not modelled, because it affects only the page.
- The sort comparator of the chat box collection belongs to the chat core. The collection is given already sorted.
- `getOldestMaximizedChat` is not modelled on an empty collection, where the source dereferences a missing first model. It requires a non-empty collection. `trimChats` guarantees this, because at least two chats are shown when the loop runs.
- The exclusion list's `null` entry, used when there is no new chat, is left out. It matches no chat id.
- The debounces on window resize (250 ms) and on `restore` (200 ms) are not modelled, because they depend on timers.
- The event wiring of lines 548-557 and 567-569 is left out, because it is event-bus glue. This covers `trimChats` on `chatBoxInsertedIntoDOM` and `controlBoxOpened`, `initMinimizedChats` on `chatBoxViewsInitialized`, the `change:minimized` listeners, hiding a minimized room view on `chatRoomViewInitialized`, and the resize listeners. The `getHeadingButtons` handler of lines 559-565 is `GetHeadingButtons`.
- Persistence is not modelled (`save`, `safeSave`, `fetch`, `createStore`, `browserStorage`). Neither is restoring the toggle's saved state from storage, so the toggle starts from its defaults.
- Events (`api.trigger`), scroll-position saving, chat states, `clearUnreadMsgCounter` and `insertIntoDOM` are not modelled. They are side effects in `onMinimized`, `onMaximized` and `onMinimizedChanged` on foreign objects.
- Templates, `innerHTML` rendering, the toggle view's flyout show/hide and the sliding animation of `toggle` are not modelled.
- The overrides `isNewMessageHidden`, `shouldShowOnTextMessage`, `setChatBoxHeight` and `setChatBoxWidth` are not modelled. They consult `minimized` only to hand a call on to the chat core.
- The plugin's `enabled` check on `view_mode` is left out.
- The view-level `minimize`, which only calls the model's `minimize`, is left out.
- ChatBoxes.ChatBox.MaybeShow: the chat core's `maybeShow` is not modelled. Whether it triggers the model's `show` event is a parameter.
- ChatBoxes.ShowView: the chat core's `show` is not modelled. The model states only what this override does.
- The click handler inside a heading button is not part of the button value.
- Translation of button texts (`__`) is not modelled; the English strings are used.
- `src/shared/chat/templates/message-text.js` is not part of this model; it is a markup template.
- `src/plugins/threads/index.js` is not part of this model; it is toolbar glue around hashing and random ids.
- Timestamps are integers supplied by the caller. The source mixes dayjs objects, ISO strings and epoch milliseconds.
- TrimChats and MinimizeUntilFits: one instant `now` stamps every box minimized in a single call, where each `minimize` in the source takes its own `new Date()`. Nothing in the plugin reads `time_minimized`, so no behaviour depends on the difference.
- A `minimized` attribute that is undefined is treated as false. Every use in the plugin tests its truthiness or compares it with `true`.
- Tray entries are values rather than view objects. Entry identity and the element's position in the flyout are not modelled.
- MinimizedTray.MinimizedChats.Close: destroying the chat model and closing its chat box view belong to the chat core. The model covers the tray side only: the entry view is removed and the entry is dropped, which the source does through the `destroy` notification.
- MinimizedTray.MinimizedChats.constructor: the Backbone constructor runs `initialize` at once. The model splits this into the constructor (an empty tray with its toggle, the state after `render` and `initToggle`) and `Initialize`, which adds the minimized chats.
