/**
 * The minimize/maximize state of one chat box: the overrides of the chat box
 * model (initialize, maybeShow), the two transitions mixed into its prototype
 * (minimize, maximize, the latter also run on the model's `show` event) and
 * the chat box view's `show` override.
 */
module ChatBoxes {
  import opened Wrappers

  /** Timestamps. The source mixes dayjs objects, ISO strings and epoch
      milliseconds; all of them are an instant, given by the caller. */
  type Time = int

  /** The id of the control box, which has its own minimize toggle and is never trimmed. */
  const ControlboxId: string := "controlbox"

  /** The configured layout mode (the `view_mode` setting). */
  datatype ViewMode = Overlayed | Fullscreen | Mobile | Embedded

  /** The attributes a chat box is created with (restored from storage or
      given on creation); `None` stands for an undefined attribute. */
  datatype StoredAttributes = StoredAttributes(
    minimized: Option<bool>,
    timeMinimized: Option<Time>,
    timeOpened: Option<Time>)

  /** A chat box model. `minimized` is the only attribute this plugin flips;
      `closed` and `numUnread` are maintained by the chat core and read here. */
  class ChatBox {
    const id: string
    var minimized: bool
    var timeMinimized: Option<Time>
    var timeOpened: Option<Time>
    var closed: bool
    var numUnread: nat

    /** `initialize`: the control box keeps what it was created with; every
        other box is saved with `minimized` defaulting to false and
        `time_minimized` defaulting to the current time. */
    constructor (id: string, stored: StoredAttributes, closed: bool, numUnread: nat, now: Time)
      ensures this.id == id && this.closed == closed && this.numUnread == numUnread
      ensures minimized == (stored.minimized == Some(true))
      ensures id != ControlboxId ==> timeMinimized == Some(stored.timeMinimized.GetOr(now))
      ensures id == ControlboxId ==> timeMinimized == stored.timeMinimized
      ensures timeOpened == stored.timeOpened
    {
      this.id := id;
      this.closed := closed;
      this.numUnread := numUnread;
      this.timeOpened := stored.timeOpened;
      this.minimized := stored.minimized == Some(true);
      if id == ControlboxId {
        this.timeMinimized := stored.timeMinimized;
      } else {
        this.timeMinimized := Some(stored.timeMinimized.GetOr(now));
      }
    }

    /** `minimize`: sets the flag and records when it happened. */
    method Minimize(now: Time)
      modifies this`minimized, this`timeMinimized
      ensures minimized && timeMinimized == Some(now)
    {
      minimized := true;
      timeMinimized := Some(now);
    }

    /** `maximize`: clears the flag and records when the box was opened again. */
    method Maximize(now: Time)
      modifies this`minimized, this`timeOpened
      ensures !minimized && timeOpened == Some(now)
    {
      minimized := false;
      timeOpened := Some(now);
    }

    /** `maybeShow`: a minimized box is returned as it is unless the caller
        forces it; otherwise the chat core's `maybeShow` runs. The result tells
        whether the call was handed on to the chat core. `coreShows` says
        whether the chat core then triggers the model's `show` event, on
        which `initialize` registered `maximize`. */
    method MaybeShow(force: bool, coreShows: bool, now: Time) returns (delegated: bool)
      modifies this`minimized, this`timeOpened
      ensures delegated <==> force || !old(minimized)
      ensures delegated && coreShows ==> !minimized && timeOpened == Some(now)
      ensures !(delegated && coreShows) ==> minimized == old(minimized) && timeOpened == old(timeOpened)
    {
      if !force && minimized {
        return false;
      }
      delegated := true;
      if coreShows {
        // the `show` listener
        Maximize(now);
      }
    }
  }

  /** The chat box view's `show`: in overlayed mode a minimized box is not
      shown but minimized again (which re-hides its view); otherwise the chat
      core's `show` runs. The result tells whether the call was handed on. */
  method ShowView(box: ChatBox, viewMode: ViewMode, now: Time) returns (delegated: bool)
    modifies box`minimized, box`timeMinimized
    ensures delegated <==> !(viewMode == Overlayed && old(box.minimized))
    ensures delegated ==> box.minimized == old(box.minimized) && box.timeMinimized == old(box.timeMinimized)
    ensures !delegated ==> box.minimized && box.timeMinimized == Some(now)
  {
    if viewMode == Overlayed && box.minimized {
      box.Minimize(now);
      delegated := false;
    } else {
      delegated := true;
    }
  }

  /** Minimizing and then maximizing a box leaves it maximized. */
  method MinimizeThenMaximize(box: ChatBox, t1: Time, t2: Time)
    modifies box`minimized, box`timeMinimized, box`timeOpened
    ensures !box.minimized && box.timeMinimized == Some(t1) && box.timeOpened == Some(t2)
  {
    box.Minimize(t1);
    box.Maximize(t2);
  }
}
