/** The single add/quit menu of UI: MenuOperator slides the menu up from
    below the screen edge with one reusable tweener on the root's y, and
    MenuController keeps at most one menu instance (its `info`), refuses to
    open another while it exists, and destroys it when its hide animation
    ends.

    The operator's OnHidden event, to which Open subscribes the
    controller's Dispose, is the controller's `TweenCompleted`: the engine
    event of the menu's tween followed by what the subscription does.
    Callers' callbacks and the controller's hide requests are recorded in
    `events`, in the order they happen. */
module LegacyMenu {
  import opened Common

  /** MenuOperator.DefaultDuration */
  const DefaultDuration: real := 0.5

  /** How far below its own height the menu starts its slide. */
  const SlideMargin: real := 100.0

  class MenuOperator {
    /** dialogRoot.sizeDelta.y: the menu's height, fixed by the prefab. */
    const height: real
    /** dialogRoot.anchoredPosition.y */
    var y: real
    var tween: Tween
    var ease: Ease
    /** The tweener's start value and duration; its end value is always 0. */
    var from: real
    var duration: real
    var addText: Option<string>
    var quitText: Option<string>
    var addCallback: Option<Callback>
    var quitCallback: Option<Callback>
    /** Handlers attached to the buttons' onClick events. */
    var addHandlers: nat
    var quitHandlers: nat

    /** Awake: a paused tweener from the root's current y to 0 over the
        default duration, with a cubic ease. */
    constructor (height: real, initialY: real)
      ensures this.height == height && y == initialY && from == initialY
      ensures tween == Tween(false, false) && ease == OutCubic && duration == DefaultDuration
      ensures addText == None && quitText == None
      ensures addCallback == None && quitCallback == None
      ensures addHandlers == 0 && quitHandlers == 0
    {
      this.height := height;
      y, from := initialY, initialY;
      tween, ease, duration := Tween(false, false), OutCubic, DefaultDuration;
      addText, quitText := None, None;
      addCallback, quitCallback, addHandlers, quitHandlers := None, None, 0, 0;
    }

    method SetAddText(text: string) returns (self: MenuOperator)
      modifies this`addText
      ensures self == this && addText == Some(text)
    {
      addText := Some(text);
      self := this;
    }

    method SetQuitText(text: string) returns (self: MenuOperator)
      modifies this`quitText
      ensures self == this && quitText == Some(text)
    {
      quitText := Some(text);
      self := this;
    }

    /** Replaces the add callback; the button ends with exactly one handler. */
    method SetAddListener(callback: Option<Callback>) returns (self: MenuOperator)
      modifies this`addCallback, this`addHandlers
      ensures self == this && addCallback == callback && addHandlers == 1
    {
      addCallback := callback;
      addHandlers := 0;
      addHandlers := addHandlers + 1;
      self := this;
    }

    /** Replaces the quit callback; the button ends with exactly one handler. */
    method SetQuitListener(callback: Option<Callback>) returns (self: MenuOperator)
      modifies this`quitCallback, this`quitHandlers
      ensures self == this && quitCallback == callback && quitHandlers == 1
    {
      quitCallback := callback;
      quitHandlers := 0;
      quitHandlers := quitHandlers + 1;
      self := this;
    }

    /** Show(duration): dropped while the tween plays; otherwise the menu
        jumps to SlideMargin below its own height under the bottom edge and
        slides up to y = 0 over `showDuration`. */
    method Show(showDuration: real) returns (started: bool)
      modifies this`y, this`tween, this`from, this`duration
      ensures started == !old(tween.playing)
      ensures !started ==> unchanged(this)
      ensures started ==>
        && y == -height - SlideMargin && y < -height && from == y
        && duration == showDuration && tween == Tween(true, false)
    {
      if tween.playing {
        return false;
      }
      y := -height - SlideMargin;
      from, duration := y, showDuration;
      tween := Tween(true, false);
      started := true;
    }

    /** Hide(): dropped while the tween plays; otherwise the same tween plays
        backwards, toward its start value. */
    method Hide() returns (started: bool)
      modifies this`tween
      ensures started == !old(tween.playing)
      ensures !started ==> unchanged(this)
      ensures started ==> tween == Tween(true, true)
    {
      if tween.playing {
        return false;
      }
      tween := Tween(true, true);
      started := true;
    }

    /** The add button was clicked: the stored callback, if any, runs. */
    method OnClickAdd() returns (call: Option<Callback>)
      ensures call == addCallback
    {
      call := addCallback;
    }

    /** The quit button was clicked: the stored callback, if any, runs. */
    method OnClickQuit() returns (call: Option<Callback>)
      ensures call == quitCallback
    {
      call := quitCallback;
    }

    /** Engine event: the tween reached 0 (forward) or its start (backwards).
        OnTweenCompleted reports hidden exactly when it ran backwards. */
    method Complete() returns (hidden: bool)
      requires tween.playing
      modifies this`tween, this`y
      ensures hidden == old(tween.backwards)
      ensures tween == Tween(false, hidden)
      ensures y == if hidden then from else 0.0
    {
      hidden := tween.backwards;
      tween := Tween(false, hidden);
      y := if hidden then from else 0.0;
    }
  }

  /** MenuDialogInfo: the live menu's two instantiated objects, the caller's
      callbacks and the menu's operator; Dispose clears all of them. */
  class MenuDialogInfo {
    var menu: Option<Handle>
    var modal: Option<Handle>
    var addCallback: Option<Callback>
    var quitCallback: Option<Callback>
    var op: MenuOperator?

    constructor (menu: Handle, modal: Handle, addCallback: Option<Callback>, quitCallback: Option<Callback>)
      ensures this.menu == Some(menu) && this.modal == Some(modal)
      ensures this.addCallback == addCallback && this.quitCallback == quitCallback && op == null
    {
      this.menu, this.modal := Some(menu), Some(modal);
      this.addCallback, this.quitCallback := addCallback, quitCallback;
      op := null;
    }

    method Dispose()
      modifies this
      ensures menu == None && modal == None && addCallback == None && quitCallback == None && op == null
    {
      menu, modal := None, None;
      addCallback, quitCallback := None, None;
      op := null;
    }
  }

  /** MenuDialogParameter: a duration of 0 or less and an absent or empty
      text mean "use the controller's default". */
  datatype MenuDialogParameter = MenuDialogParameter(
    duration: real, addText: Option<string>, quitText: Option<string>,
    addCallback: Option<Callback>, quitCallback: Option<Callback>)

  /** What the controller did, in order: a caller's callback ran, or Hide was
      requested of the live menu. */
  datatype MenuEvent = CallbackRan(callback: Callback) | HideRequested

  /** The controller's own OnClickAdd and OnClickQuit, as registered on the
      operator. */
  const AddHandler: Callback := 0
  const QuitHandler: Callback := 1

  /** The duration Open passes to Show. */
  function ShowDuration(param: MenuDialogParameter, defaultDuration: real): (r: real)
    ensures param.duration > 0.0 ==> r == param.duration
    ensures param.duration <= 0.0 ==> r == defaultDuration
  {
    if param.duration > 0.0 then param.duration else defaultDuration
  }

  class MenuController {
    const defaultAddText: string
    const defaultQuitText: string
    const defaultDuration: real
    /** The prefab menu's height, shared by every instance. */
    const menuHeight: real
    var info: MenuDialogInfo?
    /** Objects instantiated and not yet destroyed, and those of them active. */
    var live: set<Handle>
    var active: set<Handle>
    var nextHandle: Handle
    /** How many menus have been instantiated so far. */
    var menusCreated: nat
    var events: seq<MenuEvent>

    /** At most one menu exists, and exactly while `info` is set: its two
        objects are the only live ones and its operator is wired to the
        controller's handlers. */
    ghost predicate Valid()
      reads this, info, if info != null then {info.op} else {}
    {
      && active <= live
      && (info == null ==> live == {})
      && (info != null ==>
            && info.op != null && info.menu.Some? && info.modal.Some?
            && info.menu.value != info.modal.value
            && live == {info.menu.value, info.modal.value}
            && info.menu.value < nextHandle && info.modal.value < nextHandle
            && info.op.addCallback == Some(AddHandler)
            && info.op.quitCallback == Some(QuitHandler)
            && info.op.height == menuHeight)
    }

    /** The shipped defaults are "Add", "Quit" and DefaultDuration. */
    constructor (defaultAddText: string, defaultQuitText: string, defaultDuration: real, menuHeight: real)
      ensures Valid() && info == null && events == [] && menusCreated == 0
      ensures this.defaultAddText == defaultAddText && this.defaultQuitText == defaultQuitText
      ensures this.defaultDuration == defaultDuration && this.menuHeight == menuHeight
    {
      this.defaultAddText, this.defaultQuitText := defaultAddText, defaultQuitText;
      this.defaultDuration, this.menuHeight := defaultDuration, menuHeight;
      info := null;
      live, active, nextHandle := {}, {}, 0;
      menusCreated, events := 0, [];
    }

    /** Create: instantiates the modal and the menu, both inactive, and
        records the parameter's callbacks. */
    method Create(param: MenuDialogParameter) returns (created: MenuDialogInfo)
      modifies this`live, this`nextHandle, this`menusCreated
      ensures fresh(created)
      ensures created.menu == Some(old(nextHandle) + 1) && created.modal == Some(old(nextHandle))
      ensures created.addCallback == param.addCallback && created.quitCallback == param.quitCallback
      ensures created.op == null
      ensures live == old(live) + {old(nextHandle), old(nextHandle) + 1}
      ensures nextHandle == old(nextHandle) + 2 && menusCreated == old(menusCreated) + 1
    {
      var modal := nextHandle;
      var menu := nextHandle + 1;
      nextHandle := nextHandle + 2;
      live := live + {modal, menu};
      menusCreated := menusCreated + 1;
      created := new MenuDialogInfo(menu, modal, param.addCallback, param.quitCallback);
    }

    /** The chained set-up Open applies to a new operator: texts (or the
        defaults), the controller's two handlers, and Show. */
    method Configure(op: MenuOperator, param: MenuDialogParameter)
      requires !op.tween.playing && op.height == menuHeight
      modifies op
      ensures op.addText == Some(OrDefault(param.addText, defaultAddText))
      ensures op.quitText == Some(OrDefault(param.quitText, defaultQuitText))
      ensures op.addCallback == Some(AddHandler) && op.quitCallback == Some(QuitHandler)
      ensures op.addHandlers == 1 && op.quitHandlers == 1
      ensures op.tween == Tween(true, false) && op.y == -menuHeight - SlideMargin
      ensures op.duration == ShowDuration(param, defaultDuration)
    {
      var self := op.SetAddText(OrDefault(param.addText, defaultAddText));
      self := op.SetQuitText(OrDefault(param.quitText, defaultQuitText));
      self := op.SetAddListener(Some(AddHandler));
      self := op.SetQuitListener(Some(QuitHandler));
      var started := op.Show(ShowDuration(param, defaultDuration));
    }

    /** Open: refused while a menu exists; otherwise a new menu is created
        with the parameter's texts (or the defaults), wired to the
        controller's click handlers, shown with the parameter's duration (or
        the default), and activated together with its modal. */
    method Open(param: MenuDialogParameter)
      requires Valid()
      modifies this
      ensures Valid()
      ensures old(info) != null ==> unchanged(this)
      ensures old(info) == null ==>
        && info != null && fresh(info) && fresh(info.op)
        && info.addCallback == param.addCallback && info.quitCallback == param.quitCallback
        && info.op.addText == Some(OrDefault(param.addText, defaultAddText))
        && info.op.quitText == Some(OrDefault(param.quitText, defaultQuitText))
        && info.op.addHandlers == 1 && info.op.quitHandlers == 1
        && info.op.tween == Tween(true, false)
        && info.op.y == -menuHeight - SlideMargin
        && info.op.duration == ShowDuration(param, defaultDuration)
        && active == live && |live| == 2
        && menusCreated == old(menusCreated) + 1 && events == old(events)
    {
      if info != null {
        return;
      }
      var created := Create(param);
      var op := new MenuOperator(menuHeight, 0.0);
      Configure(op, param);
      created.op := op;
      info := created;
      active := live;
    }

    /** Close: requests Hide of the live menu, if there is one. */
    method Close()
      requires Valid()
      modifies this`events, if info != null then {info.op} else {}
      ensures Valid()
      ensures old(info) == null ==> unchanged(this)
      ensures old(info) != null ==>
        && events == old(events) + [HideRequested]
        && (!old(info.op.tween.playing) ==> info.op.tween == Tween(true, true))
        && (old(info.op.tween.playing) ==> unchanged(info.op))
    {
      if info != null {
        var started := info.op.Hide();
        events := events + [HideRequested];
      }
    }

    /** OnClickAdd: the caller's add callback runs, then the menu is asked to
        hide. */
    method OnClickAdd()
      requires Valid()
      modifies this`events, if info != null then {info.op} else {}
      ensures Valid()
      ensures old(info) == null ==> unchanged(this)
      ensures old(info) != null ==>
        && events == old(events)
             + (if info.addCallback.Some? then [CallbackRan(info.addCallback.value)] else [])
             + [HideRequested]
        && (!old(info.op.tween.playing) ==> info.op.tween == Tween(true, true))
        && (old(info.op.tween.playing) ==> unchanged(info.op))
    {
      if info != null && info.addCallback.Some? {
        events := events + [CallbackRan(info.addCallback.value)];
      }
      Close();
    }

    /** OnClickQuit: the caller's quit callback runs, then the menu is asked
        to hide. */
    method OnClickQuit()
      requires Valid()
      modifies this`events, if info != null then {info.op} else {}
      ensures Valid()
      ensures old(info) == null ==> unchanged(this)
      ensures old(info) != null ==>
        && events == old(events)
             + (if info.quitCallback.Some? then [CallbackRan(info.quitCallback.value)] else [])
             + [HideRequested]
        && (!old(info.op.tween.playing) ==> info.op.tween == Tween(true, true))
        && (old(info.op.tween.playing) ==> unchanged(info.op))
    {
      if info != null && info.quitCallback.Some? {
        events := events + [CallbackRan(info.quitCallback.value)];
      }
      Close();
    }

    /** The add button of the live menu was clicked: its operator calls the
        controller's OnClickAdd. */
    method ClickAdd()
      requires Valid() && info != null
      modifies this`events, info.op
      ensures Valid()
      ensures events == old(events)
             + (if info.addCallback.Some? then [CallbackRan(info.addCallback.value)] else [])
             + [HideRequested]
      ensures !old(info.op.tween.playing) ==> info.op.tween == Tween(true, true)
      ensures old(info.op.tween.playing) ==> unchanged(info.op)
    {
      var call := info.op.OnClickAdd();
      if call == Some(AddHandler) {
        OnClickAdd();
      }
    }

    /** The quit button of the live menu was clicked: its operator calls the
        controller's OnClickQuit. */
    method ClickQuit()
      requires Valid() && info != null
      modifies this`events, info.op
      ensures Valid()
      ensures events == old(events)
             + (if info.quitCallback.Some? then [CallbackRan(info.quitCallback.value)] else [])
             + [HideRequested]
      ensures !old(info.op.tween.playing) ==> info.op.tween == Tween(true, true)
      ensures old(info.op.tween.playing) ==> unchanged(info.op)
    {
      var call := info.op.OnClickQuit();
      if call == Some(QuitHandler) {
        OnClickQuit();
      }
    }

    /** Dispose: destroys the menu and its modal, clears the info and forgets
        it, so that the next Open creates a new menu. */
    method Dispose()
      requires Valid() && info != null
      modifies this, info
      ensures Valid()
      ensures info == null && live == {} && active == {}
      ensures old(info).menu == None && old(info).modal == None && old(info).op == null
      ensures old(info).addCallback == None && old(info).quitCallback == None
      ensures events == old(events) && menusCreated == old(menusCreated) && nextHandle == old(nextHandle)
    {
      info.Dispose();
      info := null;
      live, active := {}, {};
    }

    /** Engine event: the live menu's tween completed. A completed hide
        raises OnHidden, which disposes the menu; a completed show changes
        nothing else. */
    method TweenCompleted() returns (hidden: bool)
      requires Valid() && info != null && info.op.tween.playing
      modifies this, info, info.op
      ensures Valid()
      ensures hidden == old(info.op.tween.backwards)
      ensures old(info.op).tween == Tween(false, hidden)
      ensures hidden ==> info == null && live == {} && active == {}
      ensures !hidden ==> info == old(info) && live == old(live) && active == old(active)
                          && unchanged(info) && info.op.y == 0.0
      ensures events == old(events) && menusCreated == old(menusCreated)
    {
      hidden := info.op.Complete();
      if hidden {
        Dispose();
      }
    }
  }

  /** A session of the singleton menu: a second Open while the first menu is
      up is refused (the first menu keeps its texts and callbacks), a quit
      click runs the quit callback and then hides the menu, and once the
      hide animation ends the menu is gone, so the next Open builds a new
      one with the new parameter. */
  method RefuseWhileOpen(first: MenuDialogParameter, second: MenuDialogParameter)
    returns (refusedKept: bool, events: seq<MenuEvent>, goneAfterHide: bool,
             reopened: bool, created: nat, reopenedDuration: real)
    ensures refusedKept && goneAfterHide && reopened
    ensures events == (if first.quitCallback.Some? then [CallbackRan(first.quitCallback.value)] else [])
                      + [HideRequested]
    ensures created == 2
    ensures reopenedDuration == (if second.duration > 0.0 then second.duration else DefaultDuration)
  {
    var c := new MenuController("Add", "Quit", DefaultDuration, 400.0);
    c.Open(first);
    var firstInfo := c.info;
    c.Open(second);
    refusedKept := c.info == firstInfo && c.info.addCallback == first.addCallback
                   && c.info.op.addText == Some(OrDefault(first.addText, "Add"));
    var hidden := c.TweenCompleted();
    c.ClickQuit();
    events := c.events;
    hidden := c.TweenCompleted();
    goneAfterHide := hidden && c.info == null && c.live == {};
    c.Open(second);
    reopened := c.info != null && c.info != firstInfo && c.info.quitCallback == second.quitCallback;
    created := c.menusCreated;
    reopenedDuration := c.info.op.duration;
  }
}
