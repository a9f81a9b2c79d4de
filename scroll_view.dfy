/** ScrollViewItemOperator: one row of the account list. It follows the drag
    gesture in a four-state machine, tells its listener about every change of
    state, and reports a click only when no drag is under way. */
module ScrollView {
  import opened Common

  datatype ScrollViewItemState = Default | BeginDrag | Dragging | EndDrag

  /** AccountInfo: the record a row shows. */
  datatype AccountInfo = AccountInfo(
    name: Option<string>, url: Option<string>, user: Option<string>, password: Option<string>,
    id: Option<string>, savedAt: int, modifiedAt: int)

  /** A click reaches the OnClick listener only when no drag is under way. */
  predicate ClickAllowed(s: ScrollViewItemState)
  {
    s == Default || s == EndDrag
  }

  /** One invocation of OnStateChange: the listener and the state it was given. */
  datatype StateCall = StateCall(listener: Callback, state: ScrollViewItemState)

  /** One invocation of OnClick: the listener and the ID it was given. */
  datatype ClickCall = ClickCall(listener: Callback, id: Option<string>)

  /** What a `?.Invoke` delivers: one call to a set listener, nothing to a null one. */
  function StateHeard(listener: Option<Callback>, s: ScrollViewItemState): (r: seq<StateCall>)
    ensures listener.None? <==> r == []
    ensures listener.Some? ==> r == [StateCall(listener.value, s)]
  {
    if listener.Some? then [StateCall(listener.value, s)] else []
  }

  function ClickHeard(listener: Option<Callback>, id: Option<string>): (r: seq<ClickCall>)
    ensures listener.None? <==> r == []
    ensures listener.Some? ==> r == [ClickCall(listener.value, id)]
  {
    if listener.Some? then [ClickCall(listener.value, id)] else []
  }

  class ScrollViewItemOperator {
    /** The ID property (null until SetAccount). */
    var id: Option<string>
    var state: ScrollViewItemState
    var nameText: Option<string>
    var urlText: Option<string>
    var userText: Option<string>
    var passwordText: Option<string>
    /** The public OnStateChange and OnClick delegates; null until a caller sets them. */
    var onStateChange: Option<Callback>
    var onClick: Option<Callback>
    /** Invocations of OnStateChange, in order. */
    var stateNotifications: seq<StateCall>
    /** Invocations of OnClick, in order. */
    var clicks: seq<ClickCall>

    constructor ()
      ensures id == None && state == Default
      ensures onStateChange == None && onClick == None
      ensures stateNotifications == [] && clicks == []
    {
      id, state := None, Default;
      nameText, urlText, userText, passwordText := None, None, None, None;
      onStateChange, onClick := None, None;
      stateNotifications, clicks := [], [];
    }

    method SetAccount(info: AccountInfo)
      modifies this`id, this`nameText, this`urlText, this`userText, this`passwordText
      ensures id == info.id
      ensures nameText == info.name && urlText == info.url
      ensures userText == info.user && passwordText == info.password
    {
      id := info.id;
      nameText, urlText, userText, passwordText := info.name, info.url, info.user, info.password;
    }

    /** Stores a new state and notifies the listener, if any, once; the
        current state changes nothing. */
    method ChangeState(s: ScrollViewItemState)
      modifies this`state, this`stateNotifications
      ensures state == s
      ensures stateNotifications == old(stateNotifications) + (if s == old(state) then [] else StateHeard(onStateChange, s))
    {
      if state == s {
        return;
      }
      state := s;
      stateNotifications := stateNotifications + StateHeard(onStateChange, state);
    }

    method OnBeginDrag()
      modifies this`state, this`stateNotifications
      ensures state == BeginDrag
      ensures stateNotifications == old(stateNotifications) + (if old(state) == BeginDrag then [] else StateHeard(onStateChange, BeginDrag))
    {
      ChangeState(BeginDrag);
    }

    method OnDrag()
      modifies this`state, this`stateNotifications
      ensures state == Dragging
      ensures stateNotifications == old(stateNotifications) + (if old(state) == Dragging then [] else StateHeard(onStateChange, Dragging))
    {
      ChangeState(Dragging);
    }

    method OnEndDrag()
      modifies this`state, this`stateNotifications
      ensures state == EndDrag
      ensures stateNotifications == old(stateNotifications) + (if old(state) == EndDrag then [] else StateHeard(onStateChange, EndDrag))
    {
      ChangeState(EndDrag);
    }

    /** Reports the row's ID to the OnClick listener, if any, unless a drag
        is under way. */
    method OnPointerClick()
      modifies this`clicks
      ensures clicks == old(clicks) + (if ClickAllowed(state) then ClickHeard(onClick, id) else [])
    {
      if state == Default || state == EndDrag {
        clicks := clicks + ClickHeard(onClick, id);
      }
    }
  }

  /** A row shown for an account, given the listeners a caller attaches,
      then dragged and released: the click that the engine delivers during
      the drag is dropped, the one after the release reports the account's
      id to the click listener, and the state listener hears each drag
      state once. With neither listener attached nothing is called. */
  method ClickDuringAndAfterDrag(info: AccountInfo, stateListener: Option<Callback>, clickListener: Option<Callback>)
    returns (clicks: seq<ClickCall>, notified: seq<StateCall>)
    ensures clicks == ClickHeard(clickListener, info.id)
    ensures notified == StateHeard(stateListener, BeginDrag) + StateHeard(stateListener, Dragging)
                        + StateHeard(stateListener, EndDrag)
    ensures stateListener.None? && clickListener.None? ==> clicks == [] && notified == []
  {
    var row := new ScrollViewItemOperator();
    row.onStateChange, row.onClick := stateListener, clickListener;
    row.SetAccount(info);
    ghost var begin, drag := StateHeard(stateListener, BeginDrag), StateHeard(stateListener, Dragging);
    row.OnBeginDrag();
    row.OnPointerClick();
    assert row.clicks == [] && row.stateNotifications == begin;
    row.OnDrag();
    row.OnDrag();
    row.OnPointerClick();
    assert row.clicks == [] && row.stateNotifications == begin + drag;
    row.OnEndDrag();
    row.OnPointerClick();
    clicks, notified := row.clicks, row.stateNotifications;
  }
}
