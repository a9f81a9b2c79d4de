/** The alert dialogs of UI: AlertOperator (one dialog: its id, texts, two
    buttons and the fly-in animator) and AlertController (the registry of
    live dialogs, keyed by a fresh id per dialog).

    The operator's OnHidden event, to which Open subscribes a closure that
    disposes the dialog's own id, is the controller's `TweenCompleted(k)`:
    the engine event of dialog k's tween, followed by what the subscription
    does. Callbacks of callers are recorded in the order they run, together
    with the hide requests, in `events`. */
module Alert {
  import opened Common
  import opened FlyIn

  /** A call of a UnityAction<string>: the delegate and the id passed to it. */
  datatype IdCall = IdCall(callback: Callback, id: Option<string>)

  class AlertOperator {
    const fly: FlyInTweener
    var id: Option<string>
    var title: Option<string>
    var content: Option<string>
    var okText: Option<string>
    var cancelText: Option<string>
    var okCallback: Option<Callback>
    var cancelCallback: Option<Callback>
    /** Handlers attached to the buttons' onClick events. */
    var okHandlers: nat
    var cancelHandlers: nat

    /** Awake over a prefab whose dialog root sits at `initialPosition`. */
    constructor (initialPosition: Vector2)
      ensures fresh(fly) && fly.position == initialPosition && fly.from == initialPosition
      ensures fly.tween == Tween(false, false) && fly.duration == DefaultFlyInDuration
      ensures id == None && okCallback == None && cancelCallback == None
      ensures okHandlers == 0 && cancelHandlers == 0
      ensures title == None && content == None && okText == None && cancelText == None
    {
      fly := new FlyInTweener(initialPosition);
      id, title, content, okText, cancelText := None, None, None, None, None;
      okCallback, cancelCallback, okHandlers, cancelHandlers := None, None, 0, 0;
    }

    /** Replaces the ok callback; the button ends with exactly one handler. */
    method SetOkListener(callback: Option<Callback>) returns (self: AlertOperator)
      modifies this`okCallback, this`okHandlers
      ensures self == this && okCallback == callback && okHandlers == 1
    {
      okCallback := callback;
      okHandlers := 0;
      okHandlers := okHandlers + 1;
      self := this;
    }

    /** Replaces the cancel callback; the button ends with exactly one handler. */
    method SetCancelListener(callback: Option<Callback>) returns (self: AlertOperator)
      modifies this`cancelCallback, this`cancelHandlers
      ensures self == this && cancelCallback == callback && cancelHandlers == 1
    {
      cancelCallback := callback;
      cancelHandlers := 0;
      cancelHandlers := cancelHandlers + 1;
      self := this;
    }

    method SetId(dialogId: Option<string>) returns (self: AlertOperator)
      modifies this`id
      ensures self == this && id == dialogId
    {
      id := dialogId;
      self := this;
    }

    method SetTitle(text: Option<string>) returns (self: AlertOperator)
      modifies this`title
      ensures self == this && title == text
    {
      title := text;
      self := this;
    }

    method SetContent(text: Option<string>) returns (self: AlertOperator)
      modifies this`content
      ensures self == this && content == text
    {
      content := text;
      self := this;
    }

    method SetOkText(text: Option<string>) returns (self: AlertOperator)
      modifies this`okText
      ensures self == this && okText == text
    {
      okText := text;
      self := this;
    }

    method SetCancelText(text: Option<string>) returns (self: AlertOperator)
      modifies this`cancelText
      ensures self == this && cancelText == text
    {
      cancelText := text;
      self := this;
    }

    /** Flies the dialog in from `direct` (dropped while the tween plays). */
    method Show(direct: FlyInDirection, duration: real)
      modifies fly
      ensures old(fly.tween.playing) ==> unchanged(fly)
      ensures !old(fly.tween.playing) ==>
        && fly.position == StartOffset(direct, old(fly.position)) && fly.from == fly.position
        && fly.duration == duration && fly.ease == InOutBounce && fly.tween == Tween(true, false)
    {
      var started := fly.Show(direct, duration);
    }

    /** Flies the dialog out the way it came (dropped while the tween plays). */
    method Hide()
      modifies fly
      ensures old(fly.tween.playing) ==> unchanged(fly)
      ensures !old(fly.tween.playing) ==>
        && fly.tween == Tween(true, true) && fly.ease == OutCubic
        && fly.position == old(fly.position) && fly.from == old(fly.from) && fly.duration == old(fly.duration)
    {
      var started := fly.Hide();
    }

    /** The ok button was clicked: the stored callback, if any, receives the
        stored id. */
    method OnClickOk() returns (call: Option<IdCall>)
      ensures okCallback.None? <==> call.None?
      ensures call.Some? ==> call.value == IdCall(okCallback.value, id)
    {
      call := if okCallback.Some? then Some(IdCall(okCallback.value, id)) else None;
    }

    /** The cancel button was clicked: the stored callback, if any, receives
        the stored id. */
    method OnClickCancel() returns (call: Option<IdCall>)
      ensures cancelCallback.None? <==> call.None?
      ensures call.Some? ==> call.value == IdCall(cancelCallback.value, id)
    {
      call := if cancelCallback.Some? then Some(IdCall(cancelCallback.value, id)) else None;
    }

    /** Engine event: the tween finished; `hidden` is true when OnHidden
        fires (the tween ran backwards) and false when OnShown fires. */
    method OnTweenCompleted() returns (hidden: bool)
      requires fly.tween.playing
      modifies fly
      ensures hidden == old(fly.tween.backwards) && fly.tween == Tween(false, hidden)
      ensures fly.position == if hidden then fly.from else Centre
      ensures fly.from == old(fly.from) && fly.duration == old(fly.duration) && fly.ease == old(fly.ease)
    {
      hidden := fly.Complete();
    }
  }

  /** AlertDialogInfo: one registry entry. Dispose nulls everything but
      the id. */
  class AlertDialogInfo {
    const id: string
    var modal: Option<Handle>
    var alert: Option<Handle>
    var okCallback: Option<Callback>
    var cancelCallback: Option<Callback>
    var op: AlertOperator?

    constructor (id: string, modal: Handle, alert: Handle)
      ensures this.id == id && this.modal == Some(modal) && this.alert == Some(alert)
      ensures okCallback == None && cancelCallback == None && op == null
    {
      this.id := id;
      this.modal, this.alert := Some(modal), Some(alert);
      okCallback, cancelCallback, op := None, None, null;
    }

    method Dispose()
      modifies this
      ensures modal == None && alert == None && okCallback == None && cancelCallback == None && op == null
    {
      modal, alert := None, None;
      okCallback, cancelCallback := None, None;
      op := null;
    }
  }

  /** AlertDialogParameter, read-only to the controller. */
  datatype AlertDialogParameter = AlertDialogParameter(
    flyInDirection: FlyInDirection, flyInDuration: real,
    title: Option<string>, content: Option<string>,
    okText: Option<string>, cancelText: Option<string>,
    okCallback: Option<Callback>, cancelCallback: Option<Callback>)

  /** What the controller did, in order: a caller's callback ran, or Hide was
      requested of the dialog with the id. */
  datatype AlertEvent = CallbackRan(callback: Callback) | HideRequested(id: string)

  /** The controller's own OnClickOk and OnClickCancel, as registered on
      each operator. */
  const OkHandler: Callback := 0
  const CancelHandler: Callback := 1

  /** List.FindIndex by id: the first position holding `id`, or -1. */
  function FindIndex(dialogs: seq<AlertDialogInfo>, id: string): (r: int)
    ensures -1 <= r < |dialogs|
    ensures r >= 0 ==> dialogs[r].id == id && forall j :: 0 <= j < r ==> dialogs[j].id != id
    ensures r < 0 <==> forall j :: 0 <= j < |dialogs| ==> dialogs[j].id != id
  {
    if dialogs == [] then -1
    else if dialogs[0].id == id then 0
    else
      var r := FindIndex(dialogs[1..], id);
      if r < 0 then -1 else r + 1
  }

  /** List.RemoveAt: drops position k and keeps the order of the rest. */
  function RemoveAt<T>(s: seq<T>, k: nat): (r: seq<T>)
    requires k < |s|
    ensures |r| == |s| - 1
    ensures forall j :: 0 <= j < k ==> r[j] == s[j]
    ensures forall j :: k <= j < |r| ==> r[j] == s[j + 1]
  {
    s[..k] + s[k + 1..]
  }

  /** RemoveAt loses exactly the one element at position k. */
  lemma RemoveAtMultiset<T>(s: seq<T>, k: nat)
    requires k < |s|
    ensures multiset(RemoveAt(s, k)) + multiset{s[k]} == multiset(s)
  {
    assert s == s[..k] + [s[k]] + s[k + 1..];
  }

  /** Ids are distinct along the list. */
  ghost predicate DistinctIds(dialogs: seq<AlertDialogInfo>)
  {
    forall i, j :: 0 <= i < j < |dialogs| ==> dialogs[i].id != dialogs[j].id
  }

  /** With distinct ids, removing the entry found for `id` removes that id
      and nothing else: every other entry stays, in its order. */
  lemma RemoveFoundEntry(dialogs: seq<AlertDialogInfo>, id: string)
    requires DistinctIds(dialogs) && FindIndex(dialogs, id) >= 0
    ensures var r := RemoveAt(dialogs, FindIndex(dialogs, id));
      && DistinctIds(r)
      && FindIndex(r, id) < 0
      && (forall d :: d in dialogs && d.id != id ==> d in r)
      && (forall d :: d in r ==> d in dialogs)
  {
    var k := FindIndex(dialogs, id);
    var r := RemoveAt(dialogs, k);
    forall d | d in dialogs && d.id != id
      ensures d in r
    {
      var i :| 0 <= i < |dialogs| && dialogs[i] == d;
      if i < k {
        assert r[i] == d;
      } else {
        assert i != k;
        assert r[i - 1] == d;
      }
    }
  }

  /** An entry as Open leaves it: wired to the controller, with both of its
      game objects alive. */
  ghost predicate Wired(d: AlertDialogInfo, live: set<Handle>)
    reads d, d.op
  {
    && d.op != null
    && d.op.id == Some(d.id)
    && d.op.okCallback == Some(OkHandler) && d.op.cancelCallback == Some(CancelHandler)
    && d.modal.Some? && d.alert.Some? && d.modal != d.alert
    && d.modal.value in live && d.alert.value in live
  }

  /** Two entries share no id, operator, animator or game object. */
  ghost predicate Apart(d: AlertDialogInfo, e: AlertDialogInfo)
    reads d, e
  {
    && d.id != e.id && d.op != e.op
    && (d.op != null && e.op != null ==> d.op.fly != e.op.fly)
    && d.modal != e.modal && d.modal != e.alert && d.alert != e.modal && d.alert != e.alert
  }

  /** Removing entry k (and destroying its two objects) keeps every other
      entry wired and all of them apart. */
  lemma UnlistKeeps(ds: seq<AlertDialogInfo>, k: nat, live: set<Handle>)
    requires k < |ds| && ds[k].modal.Some? && ds[k].alert.Some?
    requires forall i :: 0 <= i < |ds| ==> Wired(ds[i], live)
    requires forall i, j :: 0 <= i < j < |ds| ==> Apart(ds[i], ds[j])
    ensures var r := RemoveAt(ds, k);
      && (forall i :: 0 <= i < |r| ==> Wired(r[i], live - {ds[k].modal.value, ds[k].alert.value}))
      && (forall i, j :: 0 <= i < j < |r| ==> Apart(r[i], r[j]))
  {
    var r := RemoveAt(ds, k);
    var gone := {ds[k].modal.value, ds[k].alert.value};
    forall i | 0 <= i < |r|
      ensures Wired(r[i], live - gone)
    {
      var j := if i < k then i else i + 1;
      assert r[i] == ds[j];
      if j < k {
        assert Apart(ds[j], ds[k]);
      } else {
        assert Apart(ds[k], ds[j]);
      }
      assert Wired(ds[j], live);
    }
    forall i, j | 0 <= i < j < |r|
      ensures Apart(r[i], r[j])
    {
      var i' := if i < k then i else i + 1;
      var j' := if j < k then j else j + 1;
      assert r[i] == ds[i'] && r[j] == ds[j'];
      assert Apart(ds[i'], ds[j']);
    }
  }

  /** The registry invariant over explicit state: every entry and its
      operator are in `repr`, every entry is wired to live
      objects, entries are pairwise apart, active objects are live and
      every live handle has been handed out. */
  ghost predicate Registry(ds: seq<AlertDialogInfo>, live: set<Handle>, active: set<Handle>,
                           nextHandle: nat, repr: set<object>)
    reads repr
  {
    && (forall i :: 0 <= i < |ds| ==>
          ds[i] in repr && ds[i].op in repr && ds[i].op != null)
    && (forall i :: 0 <= i < |ds| ==> Wired(ds[i], live))
    && (forall i, j :: 0 <= i < j < |ds| ==> Apart(ds[i], ds[j]))
    && active <= live
    && (forall h :: h in live ==> h < nextHandle)
  }

  /** Removing entry k, together with its operator, and destroying its two
      objects keeps the registry invariant, and the removed id can no longer
      be found. */
  lemma RegistryAfterUnlist(ds: seq<AlertDialogInfo>, k: nat, live: set<Handle>, active: set<Handle>,
                            nextHandle: nat, repr: set<object>, kept: set<object>)
    requires Registry(ds, live, active, nextHandle, repr) && k < |ds|
    requires kept == repr - {ds[k], ds[k].op}
    ensures var gone := {ds[k].modal.value, ds[k].alert.value};
      && Registry(RemoveAt(ds, k), live - gone, active - gone, nextHandle, kept)
      && FindIndex(RemoveAt(ds, k), ds[k].id) < 0
  {
    assert Wired(ds[k], live);
    ApartFromOthers(ds, k);
    assert FindIndex(ds, ds[k].id) == k;
    RemoveFoundEntry(ds, ds[k].id);
    UnlistKeeps(ds, k, live);
    KeptHoldsRest(ds, k, repr, kept);
  }

  /** Entries pairwise apart: entry k shares its id and its operator with
      no other entry. */
  lemma ApartFromOthers(ds: seq<AlertDialogInfo>, k: nat)
    requires k < |ds| && forall i, j :: 0 <= i < j < |ds| ==> Apart(ds[i], ds[j])
    ensures forall j :: 0 <= j < |ds| && j != k ==> ds[j].id != ds[k].id && ds[j].op != ds[k].op
  {
    forall j | 0 <= j < |ds| && j != k
      ensures ds[j].id != ds[k].id && ds[j].op != ds[k].op
    {
      if j < k {
        assert Apart(ds[j], ds[k]);
      } else {
        assert Apart(ds[k], ds[j]);
      }
    }
  }

  /** Once entry k and its operator leave `repr`, every remaining entry
      and its operator are still held. */
  lemma KeptHoldsRest(ds: seq<AlertDialogInfo>, k: nat, repr: set<object>, kept: set<object>)
    requires k < |ds| && kept == repr - {ds[k], ds[k].op}
    requires forall i :: 0 <= i < |ds| ==> ds[i] in repr && ds[i].op in repr && ds[i].op != null
    requires forall j :: 0 <= j < |ds| && j != k ==> ds[j].id != ds[k].id && ds[j].op != ds[k].op
    ensures var r := RemoveAt(ds, k);
      forall i :: 0 <= i < |r| ==> r[i] in kept && r[i].op in kept && r[i].op != null
  {
    var r := RemoveAt(ds, k);
    forall i | 0 <= i < |r|
      ensures r[i] in kept && r[i].op in kept && r[i].op != null
    {
      assert r[i] == ds[if i < k then i else i + 1];
    }
  }

  /** Appending a new entry wired to two new handles, with an id no entry
      has and objects the registry does not hold, keeps the registry
      invariant. */
  lemma RegistryAfterAppend(ds: seq<AlertDialogInfo>, d: AlertDialogInfo, live: set<Handle>,
                            active: set<Handle>, nextHandle: nat, repr: set<object>)
    requires Registry(ds, live, active, nextHandle, repr)
    requires forall i :: 0 <= i < |ds| ==> ds[i].id != d.id
    requires d !in repr && d.op != null && d.op !in repr
    requires forall i :: 0 <= i < |ds| ==> ds[i].op != null && ds[i].op.fly != d.op.fly
    requires d.modal == Some(nextHandle) && d.alert == Some(nextHandle + 1)
    requires Wired(d, live + {nextHandle, nextHandle + 1})
    ensures Registry(ds + [d], live + {nextHandle, nextHandle + 1}, active + {nextHandle, nextHandle + 1},
                     nextHandle + 2, repr + {d, d.op})
  {
    var r := ds + [d];
    var live' := live + {nextHandle, nextHandle + 1};
    forall i | 0 <= i < |r|
      ensures Wired(r[i], live')
    {
      if i < |ds| {
        assert r[i] == ds[i] && Wired(ds[i], live);
      }
    }
    forall i, j | 0 <= i < j < |r|
      ensures Apart(r[i], r[j])
    {
      if j < |ds| {
        assert r[i] == ds[i] && r[j] == ds[j];
      } else {
        assert r[i] == ds[i] && r[j] == d && Wired(ds[i], live);
      }
    }
  }

  class AlertController {
    const defaultOkText: string
    const defaultCancelText: string
    const defaultFlyInDirection: FlyInDirection
    const defaultFlyInDuration: real
    /** Where the alert prefab's dialog root sits when instantiated. */
    const prefabPosition: Vector2
    var alertDialogs: seq<AlertDialogInfo>
    /** Instantiated and not yet destroyed modal and alert objects. */
    var live: set<Handle>
    /** Those of them whose game object is active. */
    var active: set<Handle>
    var nextHandle: nat
    var events: seq<AlertEvent>
    ghost var Repr: set<object>

    ghost predicate Valid()
      reads this, Repr
    {
      && this in Repr
      && Registry(alertDialogs, live, active, nextHandle, Repr - {this})
    }

    /** The defaults of the inspector: "Ok", "Cancel", FromBottom and
        DefaultFlyInDuration in the shipped component. */
    constructor (defaultOkText: string, defaultCancelText: string,
                 defaultFlyInDirection: FlyInDirection, defaultFlyInDuration: real,
                 prefabPosition: Vector2)
      ensures Valid() && fresh(Repr)
      ensures this.defaultOkText == defaultOkText && this.defaultCancelText == defaultCancelText
      ensures this.defaultFlyInDirection == defaultFlyInDirection
      ensures this.defaultFlyInDuration == defaultFlyInDuration && this.prefabPosition == prefabPosition
      ensures alertDialogs == [] && live == {} && active == {} && events == [] && nextHandle == 0
    {
      this.defaultOkText, this.defaultCancelText := defaultOkText, defaultCancelText;
      this.defaultFlyInDirection, this.defaultFlyInDuration := defaultFlyInDirection, defaultFlyInDuration;
      this.prefabPosition := prefabPosition;
      alertDialogs, live, active, nextHandle, events := [], {}, {}, 0, [];
      Repr := {this};
    }

    /** The direction Open flies in from: the parameter's unless it is None. */
    function DirectionFor(param: AlertDialogParameter): (r: FlyInDirection)
      reads this
      ensures param.flyInDirection.NoDirection? ==> r == defaultFlyInDirection
      ensures !param.flyInDirection.NoDirection? ==> r == param.flyInDirection
    {
      if param.flyInDirection.NoDirection? then defaultFlyInDirection else param.flyInDirection
    }

    /** The duration Open flies in with: the parameter's when positive. */
    function DurationFor(param: AlertDialogParameter): (r: real)
      reads this
      ensures param.flyInDuration > 0.0 ==> r == param.flyInDuration
      ensures param.flyInDuration <= 0.0 ==> r == defaultFlyInDuration
    {
      if param.flyInDuration > 0.0 then param.flyInDuration else defaultFlyInDuration
    }

    /** Instantiates an inactive modal and an inactive alert (whose operator
        runs Awake) and appends a new entry for them under `freshId`. */
    method Create(freshId: string) returns (info: AlertDialogInfo, component: AlertOperator)
      modifies this`alertDialogs, this`live, this`nextHandle
      ensures fresh(info) && fresh(component) && fresh(component.fly)
      ensures info.id == freshId && info.op == null
      ensures info.modal == Some(old(nextHandle)) && info.alert == Some(old(nextHandle) + 1)
      ensures info.okCallback == None && info.cancelCallback == None
      ensures component.fly.position == prefabPosition && component.fly.tween == Tween(false, false)
      ensures component.id == None && component.okCallback == None && component.cancelCallback == None
      ensures alertDialogs == old(alertDialogs) + [info]
      ensures live == old(live) + {old(nextHandle), old(nextHandle) + 1}
      ensures nextHandle == old(nextHandle) + 2
    {
      var modal := nextHandle;
      var alert := nextHandle + 1;
      nextHandle := nextHandle + 2;
      live := live + {modal, alert};
      component := new AlertOperator(prefabPosition);
      info := new AlertDialogInfo(freshId, modal, alert);
      alertDialogs := alertDialogs + [info];
    }

    /** Opens a new dialog and returns its id: exactly one entry is
        appended, carrying the parameter's callbacks; the texts fall back to
        the defaults when null or empty, the direction when None and the
        duration when not positive; the dialog starts flying in and its
        modal and alert become active. */
    method Open(param: AlertDialogParameter, freshId: string) returns (id: string)
      requires Valid()
      requires forall i :: 0 <= i < |alertDialogs| ==> alertDialogs[i].id != freshId
      modifies this
      ensures Valid() && old(Repr) <= Repr && fresh(Repr - old(Repr))
      ensures id == freshId && events == old(events)
      ensures |alertDialogs| == |old(alertDialogs)| + 1
      ensures alertDialogs[..|old(alertDialogs)|] == old(alertDialogs)
      ensures var d := alertDialogs[|alertDialogs| - 1];
        && fresh(d) && fresh(d.op) && fresh(d.op.fly) && d.id == id
        && d.okCallback == param.okCallback && d.cancelCallback == param.cancelCallback
        && d.op.title == param.title && d.op.content == param.content
        && d.op.okText == Some(OrDefault(param.okText, defaultOkText))
        && d.op.cancelText == Some(OrDefault(param.cancelText, defaultCancelText))
        && d.op.okHandlers == 1 && d.op.cancelHandlers == 1
        && d.op.fly.tween == Tween(true, false)
        && d.op.fly.from == StartOffset(DirectionFor(param), prefabPosition)
        && d.op.fly.duration == DurationFor(param)
        && d.modal == Some(old(nextHandle)) && d.alert == Some(old(nextHandle) + 1)
        && nextHandle == old(nextHandle) + 2
        && d.modal.value !in old(live) && d.alert.value !in old(live)
        && live == old(live) + {d.modal.value, d.alert.value}
        && active == old(active) + {d.modal.value, d.alert.value}
    {
      ghost var ds, repr := alertDialogs, Repr - {this};
      var info, component := Create(freshId);
      Wire(info, component, param);
      assert Registry(ds, old(live), old(active), old(nextHandle), repr);
      RegistryAfterAppend(ds, info, old(live), old(active), old(nextHandle), repr);
      active, Repr := active + {info.modal.value, info.alert.value}, Repr + {info, component};
      assert Repr - {this} == repr + {info, component};
      assert alertDialogs == ds + [info];
      id := info.id;
    }

    /** The part of Open that sets up a new entry and its operator: the
        entry keeps the caller's callbacks, the operator is configured and
        starts flying in. */
    method Wire(info: AlertDialogInfo, component: AlertOperator, param: AlertDialogParameter)
      modifies info, component, component.fly
      ensures info.op == component && info.modal == old(info.modal) && info.alert == old(info.alert)
      ensures info.okCallback == param.okCallback && info.cancelCallback == param.cancelCallback
      ensures component.id == Some(info.id)
      ensures component.title == param.title && component.content == param.content
      ensures component.okText == Some(OrDefault(param.okText, defaultOkText))
      ensures component.cancelText == Some(OrDefault(param.cancelText, defaultCancelText))
      ensures component.okCallback == Some(OkHandler) && component.cancelCallback == Some(CancelHandler)
      ensures component.okHandlers == 1 && component.cancelHandlers == 1
      ensures old(component.fly.tween.playing) ==> unchanged(component.fly)
      ensures !old(component.fly.tween.playing) ==>
        && component.fly.tween == Tween(true, false)
        && component.fly.from == StartOffset(DirectionFor(param), old(component.fly.position))
        && component.fly.duration == DurationFor(param)
    {
      info.okCallback := param.okCallback;
      info.cancelCallback := param.cancelCallback;
      info.op := component;
      Configure(component, info.id, param);
      component.Show(DirectionFor(param), DurationFor(param));
    }

    /** The chained setters of Open on a new operator: its id, texts and the
        controller's two handlers. */
    method Configure(component: AlertOperator, id: string, param: AlertDialogParameter)
      modifies component
      ensures component.id == Some(id)
      ensures component.title == param.title && component.content == param.content
      ensures component.okText == Some(OrDefault(param.okText, defaultOkText))
      ensures component.cancelText == Some(OrDefault(param.cancelText, defaultCancelText))
      ensures component.okCallback == Some(OkHandler) && component.cancelCallback == Some(CancelHandler)
      ensures component.okHandlers == 1 && component.cancelHandlers == 1
    {
      var self := component.SetId(Some(id));
      self := component.SetTitle(param.title);
      self := component.SetContent(param.content);
      self := component.SetOkText(Some(OrDefault(param.okText, defaultOkText)));
      self := component.SetCancelText(Some(OrDefault(param.cancelText, defaultCancelText)));
      self := component.SetOkListener(Some(OkHandler));
      self := component.SetCancelListener(Some(CancelHandler));
    }

    /** Requests Hide of entry k's operator and nothing else. */
    method RequestHide(k: nat)
      requires Valid() && k < |alertDialogs|
      modifies this`events, alertDialogs[k].op.fly
      ensures Valid()
      ensures events == old(events) + [HideRequested(alertDialogs[k].id)]
      ensures var f := alertDialogs[k].op.fly;
        && (old(f.tween.playing) ==> unchanged(f))
        && (!old(f.tween.playing) ==> f.tween == Tween(true, true) && f.from == old(f.from))
    {
      events := events + [HideRequested(alertDialogs[k].id)];
      alertDialogs[k].op.Hide();
    }

    /** Close(id): an unknown id changes nothing; a known id requests Hide
        of that dialog only. */
    method Close(id: string)
      requires Valid()
      modifies this`events, if FindIndex(alertDialogs, id) >= 0 then {alertDialogs[FindIndex(alertDialogs, id)].op.fly} else {}
      ensures Valid()
      ensures FindIndex(alertDialogs, id) < 0 ==> events == old(events)
      ensures FindIndex(alertDialogs, id) >= 0 ==>
        var k := FindIndex(alertDialogs, id);
        var f := alertDialogs[k].op.fly;
        && events == old(events) + [HideRequested(id)]
        && (!old(f.tween.playing) ==> f.tween == Tween(true, true))
        && (old(f.tween.playing) ==> unchanged(f))
    {
      var k := FindIndex(alertDialogs, id);
      if k >= 0 {
        RequestHide(k);
      }
    }

    /** OnClickOk(id): for a known id, the dialog's ok callback runs (when
        present) and then Hide is requested of it; an unknown id does
        nothing. */
    method OnClickOk(id: string)
      requires Valid()
      modifies this`events, if FindIndex(alertDialogs, id) >= 0 then {alertDialogs[FindIndex(alertDialogs, id)].op.fly} else {}
      ensures Valid()
      ensures FindIndex(alertDialogs, id) < 0 ==> events == old(events)
      ensures FindIndex(alertDialogs, id) >= 0 ==>
        var k := FindIndex(alertDialogs, id);
        var d := alertDialogs[k];
        && events == old(events)
             + (if d.okCallback.Some? then [CallbackRan(d.okCallback.value)] else [])
             + [HideRequested(id)]
        && (!old(d.op.fly.tween.playing) ==> d.op.fly.tween == Tween(true, true))
        && (old(d.op.fly.tween.playing) ==> unchanged(d.op.fly))
    {
      var k := FindIndex(alertDialogs, id);
      if k >= 0 {
        var d := alertDialogs[k];
        if d.okCallback.Some? {
          events := events + [CallbackRan(d.okCallback.value)];
        }
        RequestHide(k);
      }
    }

    /** OnClickCancel(id): as OnClickOk with the cancel callback. */
    method OnClickCancel(id: string)
      requires Valid()
      modifies this`events, if FindIndex(alertDialogs, id) >= 0 then {alertDialogs[FindIndex(alertDialogs, id)].op.fly} else {}
      ensures Valid()
      ensures FindIndex(alertDialogs, id) < 0 ==> events == old(events)
      ensures FindIndex(alertDialogs, id) >= 0 ==>
        var k := FindIndex(alertDialogs, id);
        var d := alertDialogs[k];
        && events == old(events)
             + (if d.cancelCallback.Some? then [CallbackRan(d.cancelCallback.value)] else [])
             + [HideRequested(id)]
        && (!old(d.op.fly.tween.playing) ==> d.op.fly.tween == Tween(true, true))
        && (old(d.op.fly.tween.playing) ==> unchanged(d.op.fly))
    {
      var k := FindIndex(alertDialogs, id);
      if k >= 0 {
        var d := alertDialogs[k];
        if d.cancelCallback.Some? {
          events := events + [CallbackRan(d.cancelCallback.value)];
        }
        RequestHide(k);
      }
    }

    /** The ok button of dialog k was clicked: its operator calls the
        controller's OnClickOk with the dialog's id. */
    method ClickOk(k: nat)
      requires Valid() && k < |alertDialogs|
      modifies this`events, alertDialogs[k].op.fly
      ensures Valid()
      ensures var d := alertDialogs[k];
        && events == old(events)
             + (if d.okCallback.Some? then [CallbackRan(d.okCallback.value)] else [])
             + [HideRequested(d.id)]
        && (!old(d.op.fly.tween.playing) ==> d.op.fly.tween == Tween(true, true))
        && (old(d.op.fly.tween.playing) ==> unchanged(d.op.fly))
    {
      var call := alertDialogs[k].op.OnClickOk();
      FindOwnIndex(k);
      OnClickOk(call.value.id.value);
    }

    /** The cancel button of dialog k was clicked. */
    method ClickCancel(k: nat)
      requires Valid() && k < |alertDialogs|
      modifies this`events, alertDialogs[k].op.fly
      ensures Valid()
      ensures var d := alertDialogs[k];
        && events == old(events)
             + (if d.cancelCallback.Some? then [CallbackRan(d.cancelCallback.value)] else [])
             + [HideRequested(d.id)]
        && (!old(d.op.fly.tween.playing) ==> d.op.fly.tween == Tween(true, true))
        && (old(d.op.fly.tween.playing) ==> unchanged(d.op.fly))
    {
      var call := alertDialogs[k].op.OnClickCancel();
      FindOwnIndex(k);
      OnClickCancel(call.value.id.value);
    }

    /** In a valid registry, looking up entry k's id finds entry k. */
    lemma FindOwnIndex(k: nat)
      requires Valid() && k < |alertDialogs|
      ensures FindIndex(alertDialogs, alertDialogs[k].id) == k
    {
      forall j | 0 <= j < |alertDialogs| && j != k
        ensures alertDialogs[j].id != alertDialogs[k].id
      {
        if j < k {
          assert Apart(alertDialogs[j], alertDialogs[k]);
        } else {
          assert Apart(alertDialogs[k], alertDialogs[j]);
        }
      }
    }

    /** Dispose(id): an unknown id changes nothing; a known id removes that
        entry (the others keep their order), destroys its modal and alert and
        nulls the entry's fields. */
    method Dispose(id: string)
      requires Valid()
      modifies this, if FindIndex(alertDialogs, id) >= 0 then {alertDialogs[FindIndex(alertDialogs, id)]} else {}
      ensures Valid() && events == old(events)
      ensures FindIndex(old(alertDialogs), id) < 0 ==> unchanged(this)
      ensures FindIndex(old(alertDialogs), id) >= 0 ==>
        var k := FindIndex(old(alertDialogs), id);
        var d := old(alertDialogs)[k];
        && Repr == old(Repr) - {d, old(d.op)}
        && alertDialogs == RemoveAt(old(alertDialogs), k)
        && FindIndex(alertDialogs, id) < 0
        && live == old(live) - {old(d.modal.value), old(d.alert.value)}
        && active == old(active) - {old(d.modal.value), old(d.alert.value)}
        && d.modal == None && d.alert == None && d.op == null
        && d.okCallback == None && d.cancelCallback == None
    {
      var k := FindIndex(alertDialogs, id);
      if k < 0 {
        return;
      }
      var dialog := alertDialogs[k];
      Unlist(k);
      dialog.Dispose();
    }

    /** RemoveAt(k) and the destruction of entry k's modal and alert. */
    method Unlist(k: nat)
      requires Valid() && k < |alertDialogs|
      modifies this`alertDialogs, this`live, this`active, this`Repr
      ensures Valid() && Repr == old(Repr) - {old(alertDialogs)[k], old(alertDialogs)[k].op}
      ensures alertDialogs == RemoveAt(old(alertDialogs), k)
      ensures FindIndex(alertDialogs, old(alertDialogs)[k].id) < 0
      ensures live == old(live) - {old(alertDialogs)[k].modal.value, old(alertDialogs)[k].alert.value}
      ensures active == old(active) - {old(alertDialogs)[k].modal.value, old(alertDialogs)[k].alert.value}
    {
      var dialog := alertDialogs[k];
      ghost var kept := Repr - {this} - {dialog, dialog.op};
      RegistryAfterUnlist(alertDialogs, k, live, active, nextHandle, Repr - {this}, kept);
      var modal, alert := dialog.modal.value, dialog.alert.value;
      alertDialogs, live, active := RemoveAt(alertDialogs, k), live - {modal, alert}, active - {modal, alert};
      Repr := Repr - {dialog, dialog.op};
      assert Repr - {this} == kept;
    }

    /** Engine event: dialog k's tween finished. A finished fly-out fires
        OnHidden, whose subscription disposes exactly this dialog's id; a
        finished fly-in leaves the registry as it is. */
    method TweenCompleted(k: nat)
      requires Valid() && k < |alertDialogs| && alertDialogs[k].op.fly.tween.playing
      modifies this, alertDialogs[k], alertDialogs[k].op.fly
      ensures Valid() && events == old(events)
      ensures var d := old(alertDialogs[k]);
        var f := old(alertDialogs[k].op.fly);
        && f.tween == Tween(false, old(f.tween.backwards))
        && (old(f.tween.backwards) ==>
              && Repr == old(Repr) - {d, old(d.op)}
              && alertDialogs == RemoveAt(old(alertDialogs), k)
              && FindIndex(alertDialogs, d.id) < 0
              && live == old(live) - {old(d.modal).value, old(d.alert).value}
              && d.op == null)
        && (!old(f.tween.backwards) ==>
              && Repr == old(Repr) && alertDialogs == old(alertDialogs) && live == old(live)
              && unchanged(d) && f.position == Centre)
    {
      var d := alertDialogs[k];
      var hidden := d.op.OnTweenCompleted();
      if hidden {
        FindOwnIndex(k);
        Dispose(d.id);
      }
    }
  }

  /** A new controller with two dialogs opened in turn, both flying in. */
  method OpenTwo(a: AlertDialogParameter, b: AlertDialogParameter, idA: string, idB: string)
    returns (c: AlertController)
    requires idA != idB
    ensures fresh(c) && fresh(c.Repr) && c.Valid() && c.events == []
    ensures |c.alertDialogs| == 2 && c.live == {0, 1, 2, 3}
    ensures var first := c.alertDialogs[0];
      && first.id == idA && first.okCallback == a.okCallback
      && first.modal == Some(0) && first.alert == Some(1)
      && fresh(first.op.fly) && first.op.fly.tween == Tween(true, false)
    ensures c.alertDialogs[1].id == idB
  {
    c := new AlertController("Ok", "Cancel", FromBottom, DefaultFlyInDuration, Centre);
    var x := c.Open(a, idA);
    ghost var first := c.alertDialogs[0];
    assert c.live == {0, 1} && first.op.fly.tween.playing;
    var y := c.Open(b, idB);
    assert c.alertDialogs[0] == first;
  }

  /** Two dialogs open; the first is confirmed once it has arrived and then
      flies out: the ok callback runs before the hide request, and only the
      second dialog is left, with the first one's objects destroyed. */
  method ConfirmFirstOfTwo(a: AlertDialogParameter, b: AlertDialogParameter, idA: string, idB: string)
    returns (events: seq<AlertEvent>, remaining: seq<string>, liveCount: nat)
    requires idA != idB && a.okCallback.Some?
    ensures events == [CallbackRan(a.okCallback.value), HideRequested(idA)]
    ensures remaining == [idB]
    ensures liveCount == 2
  {
    var c := OpenTwo(a, b, idA, idB);
    ghost var first, second := c.alertDialogs[0], c.alertDialogs[1];
    c.TweenCompleted(0);
    assert c.alertDialogs == [first, second] && c.events == [];
    c.ClickOk(0);
    assert c.events == [CallbackRan(a.okCallback.value), HideRequested(idA)];
    assert first.modal == Some(0) && first.alert == Some(1) && c.live == {0, 1, 2, 3};
    c.TweenCompleted(0);
    assert c.alertDialogs == [second] && c.live == {2, 3};
    events := c.events;
    remaining := [c.alertDialogs[0].id];
    liveCount := |c.live|;
  }

  /** A click on ok while the dialog is still flying in: the callback runs,
      but the hide is dropped, so the dialog stays; a second click runs the
      callback again and this time the dialog leaves. */
  method OkDuringFlyIn(param: AlertDialogParameter, id: string)
    returns (events: seq<AlertEvent>, stillOpen: bool, closedAfter: bool)
    requires param.okCallback.Some?
    ensures var cb := param.okCallback.value;
      events == [CallbackRan(cb), HideRequested(id), CallbackRan(cb), HideRequested(id)]
    ensures stillOpen && closedAfter
  {
    ghost var cb := param.okCallback.value;
    var c := new AlertController("Ok", "Cancel", FromBottom, DefaultFlyInDuration, Centre);
    var x := c.Open(param, id);
    ghost var d := c.alertDialogs[0];
    assert d.okCallback == param.okCallback && d.id == id && c.events == [];
    c.ClickOk(0);
    ghost var once := [CallbackRan(cb), HideRequested(id)];
    assert c.events == once && d.op.fly.tween == Tween(true, false);
    c.TweenCompleted(0);
    assert c.alertDialogs == [d] && d.okCallback == param.okCallback;
    stillOpen := |c.alertDialogs| == 1;
    c.ClickOk(0);
    assert c.events == once + once;
    c.TweenCompleted(0);
    closedAfter := c.alertDialogs == [];
    events := c.events;
  }
}
