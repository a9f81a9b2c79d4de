/** The dropdown menu of UI/Menu: MenuAnimation (a mask tween that slides the
    menu in and out), MenuOperator (the four-state machine Hidden ->
    Displaying -> Displayed -> Hiding -> Hidden, which rebuilds its item views
    only when its items changed and sizes itself from them) and MenuController
    (opens a menu type from the catalog, closes it, and keeps the modal
    backdrop active exactly while the menu is coming in or shown).

    Delegates between the three objects are modelled as results: a method of
    the operator returns the state it passed to its state-change listener, and
    the controller hands it to its own OnMenuStateChanged. The completion of the
    mask tween is the engine event `TweenCompleted`. */
module Menu {
  import opened Common

  datatype State = Displaying | Displayed | Hiding | Hidden

  datatype Vector4 = Vector4(x: real, y: real, z: real, w: real)

  const Zero4: Vector4 := Vector4(0.0, 0.0, 0.0, 0.0)

  /** The MenuType enum is not part of this model: a menu type is a tag. */
  type MenuType = nat

  /** MenuItem: the icon (a sprite) and text of one entry. */
  datatype MenuItem = MenuItem(icon: Option<Handle>, text: Option<string>)

  /** A MenuItems asset of the catalog: a prefab for the rows, the menu type
      and the entries. Compared by reference, as the source does. */
  class MenuItems {
    const prefab: Handle
    const menuType: MenuType
    const items: seq<MenuItem>

    constructor (prefab: Handle, menuType: MenuType, items: seq<MenuItem>)
      ensures this.prefab == prefab && this.menuType == menuType && this.items == items
    {
      this.prefab, this.menuType, this.items := prefab, menuType, items;
    }
  }

  /** One row built by CreateItem: the index its button reports, what it
      shows, its height and whether its separator line is visible. */
  datatype ItemView = ItemView(index: nat, icon: Option<Handle>, text: Option<string>,
                               height: real, lineShown: bool)

  /** The rows CreateAllItems builds for `list`. */
  function ItemViewsFor(list: seq<MenuItem>, itemHeight: real, displayLineInLast: bool): (r: seq<ItemView>)
    ensures |r| == |list|
    ensures forall i :: 0 <= i < |r| ==>
      && r[i].index == i && r[i].icon == list[i].icon && r[i].text == list[i].text
      && r[i].height == itemHeight
      && (r[i].lineShown <==> i < |list| - 1 || displayLineInLast)
  {
    seq(|list|, i requires 0 <= i < |list| =>
      ItemView(i, list[i].icon, list[i].text, itemHeight, !(i == |list| - 1 && !displayLineInLast)))
  }

  /** The total height of a column of rows. */
  function SumHeights(views: seq<ItemView>): real
  {
    if views == [] then 0.0 else SumHeights(views[..|views| - 1]) + views[|views| - 1].height
  }

  /** A column of rows of one height is that height times the number of rows. */
  lemma {:induction false} SumHeightsUniform(views: seq<ItemView>, h: real)
    requires forall i :: 0 <= i < |views| ==> views[i].height == h
    ensures SumHeights(views) == |views| as real * h
  {
    if views != [] {
      SumHeightsUniform(views[..|views| - 1], h);
      assert (|views| - 1) as real * h + h == |views| as real * h;
    }
  }

  /** The height formula of MenuOperator.ComputeSize. */
  function MenuHeight(arrowHeight: real, itemCount: nat, itemHeight: real,
                      topPadding: real, bottomPadding: real): real
  {
    arrowHeight + itemCount as real * itemHeight + topPadding + bottomPadding
  }

  /** The formula's height is exactly the arrow, the paddings and the rows
      that CreateAllItems builds for the same list. */
  lemma MenuHeightFitsRows(list: seq<MenuItem>, arrowHeight: real, itemHeight: real,
                           topPadding: real, bottomPadding: real, displayLineInLast: bool)
    ensures MenuHeight(arrowHeight, |list|, itemHeight, topPadding, bottomPadding)
         == arrowHeight + SumHeights(ItemViewsFor(list, itemHeight, displayLineInLast)) + topPadding + bottomPadding
  {
    SumHeightsUniform(ItemViewsFor(list, itemHeight, displayLineInLast), itemHeight);
  }

  class MenuAnimation {
    var duration: real
    var maskPadding: Vector4
    /** rectMask.padding */
    var padding: Vector4
    var isDoHide: bool
    /** End value and duration of the most recent tween. */
    var lastTarget: Vector4
    var lastDuration: real
    /** Tweens started and not completed yet (nothing kills an older one). */
    var inFlight: nat

    /** Awake, over a mask whose padding is `initialPadding`. */
    constructor (initialPadding: Vector4)
      ensures duration == 0.0 && maskPadding == Zero4 && padding == initialPadding
      ensures !isDoHide && inFlight == 0
    {
      duration, maskPadding, padding := 0.0, Zero4, initialPadding;
      isDoHide, lastTarget, lastDuration, inFlight := false, Zero4, 0.0, 0;
    }

    /** The mask will hide the whole height of the menu. */
    method SetMaskPadding(menuSize: SizeF)
      modifies this
      ensures maskPadding == Vector4(0.0, menuSize.height, 0.0, 0.0) && padding == maskPadding
      ensures duration == old(duration) && isDoHide == old(isDoHide)
      ensures lastTarget == old(lastTarget) && lastDuration == old(lastDuration) && inFlight == old(inFlight)
    {
      maskPadding := Vector4(0.0, menuSize.height, 0.0, 0.0);
      padding := maskPadding;
    }

    method SetDuration(d: real)
      modifies this
      ensures duration == d
      ensures maskPadding == old(maskPadding) && padding == old(padding) && isDoHide == old(isDoHide)
      ensures lastTarget == old(lastTarget) && lastDuration == old(lastDuration) && inFlight == old(inFlight)
    {
      duration := d;
    }

    /** Starts a new tween of the padding to `end` with the current duration;
        there is no guard against a tween already running. */
    method Play(end: Vector4)
      modifies this
      ensures lastTarget == end && lastDuration == duration && inFlight == old(inFlight) + 1
      ensures duration == old(duration) && maskPadding == old(maskPadding)
      ensures padding == old(padding) && isDoHide == old(isDoHide)
    {
      lastTarget, lastDuration := end, duration;
      inFlight := inFlight + 1;
    }

    /** Uncovers the menu: tweens the padding to zero. */
    method Show()
      modifies this
      ensures !isDoHide && lastTarget == Zero4 && lastDuration == duration
      ensures inFlight == old(inFlight) + 1
      ensures duration == old(duration) && maskPadding == old(maskPadding) && padding == old(padding)
    {
      isDoHide := false;
      Play(Zero4);
    }

    /** Covers the menu: tweens the padding back to the stored mask padding. */
    method Hide()
      modifies this
      ensures isDoHide && lastTarget == maskPadding && lastDuration == duration
      ensures inFlight == old(inFlight) + 1
      ensures duration == old(duration) && maskPadding == old(maskPadding) && padding == old(padding)
    {
      isDoHide := true;
      Play(maskPadding);
    }

    /** Engine event: a tween finished. Fires OnHidden exactly when the last
        request was Hide, OnDisplayed otherwise; `hidden` tells which. */
    method OnTweenCompleted() returns (hidden: bool)
      requires inFlight > 0
      modifies this
      ensures hidden == isDoHide
      ensures inFlight == old(inFlight) - 1
      ensures padding == if old(inFlight) == 1 then lastTarget else old(padding)
      ensures duration == old(duration) && maskPadding == old(maskPadding) && isDoHide == old(isDoHide)
      ensures lastTarget == old(lastTarget) && lastDuration == old(lastDuration)
    {
      if inFlight == 1 {
        padding := lastTarget;
      }
      inFlight := inFlight - 1;
      hidden := isDoHide;
    }
  }

  class MenuOperator {
    const anim: MenuAnimation
    const menuWidth: real
    const itemHeight: real
    const displayLineInLast: bool
    const arrowHeight: real
    const fadeDuration: real
    const contentTopPadding: real
    const contentBottomPadding: real

    var menuItemChanged: bool
    var menuItems: MenuItems?
    var onItemClick: Option<Callback>
    var onStateChange: Option<Callback>
    var state: State
    /** Whether the arrow and the content are active (SetMenuActive). */
    var active: bool
    /** The rows under the content area. */
    var items: seq<ItemView>
    /** How many times the rows were rebuilt (RemoveAllItems + CreateAllItems). */
    var rebuilds: nat
    /** The size of the menu root. */
    var size: SizeF

    ghost predicate Valid()
      reads this, anim
    {
      && (menuItems == null ==> !menuItemChanged && items == [])
      && (menuItems != null ==> |menuItems.items| > 0)
      && (menuItems != null && !menuItemChanged ==>
            items == ItemViewsFor(menuItems.items, itemHeight, displayLineInLast))
      && (active <==> state != Hidden)
      && anim.inFlight <= 1
      && (state == Hidden || state == Displayed ==> anim.inFlight == 0)
      && (state == Hiding ==> anim.inFlight == 1 && anim.isDoHide)
      && (state == Displaying && anim.inFlight == 1 ==> !anim.isDoHide)
    }

    /** What the state-change listener receives when the state becomes `s`. */
    function Notice(s: State): Option<State>
      reads this`onStateChange
    {
      if onStateChange.Some? then Some(s) else None
    }

    /** Awake and Start: the menu starts Hidden with its arrow and content
        inactive. */
    constructor (menuWidth: real, itemHeight: real, displayLineInLast: bool, arrowHeight: real,
                 fadeDuration: real, contentTopPadding: real, contentBottomPadding: real,
                 initialSize: SizeF, initialPadding: Vector4)
      ensures Valid() && fresh(anim)
      ensures state == Hidden && !active
      ensures menuItems == null && !menuItemChanged && items == [] && rebuilds == 0
      ensures onItemClick == None && onStateChange == None
      ensures this.menuWidth == menuWidth && this.itemHeight == itemHeight
      ensures this.displayLineInLast == displayLineInLast && this.arrowHeight == arrowHeight
      ensures this.fadeDuration == fadeDuration
      ensures this.contentTopPadding == contentTopPadding && this.contentBottomPadding == contentBottomPadding
    {
      anim := new MenuAnimation(initialPadding);
      this.menuWidth, this.itemHeight, this.displayLineInLast := menuWidth, itemHeight, displayLineInLast;
      this.arrowHeight, this.fadeDuration := arrowHeight, fadeDuration;
      this.contentTopPadding, this.contentBottomPadding := contentTopPadding, contentBottomPadding;
      menuItemChanged, menuItems := false, null;
      onItemClick, onStateChange := None, None;
      state, active, items, rebuilds, size := Hidden, false, [], 0, initialSize;
    }

    /** Stores a new non-empty item list and marks the rows for rebuilding;
        null, an empty list and the list already stored change nothing. */
    method SetItems(list: MenuItems?) returns (self: MenuOperator)
      requires Valid()
      modifies this
      ensures Valid() && self == this
      ensures list == null || |list.items| == 0 || list == old(menuItems) ==> unchanged(this)
      ensures !(list == null || |list.items| == 0 || list == old(menuItems)) ==>
        && menuItems == list && menuItemChanged
        && state == old(state) && active == old(active) && items == old(items)
        && rebuilds == old(rebuilds) && size == old(size)
        && onItemClick == old(onItemClick) && onStateChange == old(onStateChange)
    {
      self := this;
      if list == null || |list.items| == 0 {
        return;
      }
      if menuItems == list {
        return;
      }
      menuItems := list;
      menuItemChanged := true;
    }

    method SetClickListener(callback: Option<Callback>) returns (self: MenuOperator)
      requires Valid()
      modifies this
      ensures Valid() && self == this && onItemClick == callback
      ensures onStateChange == old(onStateChange) && state == old(state) && active == old(active)
      ensures menuItems == old(menuItems) && menuItemChanged == old(menuItemChanged)
      ensures items == old(items) && rebuilds == old(rebuilds) && size == old(size)
    {
      onItemClick := callback;
      self := this;
    }

    method SetStateChangeListener(callback: Option<Callback>) returns (self: MenuOperator)
      requires Valid()
      modifies this
      ensures Valid() && self == this && onStateChange == callback
      ensures onItemClick == old(onItemClick) && state == old(state) && active == old(active)
      ensures menuItems == old(menuItems) && menuItemChanged == old(menuItemChanged)
      ensures items == old(items) && rebuilds == old(rebuilds) && size == old(size)
    {
      onStateChange := callback;
      self := this;
    }

    /** Stores the new state and returns what the listener is told. */
    method ChangeState(newState: State) returns (sent: Option<State>)
      modifies this`state
      ensures state == newState && sent == Notice(newState)
    {
      state := newState;
      sent := Notice(state);
    }

    /** Hide when Displayed, Show when Hidden, nothing while animating. */
    method Toggle() returns (sent: Option<State>)
      requires Valid()
      modifies this, anim
      ensures Valid()
      ensures old(state) == Displaying || old(state) == Hiding ==> unchanged(this, anim) && sent == None
      ensures old(state) == Displayed ==>
        && state == Hiding && sent == Notice(Hiding) && active
        && anim.isDoHide && anim.inFlight == 1
        && anim.lastTarget == anim.maskPadding && anim.lastDuration == anim.duration
        && anim.maskPadding == old(anim.maskPadding) && anim.duration == old(anim.duration)
        && menuItems == old(menuItems) && menuItemChanged == old(menuItemChanged)
        && items == old(items) && rebuilds == old(rebuilds) && size == old(size)
        && onItemClick == old(onItemClick) && onStateChange == old(onStateChange)
      ensures old(state) == Hidden ==>
        && state == Displaying && active && sent == Notice(Displaying)
        && !menuItemChanged && menuItems == old(menuItems)
        && rebuilds == old(rebuilds) + (if old(menuItemChanged) then 1 else 0)
        && onItemClick == old(onItemClick) && onStateChange == old(onStateChange)
      ensures old(state) == Hidden && menuItems != null ==>
        && items == ItemViewsFor(menuItems.items, itemHeight, displayLineInLast)
        && size == SizeF(menuWidth, arrowHeight + SumHeights(items) + contentTopPadding + contentBottomPadding)
        && anim.maskPadding == Vector4(0.0, size.height, 0.0, 0.0)
        && anim.duration == fadeDuration && !anim.isDoHide && anim.inFlight == 1
        && anim.lastTarget == Zero4 && anim.lastDuration == fadeDuration
      ensures old(state) == Hidden && menuItems == null ==>
        items == [] && size == old(size) && unchanged(anim)
    {
      sent := None;
      match state
      case Displayed =>
        sent := Hide();
      case Hidden =>
        sent := Show();
      case Displaying =>
      case Hiding =>
    }

    /** From Hidden only: becomes Displaying, activates, rebuilds the rows if
        the items changed, sizes the menu to its rows and starts the uncover
        tween. Without any items ComputeSize throws after the state change,
        so the menu is left Displaying with no tween. */
    method Show() returns (sent: Option<State>)
      requires Valid()
      modifies this, anim
      ensures Valid()
      ensures old(state) != Hidden ==> unchanged(this, anim) && sent == None
      ensures old(state) == Hidden ==>
        && state == Displaying && active && sent == Notice(Displaying)
        && !menuItemChanged && menuItems == old(menuItems)
        && rebuilds == old(rebuilds) + (if old(menuItemChanged) then 1 else 0)
        && onItemClick == old(onItemClick) && onStateChange == old(onStateChange)
      ensures old(state) == Hidden && menuItems != null ==>
        && items == ItemViewsFor(menuItems.items, itemHeight, displayLineInLast)
        && size == SizeF(menuWidth, arrowHeight + SumHeights(items) + contentTopPadding + contentBottomPadding)
        && anim.maskPadding == Vector4(0.0, size.height, 0.0, 0.0)
        && anim.duration == fadeDuration && !anim.isDoHide && anim.inFlight == 1
        && anim.lastTarget == Zero4 && anim.lastDuration == fadeDuration
      ensures old(state) == Hidden && menuItems == null ==>
        items == [] && size == old(size) && unchanged(anim)
    {
      sent := None;
      if state != Hidden {
        return;
      }
      sent := ChangeState(Displaying);
      active := true;
      RebuildIfChanged();
      if menuItems == null {
        return;
      }
      Uncover();
    }

    /** The rows are rebuilt from the stored list exactly when they are
        marked, and the mark is cleared. */
    method RebuildIfChanged()
      requires menuItemChanged ==> menuItems != null
      modifies this`menuItemChanged, this`items, this`rebuilds
      ensures !menuItemChanged
      ensures old(menuItemChanged) ==>
        && items == ItemViewsFor(menuItems.items, itemHeight, displayLineInLast)
        && rebuilds == old(rebuilds) + 1
      ensures !old(menuItemChanged) ==> items == old(items) && rebuilds == old(rebuilds)
    {
      if menuItemChanged {
        menuItemChanged := false;
        RemoveAllItems();
        CreateAllItems();
        rebuilds := rebuilds + 1;
      }
    }

    /** Sizes the menu to its rows and tweens the mask open over
        fadeDuration. */
    method Uncover()
      requires menuItems != null && !menuItemChanged
      requires items == ItemViewsFor(menuItems.items, itemHeight, displayLineInLast)
      modifies this`size, anim
      ensures size == SizeF(menuWidth, arrowHeight + SumHeights(items) + contentTopPadding + contentBottomPadding)
      ensures anim.maskPadding == Vector4(0.0, size.height, 0.0, 0.0)
      ensures anim.duration == fadeDuration && !anim.isDoHide && anim.inFlight == old(anim.inFlight) + 1
      ensures anim.lastTarget == Zero4 && anim.lastDuration == fadeDuration
    {
      var menuSize := ComputeSize();
      anim.SetMaskPadding(menuSize);
      anim.SetDuration(fadeDuration);
      anim.Show();
    }

    /** From Displayed only: becomes Hiding and starts the cover tween. */
    method Hide() returns (sent: Option<State>)
      requires Valid()
      modifies this, anim
      ensures Valid()
      ensures old(state) != Displayed ==> unchanged(this, anim) && sent == None
      ensures old(state) == Displayed ==>
        && state == Hiding && sent == Notice(Hiding) && active
        && anim.isDoHide && anim.inFlight == 1
        && anim.lastTarget == anim.maskPadding && anim.lastDuration == anim.duration
        && anim.maskPadding == old(anim.maskPadding) && anim.duration == old(anim.duration)
        && menuItems == old(menuItems) && menuItemChanged == old(menuItemChanged)
        && items == old(items) && rebuilds == old(rebuilds) && size == old(size)
        && onItemClick == old(onItemClick) && onStateChange == old(onStateChange)
    {
      sent := None;
      if state != Displayed {
        return;
      }
      sent := ChangeState(Hiding);
      anim.Hide();
    }

    /** Sizes the menu root: the fixed width, and the height formula. */
    method ComputeSize() returns (menuSize: SizeF)
      requires menuItems != null && items == ItemViewsFor(menuItems.items, itemHeight, displayLineInLast)
      modifies this`size
      ensures menuSize == size == SizeF(menuWidth, arrowHeight + SumHeights(items) + contentTopPadding + contentBottomPadding)
      ensures menuSize.height == MenuHeight(arrowHeight, |menuItems.items|, itemHeight, contentTopPadding, contentBottomPadding)
    {
      var menuHeight := MenuHeight(arrowHeight, |menuItems.items|, itemHeight, contentTopPadding, contentBottomPadding);
      MenuHeightFitsRows(menuItems.items, arrowHeight, itemHeight, contentTopPadding, contentBottomPadding, displayLineInLast);
      size := SizeF(menuWidth, menuHeight);
      menuSize := size;
    }

    /** Builds one row per item, in order; only the last may hide its line. */
    method CreateAllItems()
      requires menuItems != null
      modifies this`items
      ensures items == old(items) + ItemViewsFor(menuItems.items, itemHeight, displayLineInLast)
    {
      var list := menuItems.items;
      var itemCount := |list|;
      ghost var views := ItemViewsFor(list, itemHeight, displayLineInLast);
      for i := 0 to itemCount
        invariant items == old(items) + views[..i]
      {
        CreateItem(i, list[i], itemCount == i + 1);
        assert views[..i + 1] == views[..i] + [views[i]];
      }
      assert views[..itemCount] == views;
    }

    method CreateItem(index: nat, mi: MenuItem, isLast: bool)
      modifies this`items
      ensures items == old(items) + [ItemView(index, mi.icon, mi.text, itemHeight, !(isLast && !displayLineInLast))]
    {
      items := items + [ItemView(index, mi.icon, mi.text, itemHeight, !(isLast && !displayLineInLast))];
    }

    method RemoveAllItems()
      modifies this`items
      ensures items == []
    {
      items := [];
    }

    /** The button of row `k` was clicked: the click listener receives the
        row's index. */
    method ClickItem(k: nat) returns (sent: Option<int>)
      requires k < |items|
      ensures sent == if onItemClick.Some? then Some(items[k].index as int) else None
    {
      sent := if onItemClick.Some? then Some(items[k].index as int) else None;
    }

    method OnDisplayed() returns (sent: Option<State>)
      modifies this`state
      ensures state == Displayed && sent == Notice(Displayed)
    {
      sent := ChangeState(Displayed);
    }

    method OnHidden() returns (sent: Option<State>)
      modifies this`state, this`active
      ensures state == Hidden && !active && sent == Notice(Hidden)
    {
      sent := ChangeState(Hidden);
      active := false;
    }

    /** Engine event: the mask tween finished. A menu coming in becomes
        Displayed; a menu going out becomes Hidden and inactive. */
    method TweenCompleted() returns (sent: Option<State>)
      requires Valid() && anim.inFlight > 0
      modifies this, anim
      ensures Valid()
      ensures old(state) == Displaying ==> state == Displayed && active && sent == Notice(Displayed)
      ensures old(state) == Hiding ==> state == Hidden && !active && sent == Notice(Hidden)
      ensures anim.inFlight == 0 && anim.padding == old(anim.lastTarget)
      ensures anim.maskPadding == old(anim.maskPadding) && anim.duration == old(anim.duration)
      ensures menuItems == old(menuItems) && menuItemChanged == old(menuItemChanged)
      ensures items == old(items) && rebuilds == old(rebuilds) && size == old(size)
      ensures onItemClick == old(onItemClick) && onStateChange == old(onStateChange)
    {
      var hidden := anim.OnTweenCompleted();
      if hidden {
        sent := OnHidden();
      } else {
        sent := OnDisplayed();
      }
    }
  }

  /** MenuParameter: the menu type to open and the per-item callback.
      Compared by reference, as the source does. */
  class MenuParameter {
    const menuType: MenuType
    const onClickItem: Option<Callback>

    constructor (menuType: MenuType, onClickItem: Option<Callback>)
      ensures this.menuType == menuType && this.onClickItem == onClickItem
    {
      this.menuType, this.onClickItem := menuType, onClickItem;
    }
  }

  /** A call of a caller's item callback, with the state the menu was in
      when it ran. */
  datatype ItemCall = ItemCall(callback: Callback, index: int, menuState: State)

  /** The controller's own handlers, as registered on the operator. */
  const StateChangeHandler: Callback := 0
  const ItemClickHandler: Callback := 1

  class MenuController {
    const op: MenuOperator
    const menus: map<MenuType, MenuItems>
    var menuParameter: MenuParameter?
    /** Whether the modal backdrop is active. */
    var modalActive: bool
    /** Item callbacks of callers, in the order they ran. */
    var itemCalls: seq<ItemCall>

    ghost predicate Valid()
      reads this, op, op.anim
    {
      && op.Valid()
      && op.onStateChange == Some(StateChangeHandler)
      && op.onItemClick == Some(ItemClickHandler)
      && (modalActive <==> op.state == Displaying || op.state == Displayed)
      && (op.menuItems != null ==> menuParameter != null)
    }

    /** Start: the listeners are registered and the backdrop is inactive. */
    constructor (menus: map<MenuType, MenuItems>, menuWidth: real, itemHeight: real,
                 displayLineInLast: bool, arrowHeight: real, fadeDuration: real,
                 contentTopPadding: real, contentBottomPadding: real)
      ensures Valid() && fresh(op) && fresh(op.anim)
      ensures this.menus == menus && menuParameter == null && !modalActive && itemCalls == []
      ensures op.state == Hidden && op.menuItems == null && op.items == [] && op.rebuilds == 0
      ensures op.menuWidth == menuWidth && op.itemHeight == itemHeight
      ensures op.displayLineInLast == displayLineInLast && op.arrowHeight == arrowHeight
      ensures op.fadeDuration == fadeDuration
      ensures op.contentTopPadding == contentTopPadding && op.contentBottomPadding == contentBottomPadding
    {
      var o := new MenuOperator(menuWidth, itemHeight, displayLineInLast, arrowHeight, fadeDuration,
                                contentTopPadding, contentBottomPadding, SizeF(0.0, 0.0), Zero4);
      var self := o.SetStateChangeListener(Some(StateChangeHandler));
      self := o.SetClickListener(Some(ItemClickHandler));
      op := o;
      this.menus := menus;
      menuParameter := null;
      modalActive := false;
      itemCalls := [];
    }

    /** The backdrop follows the menu: on while it comes in, off when it
        starts going out. */
    method OnMenuStateChanged(state: State)
      modifies this
      ensures modalActive == if state == Displaying then true
                             else if state == Hiding then false
                             else old(modalActive)
      ensures menuParameter == old(menuParameter) && itemCalls == old(itemCalls)
    {
      if state == Displaying {
        modalActive := true;
      } else if state == Hiding {
        modalActive := false;
      }
    }

    method Dispatch(sent: Option<State>)
      modifies this
      ensures sent.Some? ==> modalActive == if sent.value == Displaying then true
                                           else if sent.value == Hiding then false
                                           else old(modalActive)
      ensures sent.None? ==> unchanged(this)
      ensures menuParameter == old(menuParameter) && itemCalls == old(itemCalls)
    {
      if sent.Some? {
        OnMenuStateChanged(sent.value);
      }
    }

    /** The operator's Show followed by the controller's reaction to the
        state it reports. */
    method ShowOperator()
      requires Valid()
      modifies this, op, op.anim
      ensures Valid()
      ensures menuParameter == old(menuParameter) && itemCalls == old(itemCalls)
      ensures op.menuItems == old(op.menuItems)
      ensures old(op.state) != Hidden ==> unchanged(this, op, op.anim)
      ensures old(op.state) == Hidden ==>
        && op.state == Displaying && modalActive && !op.menuItemChanged
        && op.rebuilds == old(op.rebuilds) + (if old(op.menuItemChanged) then 1 else 0)
      ensures old(op.state) == Hidden && op.menuItems != null ==>
        && op.items == ItemViewsFor(op.menuItems.items, op.itemHeight, op.displayLineInLast)
        && op.size == SizeF(op.menuWidth, MenuHeight(op.arrowHeight, |op.menuItems.items|,
                              op.itemHeight, op.contentTopPadding, op.contentBottomPadding))
        && op.anim.inFlight == 1
    {
      var sent := op.Show();
      Dispatch(sent);
      if op.menuItems != null {
        MenuHeightFitsRows(op.menuItems.items, op.arrowHeight, op.itemHeight,
                           op.contentTopPadding, op.contentBottomPadding, op.displayLineInLast);
      }
    }

    /** Opens the menu for `param`. Null is ignored; the parameter already
        open only shows again; a type missing from the catalog is ignored;
        otherwise the parameter is remembered and its catalog items are
        passed to the operator before it shows. */
    method Open(param: MenuParameter?)
      requires Valid()
      modifies this, op, op.anim
      ensures Valid()
      ensures itemCalls == old(itemCalls)
      ensures param == null ==> unchanged(this, op, op.anim)
      ensures param != null && param != old(menuParameter) && param.menuType !in menus ==>
        unchanged(this, op, op.anim)
      ensures param != null && param == old(menuParameter) ==>
        menuParameter == old(menuParameter) && op.menuItems == old(op.menuItems)
      ensures param != null && param != old(menuParameter) && param.menuType in menus ==>
        && menuParameter == param
        && op.menuItems == (if |menus[param.menuType].items| == 0 then old(op.menuItems)
                            else menus[param.menuType])
      ensures param != null && (param == old(menuParameter) || param.menuType in menus) ==>
        && (old(op.state) == Hidden ==>
              && op.state == Displaying && modalActive && !op.menuItemChanged
              && op.rebuilds == old(op.rebuilds) +
                   (if old(op.menuItemChanged) || op.menuItems != old(op.menuItems) then 1 else 0)
              && (op.menuItems != null ==>
                    && op.items == ItemViewsFor(op.menuItems.items, op.itemHeight, op.displayLineInLast)
                    && op.size == SizeF(op.menuWidth, MenuHeight(op.arrowHeight, |op.menuItems.items|,
                                          op.itemHeight, op.contentTopPadding, op.contentBottomPadding))
                    && op.anim.inFlight == 1))
        && (old(op.state) != Hidden ==>
              && op.state == old(op.state) && op.items == old(op.items) && op.rebuilds == old(op.rebuilds)
              && op.menuItemChanged == (old(op.menuItemChanged) || op.menuItems != old(op.menuItems))
              && unchanged(op.anim) && modalActive == old(modalActive))
    {
      if param == null {
        return;
      }
      if menuParameter == param {
        ShowOperator();
        return;
      }
      if param.menuType !in menus {
        return;
      }
      var items := menus[param.menuType];
      menuParameter := param;
      var self := op.SetItems(items);
      ShowOperator();
    }

    /** Asks the operator to hide; only a Displayed menu starts going out. */
    method Close()
      requires Valid()
      modifies this, op, op.anim
      ensures Valid()
      ensures menuParameter == old(menuParameter) && itemCalls == old(itemCalls)
      ensures old(op.state) != Displayed ==> unchanged(this, op, op.anim)
      ensures old(op.state) == Displayed ==>
        && op.state == Hiding && !modalActive && op.anim.isDoHide && op.anim.inFlight == 1
        && op.items == old(op.items) && op.menuItems == old(op.menuItems)
        && op.menuItemChanged == old(op.menuItemChanged) && op.rebuilds == old(op.rebuilds)
    {
      var sent := op.Hide();
      Dispatch(sent);
    }

    /** A click on the backdrop closes the menu. */
    method OnModalClicked()
      requires Valid()
      modifies this, op, op.anim
      ensures Valid()
      ensures menuParameter == old(menuParameter) && itemCalls == old(itemCalls)
      ensures old(op.state) != Displayed ==> unchanged(this, op, op.anim)
      ensures old(op.state) == Displayed ==>
        && op.state == Hiding && !modalActive && op.anim.isDoHide && op.anim.inFlight == 1
        && op.items == old(op.items) && op.menuItems == old(op.menuItems)
        && op.menuItemChanged == old(op.menuItemChanged) && op.rebuilds == old(op.rebuilds)
    {
      Close();
    }

    /** The operator reported a click on the row with `index`: close first,
        then run the caller's callback with that index. */
    method OnMenuItemClicked(index: int)
      requires Valid() && menuParameter != null
      modifies this, op, op.anim
      ensures Valid()
      ensures menuParameter == old(menuParameter)
      ensures old(op.state) == Displayed ==> op.state == Hiding && !modalActive
      ensures old(op.state) != Displayed ==> unchanged(op, op.anim) && modalActive == old(modalActive)
      ensures itemCalls == old(itemCalls) +
        (if menuParameter.onClickItem.Some? then [ItemCall(menuParameter.onClickItem.value, index, op.state)] else [])
    {
      Close();
      if menuParameter.onClickItem.Some? {
        itemCalls := itemCalls + [ItemCall(menuParameter.onClickItem.value, index, op.state)];
      }
    }

    /** The button of row `k` was clicked (the engine only delivers clicks
        to an active menu). */
    method ClickItem(k: nat)
      requires Valid() && k < |op.items| && op.active
      modifies this, op, op.anim
      ensures Valid()
      ensures menuParameter == old(menuParameter) && menuParameter != null
      ensures old(op.state) == Displayed ==> op.state == Hiding && !modalActive
      ensures old(op.state) != Displayed ==> unchanged(op, op.anim) && modalActive == old(modalActive)
      ensures itemCalls == old(itemCalls) +
        (if menuParameter.onClickItem.Some?
         then [ItemCall(menuParameter.onClickItem.value, old(op.items)[k].index, op.state)] else [])
    {
      var sent := op.ClickItem(k);
      OnMenuItemClicked(sent.value);
    }

    /** Engine event: the menu's mask tween finished. */
    method TweenCompleted()
      requires Valid() && op.anim.inFlight > 0
      modifies this, op, op.anim
      ensures Valid()
      ensures menuParameter == old(menuParameter) && itemCalls == old(itemCalls)
      ensures old(op.state) == Displaying ==> op.state == Displayed && modalActive
      ensures old(op.state) == Hiding ==> op.state == Hidden && !modalActive && !op.active
      ensures op.items == old(op.items) && op.menuItems == old(op.menuItems) && op.rebuilds == old(op.rebuilds)
      ensures op.menuItemChanged == old(op.menuItemChanged) && op.size == old(op.size)
    {
      var sent := op.TweenCompleted();
      Dispatch(sent);
    }
  }

  /** Showing the same parameter again never rebuilds the rows: open, let it
      come in, open again (dropped), close, let it go out and open again;
      the rows were built once and the menu is shown with the backdrop on,
      and after closing it the backdrop is off. */
  method ReopenSameMenu(list: seq<MenuItem>, t: MenuType, callback: Option<Callback>)
    returns (rebuilds: nat, state: State, modalWhileShown: bool, modalAfterClose: bool)
    requires |list| > 0
    ensures rebuilds == 1 && state == Displayed
    ensures modalWhileShown && !modalAfterClose
  {
    var catalog := new MenuItems(0, t, list);
    var controller := new MenuController(map[t := catalog], 200.0, 80.0, false, 20.0, 0.2, 10.0, 10.0);
    var param := new MenuParameter(t, callback);
    controller.Open(param);
    controller.TweenCompleted();
    controller.Open(param);
    controller.Close();
    controller.TweenCompleted();
    controller.Open(param);
    controller.TweenCompleted();
    rebuilds, state, modalWhileShown := controller.op.rebuilds, controller.op.state, controller.modalActive;
    controller.OnModalClicked();
    controller.TweenCompleted();
    modalAfterClose := controller.modalActive;
  }

  /** Opening another menu type while one is shown: the new items are
      stored but the show is dropped, so the shown rows stay those of the
      first type; after the menu goes out, opening the new type again
      rebuilds the rows from it and sizes the menu for its item count. */
  method SwitchMenuType(profile: seq<MenuItem>, settings: seq<MenuItem>, p: MenuType, s: MenuType)
    returns (shownWhileOpen: seq<ItemView>, shownAfter: seq<ItemView>, rebuilds: nat, height: real)
    requires |profile| > 0 && |settings| > 0 && p != s
    ensures shownWhileOpen == ItemViewsFor(profile, 80.0, false)
    ensures shownAfter == ItemViewsFor(settings, 80.0, false)
    ensures rebuilds == 2
    ensures height == 20.0 + |settings| as real * 80.0 + 10.0 + 10.0
  {
    var profileItems := new MenuItems(0, p, profile);
    var settingsItems := new MenuItems(1, s, settings);
    var controller := new MenuController(map[p := profileItems, s := settingsItems],
                                         200.0, 80.0, false, 20.0, 0.2, 10.0, 10.0);
    var first := new MenuParameter(p, None);
    var second := new MenuParameter(s, None);
    controller.Open(first);
    controller.TweenCompleted();
    controller.Open(second);
    shownWhileOpen := controller.op.items;
    controller.Close();
    controller.TweenCompleted();
    controller.Open(second);
    shownAfter, rebuilds := controller.op.items, controller.op.rebuilds;
    height := controller.op.size.height;
  }
}
