# Overlay UI lifecycle, in Dafny

This project models the lifecycle bookkeeping of a Unity app's overlay UI and proves properties of it. The parts modelled are:

- the dropdown menu of `UI/Menu`: an operator with four states, a mask animation and a controller that opens menu types from a catalog;
- the alert dialogs of `UI`: a registry of live dialogs keyed by id, and the fly-in animator shared by both AlertOperator classes;
- the resizing alert of `UI/Dialog`;
- the legacy single add/quit menu of `UI`;
- the toast;
- the `IntervalPerFrame` ticker;
- the drag state machine of a scroll-view row.

Objects whose fields the C# code updates in place become Dafny classes with `modifies` clauses. The pure size formulas become functions.

The animation engine is abstracted:

- A DOTween tweener is the pair `Tween(playing, backwards)`.
- The end of an animation is an explicit engine-event method that requires a tween to be playing.

Unity calls are replaced:

- Each instantiated game object is a `Handle` (a natural number) in a `live` set.
- `SetActive` is an `active` set or flag.
- `SetText` stores an `Option<string>`.
- The text's preferred size is a parameter of each step that reads it.

C# delegates are modelled in one of two ways:

- A delegate from an operator to its controller is the result of the operator's method, passed by the controller to its own handler.
- A caller's callback is an opaque `Callback`, and a delegate field a caller may leave null is an `Option<Callback>`. The calls that run are appended in order to a log field (`events`, `itemCalls`, `stateNotifications`, `clicks`). A `?.Invoke` on a null delegate appends nothing.

One Unity frame is one `Tick`/`Frame` call. A coroutine runs to its first `yield` inside `StartCoroutine`. Floats are reals; `Mathf.Ceil` and `Mathf.Clamp` are exact.

Modules follow the source files:

| module | file | models |
|---|---|---|
| `Common` | `common.dfy` | shared types, the reference resolution, `Maths.Near`, `Ceil`, `Clamp`, the fly-in start offsets, default text substitution |
| `Ticker` | `ticker.dfy` | `IntervalPerFrame` |
| `ScrollView` | `scroll_view.dfy` | `ScrollViewItemOperator` |
| `Menu` | `menu.dfy` | `MenuAnimation`, `MenuOperator` and `MenuController` of `UI/Menu` |
| `FlyIn` | `fly_in.dfy` | the fly-in tweener shared by both `AlertOperator` classes |
| `Alert` | `alert.dfy` | `UI/AlertOperator` and `UI/AlertController` |
| `DialogAlert` | `dialog_alert.dfy` | `UI/Dialog/AlertOperator`: its layout and its resize ticker |
| `LegacyMenu` | `legacy_menu.dfy` | `UI/MenuOperator` and `UI/MenuController` |
| `Toast` | `toast.dfy` | `UI/Dialog/ToastOperator` and `UI/ToastController` |

Some methods have no `modifies` clause and build a fresh controller, such as `Menu.SwitchMenuType` and `Alert.ConfirmFirstOfTwo`. They are end-to-end scenarios: each one runs a sequence of the modelled operations and states the whole outcome.

## Model

| member | source | states |
|---|---|---|
| Common.Abs | Assets/Scripts/Common/Helper/Maths.cs:31-34 | the distance `Near` compares is non-negative and is `x` or `-x` |
| Common.Ceil | Assets/Scripts/UI/Dialog/AlertOperator.cs:249-253 | `Mathf.Ceil` yields a whole number no smaller than `x` and less than `x + 1` |
| Common.Clamp | Assets/Scripts/UI/Dialog/AlertOperator.cs:249-253 | `Mathf.Clamp` stays within the bounds when they are ordered, returns a value inside them unchanged, and otherwise returns one of the bounds |
| Common.ClampShift | Assets/Scripts/UI/Dialog/AlertOperator.cs:249-253 | clamping commutes with shifting the value and both bounds by the same amount |
| Common.CeilUnique | Assets/Scripts/UI/Dialog/AlertOperator.cs:249-253 | the ceiling is the only whole number in `[x, x + 1)` |
| Common.CeilShiftWhole | Assets/Scripts/UI/Dialog/AlertOperator.cs:249-253 | shifting by a whole number commutes with rounding up |
| Common.StartOffset | Assets/Scripts/UI/AlertOperator.cs:152-159 | the start position of each direction over the 1080 x 1920 reference resolution: (-W,0), (W,0), (0,H), (0,-H); `None` keeps the current position |
| Common.StartOffsetOffScreen | Assets/Scripts/UI/AlertOperator.cs:152-159 | every real direction starts the dialog a full reference extent from the centre, and two different directions start it in different places |
| Common.OrDefault | Assets/Scripts/UI/AlertController.cs:98-99 | a null or empty text is replaced by the default, and any other text is kept |
| Ticker.IntervalPerFrame.constructor | Assets/Scripts/Common/Helper/IntervalPerFrame.cs:20-28 | a new ticker is idle, with no callback and no runs |
| Ticker.IntervalPerFrame.SetTimes | Assets/Scripts/Common/Helper/IntervalPerFrame.cs:30-34 | stores the count, changes no other field, and returns the same ticker |
| Ticker.IntervalPerFrame.SetCallback | Assets/Scripts/Common/Helper/IntervalPerFrame.cs:36-40 | stores the callback, changes no other field, and returns the same ticker |
| Ticker.IntervalPerFrame.SetDelay | Assets/Scripts/Common/Helper/IntervalPerFrame.cs:45-49 | stores the delay, changes no other field, and returns the same ticker |
| Ticker.IntervalPerFrame.RunFrom | Assets/Scripts/Common/Helper/IntervalPerFrame.cs:77-82 | one loop iteration: the callback runs once (if present) while iterations remain, and the run clears itself after the last one |
| Ticker.IntervalPerFrame.Start | Assets/Scripts/Common/Helper/IntervalPerFrame.cs:51-59 | no-op when the count is not positive or a run is in progress; otherwise the run waits one frame if the delay is positive, or runs its first iteration at once |
| Ticker.IntervalPerFrame.Stop | Assets/Scripts/Common/Helper/IntervalPerFrame.cs:61-69 | always leaves the ticker idle, and changes nothing else |
| Ticker.IntervalPerFrame.Tick | Assets/Scripts/Common/Helper/IntervalPerFrame.cs:71-83 | one frame: an idle ticker is unchanged; a suspended run resumes at its next iteration and fires at most once |
| Ticker.CountRun | Assets/Scripts/Common/Helper/IntervalPerFrame.cs:71-83 | a whole run fires the callback exactly `times` times (none when `times <= 0`); it takes `times` frames, plus one with a delay; it ends idle, so `Start` works again without `Stop` |
| ScrollView.ScrollViewItemOperator.constructor | Assets/Scripts/UI/ScrollView/ScrollViewItemOperator.cs:44-48 | a new row has no ID, is in `Default`, has no `OnStateChange` or `OnClick` listener and has called nothing |
| ScrollView.ScrollViewItemOperator.SetAccount | Assets/Scripts/UI/ScrollView/ScrollViewItemOperator.cs:58-65 | the row's ID becomes the account's id and its texts the account's fields; its state is unchanged |
| ScrollView.ScrollViewItemOperator.ChangeState | Assets/Scripts/UI/ScrollView/ScrollViewItemOperator.cs:68-76 | the current state changes nothing and calls nothing. A new state is stored and passed once to `OnStateChange` when a listener is set; with a null listener nothing is called |
| ScrollView.ScrollViewItemOperator.OnBeginDrag | Assets/Scripts/UI/ScrollView/ScrollViewItemOperator.cs:78-84 | the row becomes `BeginDrag`. Only on a change, and only when a listener is set, `OnStateChange` receives `BeginDrag` once |
| ScrollView.ScrollViewItemOperator.OnDrag | Assets/Scripts/UI/ScrollView/ScrollViewItemOperator.cs:86-90 | the row becomes `Dragging`. Only on a change, and only when a listener is set, `OnStateChange` receives `Dragging` once |
| ScrollView.ScrollViewItemOperator.OnEndDrag | Assets/Scripts/UI/ScrollView/ScrollViewItemOperator.cs:92-96 | the row becomes `EndDrag`. Only on a change, and only when a listener is set, `OnStateChange` receives `EndDrag` once |
| ScrollView.ScrollViewItemOperator.OnPointerClick | Assets/Scripts/UI/ScrollView/ScrollViewItemOperator.cs:98-104 | in `Default` or `EndDrag` the ID goes to `OnClick` when a listener is set. During a drag, or with a null listener, nothing is called. The state never changes |
| ScrollView.ClickDuringAndAfterDrag | Assets/Scripts/UI/ScrollView/ScrollViewItemOperator.cs:68-104 | over a whole drag, whatever listeners are attached, the click during the drag is dropped. The click after the release passes the account id to the click listener, and the state listener receives `BeginDrag`, `Dragging` and `EndDrag` once each. With no listener attached, as nowhere in the source sets one, nothing is called |
| Menu.MenuItems.constructor | Assets/Scripts/UI/Menu/MenuItems.cs:14-27 | a catalog entry keeps its prefab, menu type and item list as given |
| Menu.ItemViewsFor | Assets/Scripts/UI/Menu/MenuOperator.cs:212-256 | one row per item, in order: each row reports its own index, shows its item's icon and text, and has the item height; only the last row may hide its line, and it does so exactly when `displayLineInLast` is off |
| Menu.SumHeightsUniform | Assets/Scripts/UI/Menu/MenuOperator.cs:234-237 | rows of one height stack to that height times their number |
| Menu.MenuHeightFitsRows | Assets/Scripts/UI/Menu/MenuOperator.cs:203-210 | the height formula (arrow + count x item height + paddings) equals the arrow, the paddings and the rows actually built for the same list |
| Menu.MenuAnimation.constructor | Assets/Scripts/UI/Menu/MenuAnimation.cs:26-29 | a new animation has no hide request and no tween running |
| Menu.MenuAnimation.SetMaskPadding | Assets/Scripts/UI/Menu/MenuAnimation.cs:36-41 | the stored padding and the mask's padding both become (0, menu height, 0, 0) |
| Menu.MenuAnimation.SetDuration | Assets/Scripts/UI/Menu/MenuAnimation.cs:43-46 | only the duration of later plays changes |
| Menu.MenuAnimation.Play | Assets/Scripts/UI/Menu/MenuAnimation.cs:61-67 | always starts one more tween, to the target with the latest duration, without a re-entrancy guard |
| Menu.MenuAnimation.Show | Assets/Scripts/UI/Menu/MenuAnimation.cs:48-52 | clears the hide flag and tweens the padding to zero |
| Menu.MenuAnimation.Hide | Assets/Scripts/UI/Menu/MenuAnimation.cs:54-58 | sets the hide flag and tweens the padding back to the stored mask padding |
| Menu.MenuAnimation.OnTweenCompleted | Assets/Scripts/UI/Menu/MenuAnimation.cs:69-80 | the completion reports hidden if and only if the last request was `Hide` |
| Menu.MenuOperator.constructor | Assets/Scripts/UI/Menu/MenuOperator.cs:81-97 | the menu starts `Hidden`, with its arrow and content inactive and no items |
| Menu.MenuOperator.SetItems | Assets/Scripts/UI/Menu/MenuOperator.cs:100-113 | null, an empty list or the list already stored change nothing; any other list is stored and marks the rows for rebuilding |
| Menu.MenuOperator.SetClickListener | Assets/Scripts/UI/Menu/MenuOperator.cs:115-119 | replaces the item-click listener and nothing else |
| Menu.MenuOperator.SetStateChangeListener | Assets/Scripts/UI/Menu/MenuOperator.cs:121-125 | replaces the state listener and nothing else |
| Menu.MenuOperator.ChangeState | Assets/Scripts/UI/Menu/MenuOperator.cs:192-196 | stores the state and notifies the listener with exactly that state |
| Menu.MenuOperator.Toggle | Assets/Scripts/UI/Menu/MenuOperator.cs:132-147 | `Displayed` behaves exactly as `Hide`: the cover tween starts and rows, size, items and listeners are kept. `Hidden` behaves exactly as `Show`: rows rebuilt when marked, the size taken from the rows and the uncover tween started. The two animating states change nothing |
| Menu.MenuOperator.Show | Assets/Scripts/UI/Menu/MenuOperator.cs:149-171 | only from `Hidden`: becomes `Displaying` and active; rebuilds the rows exactly when they are marked, then clears the mark; sizes the menu to its rows; uncovers it over `fadeDuration` |
| Menu.MenuOperator.RebuildIfChanged | Assets/Scripts/UI/Menu/MenuOperator.cs:159-165 | the rows are rebuilt from the stored list exactly when they are marked, and the mark is cleared |
| Menu.MenuOperator.Uncover | Assets/Scripts/UI/Menu/MenuOperator.cs:166-170 | the menu takes the height of its rows, and the mask is set to that height and tweened open over `fadeDuration` |
| Menu.MenuOperator.Hide | Assets/Scripts/UI/Menu/MenuOperator.cs:173-182 | only from `Displayed`: becomes `Hiding` and covers the menu with the stored padding |
| Menu.MenuOperator.ComputeSize | Assets/Scripts/UI/Menu/MenuOperator.cs:203-210 | the menu is `menuWidth` wide and as tall as the arrow, the rows and the content paddings |
| Menu.MenuOperator.CreateAllItems | Assets/Scripts/UI/Menu/MenuOperator.cs:212-219 | the loop appends exactly the rows `ItemViewsFor` gives for the stored list |
| Menu.MenuOperator.CreateItem | Assets/Scripts/UI/Menu/MenuOperator.cs:234-256 | appends one row for the item, whose line is hidden only when it is last and `displayLineInLast` is off |
| Menu.MenuOperator.RemoveAllItems | Assets/Scripts/UI/Menu/MenuOperator.cs:221-232 | no rows remain |
| Menu.MenuOperator.ClickItem | Assets/Scripts/UI/Menu/MenuOperator.cs:258-261 | a row's button reports that row's index to the click listener, if one is set |
| Menu.MenuOperator.OnDisplayed | Assets/Scripts/UI/Menu/MenuOperator.cs:264-267 | the menu becomes `Displayed` and the listener is told |
| Menu.MenuOperator.OnHidden | Assets/Scripts/UI/Menu/MenuOperator.cs:269-273 | the menu becomes `Hidden` and inactive, and the listener is told |
| Menu.MenuOperator.TweenCompleted | Assets/Scripts/UI/Menu/MenuOperator.cs:264-273 | when the mask tween ends, a menu coming in becomes `Displayed` and a menu going out becomes `Hidden` and inactive |
| Menu.MenuParameter.constructor | Assets/Scripts/UI/Menu/MenuController.cs:11-21 | a parameter holds a menu type and an item callback |
| Menu.MenuController.constructor | Assets/Scripts/UI/Menu/MenuController.cs:36-42 | both listeners are registered and the modal starts inactive |
| Menu.MenuController.OnMenuStateChanged | Assets/Scripts/UI/Menu/MenuController.cs:98-108 | the modal turns on at `Displaying`, turns off at `Hiding`, and is left alone otherwise |
| Menu.MenuController.Dispatch | Assets/Scripts/UI/Menu/MenuController.cs:98-108 | a reported state reaches the controller's listener; no report changes nothing |
| Menu.MenuController.ShowOperator | Assets/Scripts/UI/Menu/MenuOperator.cs:149-171 | from `Hidden`, the menu shows with freshly built rows when they were marked and the modal comes on with it; from any other state nothing changes |
| Menu.MenuController.Open | Assets/Scripts/UI/Menu/MenuController.cs:58-76 | null is ignored; the current parameter only shows again, without touching the items; a type missing from the catalog is ignored; otherwise the parameter is remembered and its catalog items are set before `Show`; rows are rebuilt only on a real change of items |
| Menu.MenuController.Close | Assets/Scripts/UI/Menu/MenuController.cs:81-84 | a `Displayed` menu starts hiding and the modal turns off; any other state changes nothing |
| Menu.MenuController.OnModalClicked | Assets/Scripts/UI/Menu/MenuController.cs:87-90 | a click on the modal has exactly the effect of `Close` |
| Menu.MenuController.OnMenuItemClicked | Assets/Scripts/UI/Menu/MenuController.cs:92-96 | the menu is closed first; then the caller's callback runs with the same index, and it sees the state after the close |
| Menu.MenuController.ClickItem | Assets/Scripts/UI/Menu/MenuController.cs:92-96 | a click on row k reaches the caller's callback with row k's index, after the close |
| Menu.MenuController.TweenCompleted | Assets/Scripts/UI/Menu/MenuController.cs:98-108 | the end of the mask tween keeps the modal in step with the menu: on when `Displayed`, off when `Hidden` |
| Menu.ReopenSameMenu | Assets/Scripts/UI/Menu/MenuOperator.cs:159-165 | reopening the same parameter several times builds the rows once; the modal is on while the menu is shown and off after a modal click closes it |
| Menu.SwitchMenuType | Assets/Scripts/UI/Menu/MenuController.cs:64-75 | opening a second type while the first is shown keeps the first type's rows; after a close and a reopen, the rows and the height are those of the second type, with two rebuilds in all |
| FlyIn.FlyInTweener.constructor | Assets/Scripts/UI/AlertOperator.cs:58-68 | the tweener starts paused at the root's position, with the default duration |
| FlyIn.FlyInTweener.Show | Assets/Scripts/UI/AlertOperator.cs:146-163 | dropped while playing; otherwise jumps to the direction's start offset and plays forward to (0,0) over the given duration with `InOutBounce` |
| FlyIn.FlyInTweener.Hide | Assets/Scripts/UI/AlertOperator.cs:168-176 | dropped while playing; otherwise plays the same tween backwards with `OutCubic` |
| FlyIn.FlyInTweener.Complete | Assets/Scripts/UI/AlertOperator.cs:189-199 | completion reports hidden if and only if the tween ran backwards; the dialog rests at the centre or back at its start offset |
| FlyIn.ShowThenHide | Assets/Scripts/UI/AlertOperator.cs:146-199 | a full show and hide rests at (0,0) and then leaves to an off-centre point; completions report shown, then hidden; a second `Show` and an early `Hide` are both dropped |
| Alert.AlertOperator.constructor | Assets/Scripts/UI/AlertOperator.cs:58-68 | a new operator has a paused tweener and no id, texts or callbacks |
| Alert.AlertOperator.SetOkListener | Assets/Scripts/UI/AlertOperator.cs:81-88 | replaces the ok callback; the button keeps exactly one handler |
| Alert.AlertOperator.SetCancelListener | Assets/Scripts/UI/AlertOperator.cs:92-99 | replaces the cancel callback; the button keeps exactly one handler |
| Alert.AlertOperator.SetId | Assets/Scripts/UI/AlertOperator.cs:103-107 | stores the id that clicks will report |
| Alert.AlertOperator.SetTitle | Assets/Scripts/UI/AlertOperator.cs:111-115 | sets the title text only |
| Alert.AlertOperator.SetContent | Assets/Scripts/UI/AlertOperator.cs:119-123 | sets the content text only |
| Alert.AlertOperator.SetOkText | Assets/Scripts/UI/AlertOperator.cs:127-131 | sets the ok button text only |
| Alert.AlertOperator.SetCancelText | Assets/Scripts/UI/AlertOperator.cs:135-139 | sets the cancel button text only |
| Alert.AlertOperator.Show | Assets/Scripts/UI/AlertOperator.cs:146-163 | dropped while the tween plays; otherwise the dialog flies from the start offset to the centre over the given duration |
| Alert.AlertOperator.Hide | Assets/Scripts/UI/AlertOperator.cs:168-176 | dropped while the tween plays; otherwise the tween plays backwards |
| Alert.AlertOperator.OnClickOk | Assets/Scripts/UI/AlertOperator.cs:179-182 | the stored ok callback receives the stored id; with no callback, nothing is called |
| Alert.AlertOperator.OnClickCancel | Assets/Scripts/UI/AlertOperator.cs:184-187 | the stored cancel callback receives the stored id; with no callback, nothing is called |
| Alert.AlertOperator.OnTweenCompleted | Assets/Scripts/UI/AlertOperator.cs:189-199 | a backwards tween fires `OnHidden` and a forward tween fires `OnShown` |
| Alert.AlertDialogInfo.constructor | Assets/Scripts/UI/AlertController.cs:150-157 | a new entry holds its id and its modal and alert objects |
| Alert.AlertDialogInfo.Dispose | Assets/Scripts/UI/AlertController.cs:49-56 | every reference field of the entry is nulled |
| Alert.FindIndex | Assets/Scripts/UI/AlertController.cs:165 | the first position holding the id, or -1 exactly when no entry has it |
| Alert.RemoveAt | Assets/Scripts/UI/AlertController.cs:172 | drops exactly position k and keeps the others in order |
| Alert.RemoveAtMultiset | Assets/Scripts/UI/AlertController.cs:172 | removal loses exactly one occurrence of the removed entry and nothing else |
| Alert.RemoveFoundEntry | Assets/Scripts/UI/AlertController.cs:165-172 | with distinct ids, removing the entry found for an id removes that id; every other entry stays |
| Alert.UnlistKeeps | Assets/Scripts/UI/AlertController.cs:163-178 | removing one entry and destroying its two objects keeps every other entry wired to live objects, and all entries pairwise apart |
| Alert.RegistryAfterUnlist | Assets/Scripts/UI/AlertController.cs:163-178 | removing an entry and destroying its objects keeps the registry invariant (entries wired to live objects, pairwise apart, every handle issued), and the id is gone |
| Alert.RegistryAfterAppend | Assets/Scripts/UI/AlertController.cs:142-159 | appending an entry with a new id, new objects and the next two handles keeps the registry invariant |
| Alert.AlertController.constructor | Assets/Scripts/UI/AlertController.cs:68-79 | the registry starts empty, with the inspector defaults |
| Alert.AlertController.DirectionFor | Assets/Scripts/UI/AlertController.cs:108-109 | direction `None` is replaced by the default; any other direction is kept |
| Alert.AlertController.DurationFor | Assets/Scripts/UI/AlertController.cs:110 | a duration of 0 or less is replaced by the default; a positive one is kept |
| Alert.AlertController.Create | Assets/Scripts/UI/AlertController.cs:142-159 | instantiates two new inactive objects and appends exactly one entry, under the fresh id |
| Alert.AlertController.Open | Assets/Scripts/UI/AlertController.cs:86-115 | appends exactly one entry with the fresh id, leaving earlier entries as they were; copies the callbacks; substitutes default texts, direction and duration; starts the fly-in; activates both new objects; returns the id |
| Alert.AlertController.Wire | Assets/Scripts/UI/AlertController.cs:89-110 | the new entry keeps the caller's callbacks; the new operator gets its id, texts and handlers and starts flying in from the chosen direction |
| Alert.AlertController.Configure | Assets/Scripts/UI/AlertController.cs:95-101 | the new operator gets its id, texts (or the defaults) and the controller's two handlers |
| Alert.AlertController.RequestHide | Assets/Scripts/UI/AlertController.cs:124 | hides entry k's dialog and no other |
| Alert.AlertController.Close | Assets/Scripts/UI/AlertController.cs:121-125 | an unknown id changes nothing; a known id requests `Hide` of that dialog only |
| Alert.AlertController.OnClickOk | Assets/Scripts/UI/AlertController.cs:128-133 | for a known id, the ok callback (if any) runs, then `Hide` of that dialog only; an unknown id does nothing |
| Alert.AlertController.OnClickCancel | Assets/Scripts/UI/AlertController.cs:135-140 | for a known id, the cancel callback (if any) runs, then `Hide` of that dialog only; an unknown id does nothing |
| Alert.AlertController.ClickOk | Assets/Scripts/UI/AlertController.cs:128-133 | a click on dialog k's ok button runs its callback, then hides dialog k only |
| Alert.AlertController.ClickCancel | Assets/Scripts/UI/AlertController.cs:135-140 | a click on dialog k's cancel button runs its callback, then hides dialog k only |
| Alert.AlertController.FindOwnIndex | Assets/Scripts/UI/AlertController.cs:165 | in a valid registry, looking up entry k's id finds k |
| Alert.AlertController.Dispose | Assets/Scripts/UI/AlertController.cs:163-178 | an unknown id is a no-op; a known id removes exactly that entry, keeps the order of the others, destroys its two objects and nulls its fields; other entries are untouched |
| Alert.AlertController.Unlist | Assets/Scripts/UI/AlertController.cs:171-175 | removes entry k and its two objects and keeps the registry valid |
| Alert.AlertController.TweenCompleted | Assets/Scripts/UI/AlertController.cs:103-106 | a finished fly-out disposes exactly its own dialog's id; a finished fly-in leaves the registry as it is; other dialogs are untouched |
| Alert.ConfirmFirstOfTwo | Assets/Scripts/UI/AlertController.cs:128-178 | with two dialogs open, confirming the first runs its ok callback before its hide request; after the fly-out, only the second dialog and its two objects remain |
| Alert.OkDuringFlyIn | Assets/Scripts/UI/AlertOperator.cs:168-176 | an ok click while the dialog is still flying in runs the callback, but the hide is dropped and the dialog stays; a second click closes it |
| DialogAlert.ComputeSize | Assets/Scripts/UI/Dialog/AlertOperator.cs:231-262 | all sizes are whole; each button is half the dialog's width at the button's own height; the dialog lies between its minimum and maximum (plus rounding); content of an in-range preferred size is rounded up by less than one unit |
| DialogAlert.DialogWrapsContent | Assets/Scripts/UI/Dialog/AlertOperator.cs:88-90 | with the frame set up as `Awake` does and whole, the dialog is always exactly the content plus that frame |
| DialogAlert.AlertOperator.constructor | Assets/Scripts/UI/Dialog/AlertOperator.cs:75-94 | `initDiffSize` is the minimum size less the initial content size |
| DialogAlert.AlertOperator.Resize | Assets/Scripts/UI/Dialog/AlertOperator.cs:211-228 | the dialog, the content and both buttons take the sizes `ComputeSize` gives |
| DialogAlert.AlertOperator.Show | Assets/Scripts/UI/Dialog/AlertOperator.cs:172-195 | dropped while playing; otherwise flies in, and a new ticker of 2 frames with `Resize` starts, whose first resize happens at once |
| DialogAlert.AlertOperator.Frame | Assets/Scripts/UI/Dialog/AlertOperator.cs:191-194 | each frame resizes exactly when the ticker fires, and the ticker ends after its last frame |
| DialogAlert.ShowSettlesLayout | Assets/Scripts/UI/Dialog/AlertOperator.cs:191-194 | a shown dialog is resized exactly twice, ends with the layout for the text measured on the second frame, and its ticker goes idle |
| LegacyMenu.MenuOperator.constructor | Assets/Scripts/UI/MenuOperator.cs:44-62 | a paused tweener on y toward 0 with the default duration and `OutCubic` |
| LegacyMenu.MenuOperator.SetAddText | Assets/Scripts/UI/MenuOperator.cs:72-76 | sets the add button text only |
| LegacyMenu.MenuOperator.SetQuitText | Assets/Scripts/UI/MenuOperator.cs:80-84 | sets the quit button text only |
| LegacyMenu.MenuOperator.SetAddListener | Assets/Scripts/UI/MenuOperator.cs:88-95 | replaces the add callback; the button keeps exactly one handler |
| LegacyMenu.MenuOperator.SetQuitListener | Assets/Scripts/UI/MenuOperator.cs:99-106 | replaces the quit callback; the button keeps exactly one handler |
| LegacyMenu.MenuOperator.Show | Assets/Scripts/UI/MenuOperator.cs:111-121 | dropped while playing; otherwise starts at y = -height - 100, fully below the edge, and tweens y to 0 over the given duration |
| LegacyMenu.MenuOperator.Hide | Assets/Scripts/UI/MenuOperator.cs:125-132 | dropped while playing; otherwise plays backwards |
| LegacyMenu.MenuOperator.OnClickAdd | Assets/Scripts/UI/MenuOperator.cs:135-138 | the stored add callback, if any, is the one invoked |
| LegacyMenu.MenuOperator.OnClickQuit | Assets/Scripts/UI/MenuOperator.cs:140-143 | the stored quit callback, if any, is the one invoked |
| LegacyMenu.MenuOperator.Complete | Assets/Scripts/UI/MenuOperator.cs:145-155 | a backwards tween reports hidden and a forward one reports shown |
| LegacyMenu.MenuDialogInfo.constructor | Assets/Scripts/UI/MenuController.cs:123-129 | the new info holds the two objects and the parameter's callbacks |
| LegacyMenu.MenuDialogInfo.Dispose | Assets/Scripts/UI/MenuController.cs:46-53 | every reference field is nulled |
| LegacyMenu.ShowDuration | Assets/Scripts/UI/MenuController.cs:101 | a duration of 0 or less is replaced by the default; a positive one is kept |
| LegacyMenu.MenuController.constructor | Assets/Scripts/UI/MenuController.cs:66-76 | no menu exists and nothing is live |
| LegacyMenu.MenuController.Create | Assets/Scripts/UI/MenuController.cs:115-130 | instantiates a modal and a menu, both new and inactive, and copies the parameter's callbacks |
| LegacyMenu.MenuController.Configure | Assets/Scripts/UI/MenuController.cs:94-101 | texts become the parameter's or "Add"/"Quit"; the controller's handlers are registered; the menu is shown with the parameter's duration or the default |
| LegacyMenu.MenuController.Open | Assets/Scripts/UI/MenuController.cs:83-105 | refused while a menu exists; otherwise exactly one new menu is created, configured, shown and activated with its modal |
| LegacyMenu.MenuController.Close | Assets/Scripts/UI/MenuController.cs:110-113 | with no menu, nothing happens; otherwise `Hide` is requested |
| LegacyMenu.MenuController.OnClickAdd | Assets/Scripts/UI/MenuController.cs:141-145 | the add callback runs before `Hide` is requested |
| LegacyMenu.MenuController.OnClickQuit | Assets/Scripts/UI/MenuController.cs:147-151 | the quit callback runs before `Hide` is requested |
| LegacyMenu.MenuController.ClickAdd | Assets/Scripts/UI/MenuController.cs:141-145 | a click on the live menu's add button reaches the caller's add callback, then the hide |
| LegacyMenu.MenuController.ClickQuit | Assets/Scripts/UI/MenuController.cs:147-151 | a click on the live menu's quit button reaches the caller's quit callback, then the hide |
| LegacyMenu.MenuController.Dispose | Assets/Scripts/UI/MenuController.cs:132-138 | the menu and its modal are destroyed, the info is cleared and forgotten, and nothing is live |
| LegacyMenu.MenuController.TweenCompleted | Assets/Scripts/UI/MenuController.cs:99 | a finished hide disposes the menu, so a later `Open` creates a new one; a finished show changes nothing else |
| LegacyMenu.RefuseWhileOpen | Assets/Scripts/UI/MenuController.cs:83-151 | a second `Open` while a menu is up is refused; the quit callback runs before the hide; after the hide the next `Open` builds a second menu with the new parameter and its duration |
| Toast.SequenceFor | Assets/Scripts/UI/Dialog/ToastOperator.cs:125-130 | fade in (background to its opacity, text to 1), hold, fade out (both to 0), in that order; both fades take the fade duration |
| Toast.SequenceDuration | Assets/Scripts/UI/Dialog/ToastOperator.cs:125-130 | a toast plays for the hold plus one fade on each side |
| Toast.Padding | Assets/Scripts/UI/Dialog/ToastOperator.cs:53-55 | the padding is whole, non-negative, and at least half the text area's extent whatever its sign, with less than one unit of rounding |
| Toast.ComputeToastSize | Assets/Scripts/UI/Dialog/ToastOperator.cs:105-117 | whole sizes; the width wraps text plus padding unless that exceeds the reference width less the margins, where it stops at the limit; the height wraps text plus padding |
| Toast.ToastOperator.constructor | Assets/Scripts/UI/Dialog/ToastOperator.cs:51-62 | paddings from the text area; no sequence yet; stored duration 0; inactive |
| Toast.ToastOperator.SetMessage | Assets/Scripts/UI/Dialog/ToastOperator.cs:70-74 | sets the message only |
| Toast.ToastOperator.SetDuration | Assets/Scripts/UI/Dialog/ToastOperator.cs:76-85 | a value within 0.0001 of the stored one changes nothing and flags no rebuild; any other is stored and flags a rebuild |
| Toast.ToastOperator.SetActive | Assets/Scripts/UI/ToastController.cs:27 | activates or deactivates the toast |
| Toast.ToastOperator.ResetTweenSequence | Assets/Scripts/UI/Dialog/ToastOperator.cs:119-135 | a non-positive stored duration becomes `visibleDuration`; the new paused sequence holds for the stored, now positive, duration |
| Toast.ToastOperator.ScheduleResize | Assets/Scripts/UI/Dialog/ToastOperator.cs:96-102 | a new 2-frame ticker resizes the toast at once to `ComputeToastSize` |
| Toast.ToastOperator.ShowAsWritten | Assets/Scripts/UI/Dialog/ToastOperator.cs:87-103 | rebuilds only when flagged and clears the flag; restarts the sequence if one exists, so nothing plays exactly when none was built and none was flagged |
| Toast.ToastOperator.Show | Assets/Scripts/UI/Dialog/ToastOperator.cs:87-103 | rebuilds when flagged or when no sequence exists, then always restarts from the beginning; afterwards a sequence with a positive hold equal to the stored duration is playing |
| Toast.ToastOperator.Frame | Assets/Scripts/UI/Dialog/ToastOperator.cs:96-102 | each frame resizes exactly when the resize ticker fires |
| Toast.ToastOperator.SequenceComplete | Assets/Scripts/UI/Dialog/ToastOperator.cs:137-140 | the end of the sequence deactivates the toast and keeps its sequence for reuse |
| Toast.ConvertEnumToFloat | Assets/Scripts/UI/ToastController.cs:48-57 | every preset duration is positive, and only `Normal` maps to `ToastOperator.DefaultDuration` |
| Toast.PresetsIncrease | Assets/Scripts/UI/ToastController.cs:52-54 | Fast < Normal < Slow |
| Toast.ToastController.constructor | Assets/Scripts/UI/ToastController.cs:20 | no toast exists yet |
| Toast.ToastController.Create | Assets/Scripts/UI/ToastController.cs:37-46 | instantiates an inactive toast only when none exists; every call returns the one operator |
| Toast.ToastController.Open | Assets/Scripts/UI/ToastController.cs:22-29 | on the single shared toast: sets the message, then the duration, then activates and shows it; the duration is rebuilt only on a change beyond 0.0001 |
| Toast.ToastController.OpenPreset | Assets/Scripts/UI/ToastController.cs:31-35 | behaves exactly as `Open` with the preset's duration |
| Toast.FirstZeroDurationAsWritten | Assets/Scripts/UI/Dialog/ToastOperator.cs:76-94 | the code as written: the first toast opened with duration 0 is activated, but no sequence is built and nothing plays |
| Toast.FirstZeroDurationCorrected | Assets/Scripts/UI/Dialog/ToastOperator.cs:119-123 | with the corrected `Show`, the same toast plays the default sequence, holding for `visibleDuration` |
| Toast.ToastsShareOneOperator | Assets/Scripts/UI/ToastController.cs:22-46 | successive toasts share one instantiated operator: a near-equal duration reuses the sequence, a preset with another duration rebuilds it, and each sequence end deactivates the toast |

## Findings

| source | as written | input that shows it | evidently intended | confidence | as-written member | corrected member |
|---|---|---|---|---|---|---|
| Assets/Scripts/UI/Dialog/ToastOperator.cs:76-94 | The stored duration starts at 0. `SetDuration` ignores a value within 0.0001 of it, and `Show` builds the sequence only when a rebuild is flagged. So the first `Open(msg, 0)` restarts a sequence that was never built: the toast is activated but never fades in or deactivates. | the first toast opened with `Open("saved", 0f)` | A non-positive duration shows the toast for `visibleDuration`. This is what `ResetTweenSequence` does for later toasts (line 123). | medium (not executed; assumes DOTween ignores `Restart` on a null tween) | Toast.FirstZeroDurationAsWritten | Toast.ToastOperator.Show |

The toast controller uses the corrected `Toast.ToastOperator.Show`. `Toast.ToastOperator.ShowAsWritten` keeps the source's behaviour for the finding.

## Left out

- Animation internals are abstracted: DOTween interpolation, ease curves beyond their names, and sequence timing. `Toast.TotalDuration` gives the nominal length of a toast's sequence.
- Unity engine calls become handles, sets and fields: `Instantiate`/`Destroy`, `SetActive`, `GetComponent`, `SetSizeWithCurrentAnchors`, TMP text and sprites. The text's preferred size is an input.
- Floating-point rounding of `Mathf.Ceil`, `Mathf.Clamp` and `Maths.Near` is not modelled; the model computes with reals.
- `Strings.Uuid` is not part of this model. `Alert.AlertController.Open` takes the new id as a parameter and requires it to be unused.
- `WaitForSeconds` is not modelled: a positive delay of `IntervalPerFrame` is one waiting frame, whatever its length.
- `DialogAlert.AlertOperator.Show`: the source starts a new ticker on every `Show` without stopping an earlier one. The model ticks only the latest ticker. The same holds for `Toast.ToastOperator.ScheduleResize`.
- `FlyIn.FlyInTweener.Hide` and `LegacyMenu.MenuOperator.Hide`: a `Hide` before any `Show` is modelled as a backwards play that completes like any other. DOTween's handling of a tween already at its start is not modelled.
- `Menu.MenuOperator.Show`: with no items set, the source throws in `ComputeSize` after the state change. The model stops there, leaving the menu `Displaying` and active with no tween.
- The setters, clicks, `Hide` and `OnTweenCompleted` of `UI/Dialog/AlertOperator.cs` match those of `UI/AlertOperator.cs`. They are modelled once, by `Alert.AlertOperator` and `FlyIn.FlyInTweener`. `DialogAlert.AlertOperator` models only what differs: the layout and the resize ticker.
- Teardown is not modelled: `OnDestroy` handlers (killing tweens, removing button listeners) and the modal's `OnEnable`/`OnDisable` subscriptions.
- The toast's colour set-up in `Awake` is not modelled. The text colour there passes the alpha where the blue component goes (`Assets/Scripts/UI/Dialog/ToastOperator.cs:61`).
- Toast.ToastOperator.constructor, `ResetTweenSequence`, `Show`, `ShowAsWritten` and `ToastController` (through its `Valid`) require a positive `visibleDuration`. The source never checks this serialized inspector field. Its default is `DefaultDuration`, one second (`Assets/Scripts/UI/Dialog/ToastOperator.cs:15`, `:32`). The model keeps the invariant that every built sequence holds for a positive time, so a non-positive inspector value is not modelled.
- The `ArgumentOutOfRangeException` branch of `ConvertEnumToFloat` is not modelled: the three presets are the only values of `Toast.ToastDuration`.
- Other files are not part of this model:
  - `DialogManager`: a routing façade;
  - `ModalController`: event forwarding;
  - `Menu2Operator`: a prototype;
  - `Size.cs` conversions;
  - the singleton base;
  - `Maths.Remap` and `Maths.RandomString`;
  - the inspector test harness;
  - the drag-position capture of the scroll-view row.
- Debug logging is not modelled.
