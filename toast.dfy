/** The toast of UI: one reusable ToastOperator (a message that fades in,
    stays for a while and fades out, and that resizes itself around its
    text over the two frames after it is shown) and the ToastController
    that creates it lazily and routes both Open overloads to it.

    The DOTween sequence is modelled by its list of phases and a playing
    flag; its completion is the engine event `SequenceComplete`. The text's
    preferred size is an engine measurement and a parameter of each step
    that resizes. */
module Toast {
  import opened Common
  import opened Ticker

  /** ToastOperator.DefaultDuration: the shipped visible duration. */
  const DefaultDuration: real := 1.0

  /** The shipped inspector settings of the toast prefab. */
  const DefaultHorizontalMargin: real := 40.0
  const DefaultBackgroundOpacity: real := 0.6
  const DefaultFadeDuration: real := 0.2

  /** One step of the toast's sequence: the background and the text fade
      together to the given opacities, or nothing changes for a while. */
  datatype Phase = Fade(background: real, text: real, duration: real) | Hold(duration: real)

  /** ResetTweenSequence's sequence: fade in to the background opacity and
      a fully opaque text, hold for `hold`, fade both out. */
  function SequenceFor(backgroundOpacity: real, fadeDuration: real, hold: real): (r: seq<Phase>)
    ensures |r| == 3
    ensures r[0].Fade? && r[0].background == backgroundOpacity && r[0].text == 1.0
    ensures r[1].Hold? && r[1].duration == hold
    ensures r[2].Fade? && r[2].background == 0.0 && r[2].text == 0.0
    ensures r[0].duration == r[2].duration == fadeDuration
  {
    [Fade(backgroundOpacity, 1.0, fadeDuration), Hold(hold), Fade(0.0, 0.0, fadeDuration)]
  }

  /** How long a sequence plays from its start to its end. */
  function TotalDuration(phases: seq<Phase>): real
  {
    if phases == [] then 0.0 else phases[0].duration + TotalDuration(phases[1..])
  }

  /** A toast stays up for the hold plus one fade on each side. */
  lemma SequenceDuration(backgroundOpacity: real, fadeDuration: real, hold: real)
    ensures TotalDuration(SequenceFor(backgroundOpacity, fadeDuration, hold)) == 2.0 * fadeDuration + hold
  {
    var s := SequenceFor(backgroundOpacity, fadeDuration, hold);
    var last := [Fade(0.0, 0.0, fadeDuration)];
    assert last[1..] == [];
    assert TotalDuration(last) == fadeDuration;
    assert s[1..][1..] == last;
    assert TotalDuration(s[1..]) == hold + fadeDuration;
  }

  /** The hold length of a sequence built by SequenceFor. */
  function HoldOf(phases: seq<Phase>): real
  {
    if |phases| >= 2 then phases[1].duration else 0.0
  }

  /** Awake's padding around the text: half the text area's extent, rounded
      up, whatever the sign of the extent. */
  function Padding(extent: real): (r: real)
    ensures IsWhole(r) && r >= 0.0
    ensures 2.0 * r >= extent && 2.0 * r >= -extent
    ensures 2.0 * r < Abs(extent) + 2.0
  {
    Ceil(Abs(extent) / 2.0)
  }

  /** ComputeToastSize: the toast wraps the text and its padding, but is
      never wider than the reference width less a margin on each side; both
      sides are rounded up to whole units. */
  function ComputeToastSize(preferred: SizeF, horizontalPadding: real, verticalPadding: real,
                            toastHorizontalMargin: real): (r: SizeF)
    ensures IsWhole(r.width) && IsWhole(r.height)
    ensures var wanted := preferred.width + 2.0 * horizontalPadding;
      var maxWidth := ReferenceWidth - 2.0 * toastHorizontalMargin;
      && (wanted <= maxWidth ==> wanted <= r.width < wanted + 1.0)
      && (maxWidth < wanted ==> maxWidth <= r.width < maxWidth + 1.0)
    ensures var wanted := preferred.height + 2.0 * verticalPadding;
      wanted <= r.height < wanted + 1.0
  {
    var maxToastWidth := ReferenceWidth - 2.0 * toastHorizontalMargin;
    var expectToastWidth := preferred.width + 2.0 * horizontalPadding;
    var expectToastHeight := preferred.height + 2.0 * verticalPadding;
    SizeF(Ceil(if maxToastWidth < expectToastWidth then maxToastWidth else expectToastWidth),
          Ceil(expectToastHeight))
  }

  /** The callback the operator gives its resize ticker. */
  const ResizeCallback: Callback := 0

  class ToastOperator {
    const toastHorizontalMargin: real
    const backgroundOpacity: real
    const fadeDuration: real
    const visibleDuration: real
    const horizontalPadding: real
    const verticalPadding: real
    var message: Option<string>
    var changedVisibleDuration: real
    var needResetTweenSequence: bool
    /** The tween sequence, once built; None while it is still null. */
    var sequence: Option<seq<Phase>>
    /** The sequence is playing from its start. */
    var playing: bool
    /** gameObject.activeSelf */
    var active: bool
    /** How many sequences have been built. */
    var rebuilds: nat
    var resizer: IntervalPerFrame?
    /** toastRoot.sizeDelta */
    var toastSize: SizeF

    /** A built sequence always has the toast's own shape and a positive
        hold, and when no rebuild is pending its hold is the duration last
        stored; a playing sequence exists. */
    ghost predicate Valid()
      reads this
    {
      && (sequence.Some? ==>
            && HoldOf(sequence.value) > 0.0
            && sequence.value == SequenceFor(backgroundOpacity, fadeDuration, HoldOf(sequence.value)))
      && (sequence.Some? && !needResetTweenSequence ==> HoldOf(sequence.value) == changedVisibleDuration)
      && (playing ==> sequence.Some?)
    }

    /** Awake over a text area of extent `textSize`; the prefab starts
        inactive, transparent and without a sequence. */
    constructor (textSize: SizeF, toastHorizontalMargin: real, backgroundOpacity: real,
                 fadeDuration: real, visibleDuration: real, initialSize: SizeF)
      requires visibleDuration > 0.0
      ensures Valid()
      ensures this.toastHorizontalMargin == toastHorizontalMargin && this.backgroundOpacity == backgroundOpacity
      ensures this.fadeDuration == fadeDuration && this.visibleDuration == visibleDuration
      ensures horizontalPadding == Padding(textSize.width) && verticalPadding == Padding(textSize.height)
      ensures message == None && changedVisibleDuration == 0.0 && !needResetTweenSequence
      ensures sequence == None && !playing && !active && rebuilds == 0
      ensures resizer == null && toastSize == initialSize
    {
      this.toastHorizontalMargin, this.backgroundOpacity := toastHorizontalMargin, backgroundOpacity;
      this.fadeDuration, this.visibleDuration := fadeDuration, visibleDuration;
      horizontalPadding, verticalPadding := Padding(textSize.width), Padding(textSize.height);
      message, changedVisibleDuration, needResetTweenSequence := None, 0.0, false;
      sequence, playing, active, rebuilds := None, false, false, 0;
      resizer, toastSize := null, initialSize;
    }

    method SetMessage(msg: string) returns (self: ToastOperator)
      modifies this`message
      ensures self == this && message == Some(msg)
    {
      message := Some(msg);
      self := this;
    }

    /** SetDuration: a duration within TinyNum of the stored one changes
        nothing; any other is stored and flags the sequence for a rebuild. */
    method SetDuration(duration: real) returns (self: ToastOperator)
      requires Valid()
      modifies this`changedVisibleDuration, this`needResetTweenSequence
      ensures Valid() && self == this
      ensures Near(old(changedVisibleDuration), duration) ==> unchanged(this)
      ensures !Near(old(changedVisibleDuration), duration) ==>
        changedVisibleDuration == duration && needResetTweenSequence
    {
      self := this;
      if Near(changedVisibleDuration, duration) {
        return;
      }
      changedVisibleDuration := duration;
      needResetTweenSequence := true;
    }

    method SetActive(value: bool)
      modifies this`active
      ensures active == value
    {
      active := value;
    }

    /** ResetTweenSequence: the old sequence is killed and a new, paused one
        is built whose hold is the stored duration, or the visible duration
        when the stored one is not positive (which is then stored). */
    method ResetTweenSequence()
      requires visibleDuration > 0.0
      modifies this`changedVisibleDuration, this`sequence, this`playing, this`rebuilds
      ensures changedVisibleDuration ==
        (if old(changedVisibleDuration) > 0.0 then old(changedVisibleDuration) else visibleDuration)
      ensures changedVisibleDuration > 0.0
      ensures sequence == Some(SequenceFor(backgroundOpacity, fadeDuration, changedVisibleDuration))
      ensures !playing && rebuilds == old(rebuilds) + 1
    {
      changedVisibleDuration := if changedVisibleDuration > 0.0 then changedVisibleDuration else visibleDuration;
      sequence := Some(SequenceFor(backgroundOpacity, fadeDuration, changedVisibleDuration));
      playing := false;
      rebuilds := rebuilds + 1;
    }

    /** Starts a new resize ticker: ComputeToastSize is applied at once and
        on the next frame. */
    method ScheduleResize(preferred: SizeF)
      modifies this`resizer, this`toastSize
      ensures resizer != null && fresh(resizer)
      ensures resizer.times == 2 && resizer.callback == Some(ResizeCallback)
      ensures resizer.coroutine == Some(AfterCall(1))
      ensures toastSize == ComputeToastSize(preferred, horizontalPadding, verticalPadding, toastHorizontalMargin)
    {
      var ticker := new IntervalPerFrame();
      var self := ticker.SetTimes(2);
      self := ticker.SetCallback(Some(ResizeCallback));
      var fired := ticker.Start();
      resizer := ticker;
      if fired {
        toastSize := ComputeToastSize(preferred, horizontalPadding, verticalPadding, toastHorizontalMargin);
      }
    }

    /** Show as the source writes it: the sequence is rebuilt only when a
        rebuild is flagged, and then restarted; restarting a sequence that
        was never built does nothing (DOTween ignores a null tween). */
    method ShowAsWritten(preferred: SizeF)
      requires Valid() && visibleDuration > 0.0
      modifies this`changedVisibleDuration, this`needResetTweenSequence, this`sequence, this`playing,
               this`rebuilds, this`resizer, this`toastSize
      ensures Valid() && !needResetTweenSequence
      ensures rebuilds == old(rebuilds) + (if old(needResetTweenSequence) then 1 else 0)
      ensures playing == sequence.Some?
      ensures sequence.None? <==> old(sequence.None? && !needResetTweenSequence)
      ensures toastSize == ComputeToastSize(preferred, horizontalPadding, verticalPadding, toastHorizontalMargin)
    {
      if needResetTweenSequence {
        needResetTweenSequence := false;
        ResetTweenSequence();
      }
      if sequence.Some? {
        playing := true;
      }
      ScheduleResize(preferred);
    }

    /** Show: rebuilds the sequence when a rebuild is flagged or none has
        been built yet, restarts it from its beginning, and starts a new
        resize ticker. After it, the toast is always playing a sequence
        whose hold is the positive duration last stored. */
    method Show(preferred: SizeF)
      requires Valid() && visibleDuration > 0.0
      modifies this`changedVisibleDuration, this`needResetTweenSequence, this`sequence, this`playing,
               this`rebuilds, this`resizer, this`toastSize
      ensures Valid() && !needResetTweenSequence
      ensures rebuilds == old(rebuilds)
        + (if old(needResetTweenSequence) || old(sequence).None? then 1 else 0)
      ensures playing && sequence.Some? && changedVisibleDuration > 0.0
      ensures sequence == Some(SequenceFor(backgroundOpacity, fadeDuration, changedVisibleDuration))
      ensures old(needResetTweenSequence) || old(sequence).None? ==>
        changedVisibleDuration == (if old(changedVisibleDuration) > 0.0 then old(changedVisibleDuration) else visibleDuration)
      ensures !old(needResetTweenSequence) && old(sequence).Some? ==> sequence == old(sequence)
      ensures toastSize == ComputeToastSize(preferred, horizontalPadding, verticalPadding, toastHorizontalMargin)
    {
      if needResetTweenSequence || sequence.None? {
        needResetTweenSequence := false;
        ResetTweenSequence();
      }
      playing := true;
      ScheduleResize(preferred);
    }

    /** One rendered frame: the resize ticker resumes and, while it has
        frames left, resizes the toast around the text's current size. */
    method Frame(preferred: SizeF) returns (resized: bool)
      requires resizer != null
      modifies resizer, this`toastSize
      ensures resizer.times == old(resizer.times) && resizer.callback == old(resizer.callback)
      ensures old(resizer.coroutine).None? ==> !resized && resizer.coroutine == None
      ensures old(resizer.coroutine).Some? ==>
        var i := if old(resizer.coroutine).value.Delaying? then 0 else old(resizer.coroutine).value.done;
        && resized == (i < resizer.times && resizer.callback.Some?)
        && resizer.coroutine == (if i < resizer.times then Some(AfterCall(i + 1)) else None)
      ensures resized ==> toastSize == ComputeToastSize(preferred, horizontalPadding, verticalPadding, toastHorizontalMargin)
      ensures !resized ==> toastSize == old(toastSize)
    {
      resized := resizer.Tick();
      if resized {
        toastSize := ComputeToastSize(preferred, horizontalPadding, verticalPadding, toastHorizontalMargin);
      }
    }

    /** Engine event: the sequence reached its end. OnTweenSequenceComplete
        deactivates the toast; the operator and its sequence stay for reuse. */
    method SequenceComplete()
      requires Valid() && playing
      modifies this`playing, this`active
      ensures Valid() && !playing && !active
      ensures sequence == old(sequence)
    {
      playing := false;
      active := false;
    }
  }

  datatype ToastDuration = Fast | Normal | Slow

  /** ConvertEnumToFloat: the visible duration of each preset. */
  function ConvertEnumToFloat(duration: ToastDuration): (r: real)
    ensures r > TinyNum
    ensures duration == Normal <==> r == DefaultDuration
  {
    match duration
    case Fast => 0.6
    case Normal => DefaultDuration
    case Slow => 1.5
  }

  /** Slower presets keep the toast up longer. */
  lemma PresetsIncrease()
    ensures ConvertEnumToFloat(Fast) < ConvertEnumToFloat(Normal) < ConvertEnumToFloat(Slow)
  {
  }

  class ToastController {
    /** The prefab's text extent and inspector settings. */
    const textSize: SizeF
    const visibleDuration: real
    var toastOperator: ToastOperator?
    /** How many toasts have been instantiated. */
    var instantiated: nat

    ghost predicate Valid()
      reads this, toastOperator
    {
      && visibleDuration > 0.0
      && instantiated == (if toastOperator == null then 0 else 1)
      && (toastOperator != null ==> toastOperator.Valid() && toastOperator.visibleDuration == visibleDuration)
    }

    constructor (textSize: SizeF, visibleDuration: real)
      requires visibleDuration > 0.0
      ensures Valid() && toastOperator == null && instantiated == 0
      ensures this.textSize == textSize && this.visibleDuration == visibleDuration
    {
      this.textSize, this.visibleDuration := textSize, visibleDuration;
      toastOperator, instantiated := null, 0;
    }

    /** Create: instantiates the toast, inactive, only when none exists;
        every call returns the one operator. */
    method Create() returns (toast: ToastOperator)
      requires Valid()
      modifies this
      ensures Valid() && toastOperator == toast && instantiated == 1
      ensures old(toastOperator) != null ==> toast == old(toastOperator) && unchanged(this)
      ensures old(toastOperator) == null ==>
        && fresh(toast) && !toast.active && toast.sequence == None
        && toast.changedVisibleDuration == 0.0 && !toast.needResetTweenSequence && toast.rebuilds == 0
    {
      if toastOperator == null {
        toastOperator := new ToastOperator(textSize, DefaultHorizontalMargin, DefaultBackgroundOpacity,
                                           DefaultFadeDuration, visibleDuration, SizeF(0.0, 0.0));
        instantiated := 1;
      }
      toast := toastOperator;
    }

    /** Open(message, duration): on the single toast, sets the message, then
        the duration, activates it and shows it. */
    method Open(msg: string, duration: real, preferred: SizeF)
      requires Valid()
      modifies this, toastOperator
      ensures Valid() && toastOperator != null && instantiated == 1
      ensures old(toastOperator) != null ==> toastOperator == old(toastOperator)
      ensures old(toastOperator) == null ==> fresh(toastOperator)
      ensures var t := toastOperator;
        && t.message == Some(msg) && t.active && t.playing && !t.needResetTweenSequence
        && t.sequence == Some(SequenceFor(t.backgroundOpacity, t.fadeDuration, t.changedVisibleDuration))
        && t.changedVisibleDuration > 0.0
        && t.toastSize == ComputeToastSize(preferred, t.horizontalPadding, t.verticalPadding, t.toastHorizontalMargin)
      ensures old(toastOperator) != null && !Near(old(toastOperator.changedVisibleDuration), duration) ==>
        toastOperator.changedVisibleDuration == (if duration > 0.0 then duration else visibleDuration)
        && toastOperator.rebuilds == old(toastOperator.rebuilds) + 1
      ensures old(toastOperator) == null ==>
        && toastOperator.rebuilds == 1
        && toastOperator.changedVisibleDuration == (if duration > TinyNum then duration else visibleDuration)
      ensures old(toastOperator) != null && Near(old(toastOperator.changedVisibleDuration), duration)
              && !old(toastOperator.needResetTweenSequence) && old(toastOperator.sequence).Some? ==>
        toastOperator.sequence == old(toastOperator.sequence)
        && toastOperator.rebuilds == old(toastOperator.rebuilds)
    {
      var toast := Create();
      var self := toast.SetMessage(msg);
      self := toast.SetDuration(duration);
      toast.SetActive(true);
      toast.Show(preferred);
    }

    /** Open(message, preset): exactly Open with the preset's duration. */
    method OpenPreset(msg: string, preset: ToastDuration, preferred: SizeF)
      requires Valid()
      modifies this, toastOperator
      ensures Valid() && toastOperator != null && instantiated == 1
      ensures old(toastOperator) != null ==> toastOperator == old(toastOperator)
      ensures old(toastOperator) == null ==> fresh(toastOperator)
      ensures var t := toastOperator;
        && t.message == Some(msg) && t.active && t.playing && !t.needResetTweenSequence
        && t.sequence == Some(SequenceFor(t.backgroundOpacity, t.fadeDuration, t.changedVisibleDuration))
        && t.changedVisibleDuration > 0.0
        && t.toastSize == ComputeToastSize(preferred, t.horizontalPadding, t.verticalPadding, t.toastHorizontalMargin)
      ensures old(toastOperator) != null && !Near(old(toastOperator.changedVisibleDuration), ConvertEnumToFloat(preset)) ==>
        toastOperator.changedVisibleDuration == ConvertEnumToFloat(preset)
        && toastOperator.rebuilds == old(toastOperator.rebuilds) + 1
      ensures old(toastOperator) == null ==>
        && toastOperator.rebuilds == 1
        && toastOperator.changedVisibleDuration == ConvertEnumToFloat(preset)
      ensures old(toastOperator) != null && Near(old(toastOperator.changedVisibleDuration), ConvertEnumToFloat(preset))
              && !old(toastOperator.needResetTweenSequence) && old(toastOperator.sequence).Some? ==>
        toastOperator.sequence == old(toastOperator.sequence)
        && toastOperator.rebuilds == old(toastOperator.rebuilds)
    {
      Open(msg, ConvertEnumToFloat(preset), preferred);
    }
  }

  /** The first toast opened with a duration of (nearly) 0, as the source
      writes Show: the stored duration starts at 0, so SetDuration sees no
      change and flags no rebuild, no sequence exists to restart, and the
      toast is left active but never fades in. */
  method FirstZeroDurationAsWritten(preferred: SizeF)
    returns (active: bool, playing: bool, built: bool)
    ensures active && !playing && !built
  {
    var toast := new ToastOperator(SizeF(100.0, 40.0), DefaultHorizontalMargin, DefaultBackgroundOpacity,
                                   DefaultFadeDuration, DefaultDuration, SizeF(0.0, 0.0));
    var self := toast.SetMessage("saved");
    self := toast.SetDuration(0.0);
    toast.SetActive(true);
    toast.ShowAsWritten(preferred);
    active, playing, built := toast.active, toast.playing, toast.sequence.Some?;
  }

  /** The same first toast with the corrected Show: it plays for the default
      visible duration, which is what ResetTweenSequence gives a
      non-positive duration. */
  method FirstZeroDurationCorrected(preferred: SizeF)
    returns (active: bool, playing: bool, phases: seq<Phase>)
    ensures active && playing
    ensures phases == SequenceFor(DefaultBackgroundOpacity, DefaultFadeDuration, DefaultDuration)
  {
    var toast := new ToastOperator(SizeF(100.0, 40.0), DefaultHorizontalMargin, DefaultBackgroundOpacity,
                                   DefaultFadeDuration, DefaultDuration, SizeF(0.0, 0.0));
    var self := toast.SetMessage("saved");
    self := toast.SetDuration(0.0);
    toast.SetActive(true);
    toast.Show(preferred);
    active, playing, phases := toast.active, toast.playing, toast.sequence.value;
  }

  /** Several toasts in a row share one operator: a duration within TinyNum
      of the previous one reuses the built sequence, a preset with another
      duration rebuilds it, and the toast deactivates itself at the end of
      each sequence. */
  method ToastsShareOneOperator(preferred: SizeF)
    returns (instantiated: nat, rebuilds: nat, hold: real, sameOperator: bool, activeAfter: bool)
    ensures instantiated == 1 && sameOperator
    ensures rebuilds == 2 && hold == 1.5
    ensures !activeAfter
  {
    var c := new ToastController(SizeF(100.0, 40.0), DefaultDuration);
    c.Open("first", 2.0, preferred);
    var first := c.toastOperator;
    c.Open("second", 2.00005, preferred);
    assert first.rebuilds == 1;
    first.SequenceComplete();
    c.OpenPreset("third", Slow, preferred);
    first.SequenceComplete();
    instantiated, rebuilds := c.instantiated, first.rebuilds;
    hold := HoldOf(first.sequence.value);
    sameOperator := c.toastOperator == first;
    activeAfter := first.active;
  }
}
