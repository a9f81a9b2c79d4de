/** The AlertOperator of UI/Dialog: the fly-in dialog of UI plus a layout
    that grows the dialog with its content. Its Show also starts a ticker
    that runs Resize on two consecutive frames, because the content's
    preferred size is only known once the text has been laid out.

    The content's preferred size (TMP_Text.preferredWidth/Height) is an
    engine measurement; it is a parameter of every step that resizes. */
module DialogAlert {
  import opened Common
  import opened FlyIn
  import opened Ticker

  /** Sizes that Resize applies: the dialog root, the content area and
      each of the two buttons. */
  datatype Layout = Layout(dialog: SizeF, content: SizeF, button: SizeF)

  /** The widest dialog allowed: the reference width less a margin on each side. */
  function MaxDialogWidth(minHorizontalMargin: real): real
  {
    ReferenceWidth - 2.0 * minHorizontalMargin
  }

  /** The tallest dialog allowed: half the reference height. */
  const MaxDialogHeight: real := ReferenceHeight / 2.0

  /** ComputeSize: the dialog grows from its minimum size by as much as the
      content's preferred size exceeds the content's initial size, up to the
      maximum; the content area is clamped the same way between its initial
      size and the maximum less the frame around it; both are rounded up to
      whole units, and each button takes half the dialog's width. */
  function ComputeSize(minSize: SizeF, minHorizontalMargin: real, initContentSize: SizeF,
                       initDiffSize: SizeF, preferred: SizeF, buttonSize: SizeF): (r: Layout)
    ensures IsWhole(r.dialog.width) && IsWhole(r.dialog.height)
    ensures IsWhole(r.content.width) && IsWhole(r.content.height)
    ensures r.button.width * 2.0 == r.dialog.width && r.button.height == buttonSize.height
    ensures minSize.width <= MaxDialogWidth(minHorizontalMargin) ==>
      minSize.width <= r.dialog.width < MaxDialogWidth(minHorizontalMargin) + 1.0
    ensures minSize.height <= MaxDialogHeight ==>
      minSize.height <= r.dialog.height < MaxDialogHeight + 1.0
    ensures initContentSize.width <= preferred.width <= MaxDialogWidth(minHorizontalMargin) - initDiffSize.width ==>
      preferred.width <= r.content.width < preferred.width + 1.0
    ensures initContentSize.height <= preferred.height <= MaxDialogHeight - initDiffSize.height ==>
      preferred.height <= r.content.height < preferred.height + 1.0
  {
    var maxDialogWidth := MaxDialogWidth(minHorizontalMargin);
    var maxDialogHeight := MaxDialogHeight;
    var maxContentWidth := maxDialogWidth - initDiffSize.width;
    var maxContentHeight := maxDialogHeight - initDiffSize.height;
    var diffDialogWidth := preferred.width - initContentSize.width;
    var diffDialogHeight := preferred.height - initContentSize.height;
    var expectContentWidth := initContentSize.width + diffDialogWidth;
    var expectContentHeight := initContentSize.height + diffDialogHeight;
    var expectDialogWidth := minSize.width + diffDialogWidth;
    var expectDialogHeight := minSize.height + diffDialogHeight;
    var content := SizeF(Ceil(Clamp(expectContentWidth, initContentSize.width, maxContentWidth)),
                         Ceil(Clamp(expectContentHeight, initContentSize.height, maxContentHeight)));
    var dialog := SizeF(Ceil(Clamp(expectDialogWidth, minSize.width, maxDialogWidth)),
                        Ceil(Clamp(expectDialogHeight, minSize.height, maxDialogHeight)));
    Layout(dialog, content, SizeF(dialog.width / 2.0, buttonSize.height))
  }

  /** With the frame set up as Awake does (initDiffSize = minSize less the
      initial content size) and whole, the dialog is always exactly the
      content plus that frame: the two clamps never disagree. */
  lemma DialogWrapsContent(minSize: SizeF, minHorizontalMargin: real, initContentSize: SizeF,
                           preferred: SizeF, buttonSize: SizeF)
    requires IsWhole(minSize.width - initContentSize.width)
    requires IsWhole(minSize.height - initContentSize.height)
    ensures var diff := SizeF(minSize.width - initContentSize.width, minSize.height - initContentSize.height);
      var r := ComputeSize(minSize, minHorizontalMargin, initContentSize, diff, preferred, buttonSize);
      && r.dialog.width == r.content.width + diff.width
      && r.dialog.height == r.content.height + diff.height
  {
    var diff := SizeF(minSize.width - initContentSize.width, minSize.height - initContentSize.height);
    var maxW := MaxDialogWidth(minHorizontalMargin);
    var cw := Clamp(preferred.width, initContentSize.width, maxW - diff.width);
    var ch := Clamp(preferred.height, initContentSize.height, MaxDialogHeight - diff.height);
    ClampShift(preferred.width, initContentSize.width, maxW - diff.width, diff.width);
    ClampShift(preferred.height, initContentSize.height, MaxDialogHeight - diff.height, diff.height);
    CeilShiftWhole(cw, diff.width);
    CeilShiftWhole(ch, diff.height);
  }

  /** The callback the operator gives its resize ticker. */
  const ResizeCallback: Callback := 0

  class AlertOperator {
    const fly: FlyInTweener
    const minSize: SizeF
    const minHorizontalMargin: real
    const initContentSize: SizeF
    const initDiffSize: SizeF
    /** The ticker started by the latest Show, if any. */
    var resizer: IntervalPerFrame?
    var dialogSize: SizeF
    var contentSize: SizeF
    var okButtonSize: SizeF
    var cancelButtonSize: SizeF
    /** How many times Resize has run. */
    var resizes: nat

    /** Awake: records the content's initial size and the frame around it
        (the minimum size less that content size). The shipped defaults are
        a 600 x 480 minimum and a 40-unit margin. */
    constructor (initialPosition: Vector2, minSize: SizeF, minHorizontalMargin: real,
                 initContentSize: SizeF, initDialogSize: SizeF, initButtonSize: SizeF)
      ensures fresh(fly) && fly.tween == Tween(false, false) && fly.position == initialPosition
      ensures this.minSize == minSize && this.minHorizontalMargin == minHorizontalMargin
      ensures this.initContentSize == initContentSize
      ensures initDiffSize == SizeF(minSize.width - initContentSize.width, minSize.height - initContentSize.height)
      ensures resizer == null && resizes == 0
      ensures dialogSize == initDialogSize && contentSize == initContentSize
      ensures okButtonSize == initButtonSize && cancelButtonSize == initButtonSize
    {
      fly := new FlyInTweener(initialPosition);
      this.minSize, this.minHorizontalMargin := minSize, minHorizontalMargin;
      this.initContentSize := initContentSize;
      initDiffSize := SizeF(minSize.width - initContentSize.width, minSize.height - initContentSize.height);
      resizer, resizes := null, 0;
      dialogSize, contentSize := initDialogSize, initContentSize;
      okButtonSize, cancelButtonSize := initButtonSize, initButtonSize;
    }

    /** The layout Resize would apply for a content of size `preferred`. */
    function LayoutFor(preferred: SizeF): Layout
      reads this
    {
      ComputeSize(minSize, minHorizontalMargin, initContentSize, initDiffSize, preferred, okButtonSize)
    }

    /** Resize: applies ComputeSize to the dialog, the content and both
        buttons. */
    method Resize(preferred: SizeF)
      modifies this`dialogSize, this`contentSize, this`okButtonSize, this`cancelButtonSize, this`resizes
      ensures var l := old(LayoutFor(preferred));
        && dialogSize == l.dialog && contentSize == l.content
        && okButtonSize == l.button && cancelButtonSize == l.button
      ensures resizes == old(resizes) + 1
    {
      var layout := LayoutFor(preferred);
      dialogSize := layout.dialog;
      contentSize := layout.content;
      okButtonSize := layout.button;
      cancelButtonSize := layout.button;
      resizes := resizes + 1;
    }

    /** Show: dropped while the tween plays; otherwise the dialog flies in
        from `direct`, and a new ticker runs Resize for two frames, the
        first of them at once (a coroutine runs to its first yield when it
        starts). `preferred` is the content's preferred size at that moment. */
    method Show(direct: FlyInDirection, duration: real, preferred: SizeF)
      modifies this, fly
      ensures old(fly.tween.playing) ==> unchanged(this, fly)
      ensures !old(fly.tween.playing) ==>
        && fly.position == StartOffset(direct, old(fly.position)) && fly.from == fly.position
        && fly.duration == duration && fly.tween == Tween(true, false)
        && resizer != null && fresh(resizer)
        && resizer.times == 2 && resizer.callback == Some(ResizeCallback)
        && resizer.coroutine == Some(AfterCall(1)) && resizer.invocations == 1
        && resizes == old(resizes) + 1
        && dialogSize == old(LayoutFor(preferred)).dialog
        && contentSize == old(LayoutFor(preferred)).content
    {
      var started := fly.Show(direct, duration);
      if !started {
        return;
      }
      var ticker := new IntervalPerFrame();
      var self := ticker.SetTimes(2);
      self := ticker.SetCallback(Some(ResizeCallback));
      var fired := ticker.Start();
      resizer := ticker;
      if fired {
        Resize(preferred);
      }
    }

    /** One rendered frame: the resize ticker resumes and, while it has
        frames left, runs Resize with the content's current preferred size. */
    method Frame(preferred: SizeF) returns (resized: bool)
      requires resizer != null
      modifies resizer, this`dialogSize, this`contentSize, this`okButtonSize, this`cancelButtonSize, this`resizes
      ensures resizer.times == old(resizer.times) && resizer.callback == old(resizer.callback)
      ensures old(resizer.coroutine).None? ==> !resized && resizer.coroutine == None
      ensures old(resizer.coroutine).Some? ==>
        var i := if old(resizer.coroutine).value.Delaying? then 0 else old(resizer.coroutine).value.done;
        && resized == (i < resizer.times && resizer.callback.Some?)
        && resizer.coroutine == (if i < resizer.times then Some(AfterCall(i + 1)) else None)
      ensures resized ==> dialogSize == old(LayoutFor(preferred)).dialog
                          && contentSize == old(LayoutFor(preferred)).content
                          && resizes == old(resizes) + 1
      ensures !resized ==> dialogSize == old(dialogSize) && contentSize == old(contentSize)
                           && resizes == old(resizes)
    {
      resized := resizer.Tick();
      if resized {
        Resize(preferred);
      }
    }
  }

  /** A dialog shown while its text is still being laid out: the first
      Resize uses the size measured when Show runs, the second the size one
      frame later, and on the third frame the ticker stops by itself, so
      the final layout is the one for the settled text and Resize ran twice. */
  method ShowSettlesLayout(first: SizeF, settled: SizeF)
    returns (resizes: nat, dialog: SizeF, resizerDone: bool)
    ensures resizes == 2 && resizerDone
    ensures dialog == ComputeSize(SizeF(600.0, 480.0), 40.0, SizeF(520.0, 300.0),
                                  SizeF(80.0, 180.0), settled, SizeF(260.0, 100.0)).dialog
  {
    var op := new AlertOperator(Vector2(0.0, 0.0), SizeF(600.0, 480.0), 40.0,
                                SizeF(520.0, 300.0), SizeF(600.0, 480.0), SizeF(260.0, 100.0));
    op.Show(FromBottom, DefaultFlyInDuration, first);
    var again := op.Frame(settled);
    var last := op.Frame(settled);
    resizes, dialog := op.resizes, op.dialogSize;
    resizerDone := op.resizer.coroutine.None?;
  }
}
