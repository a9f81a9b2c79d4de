/** The fly-in animator shared by both AlertOperator classes (UI and
    UI/Dialog): the dialog root's anchored position driven by one reusable
    DOTween tweener whose end value is always the centre (0, 0). Show puts
    the root one reference extent off screen and plays forward; Hide plays
    the same tween backwards; while the tween plays, both are dropped. */
module FlyIn {
  import opened Common

  /** AlertOperator.DefaultFlyInDuration */
  const DefaultFlyInDuration: real := 0.5

  const Centre: Vector2 := Vector2(0.0, 0.0)

  class FlyInTweener {
    /** dialogRoot.anchoredPosition */
    var position: Vector2
    var tween: Tween
    var ease: Ease
    /** The tweener's start value and duration. */
    var from: Vector2
    var duration: real

    /** Awake: the tweener is made paused, from the root's current position
        to the centre over the default duration. */
    constructor (initialPosition: Vector2)
      ensures position == initialPosition && from == initialPosition
      ensures tween == Tween(false, false) && ease == EngineDefault
      ensures duration == DefaultFlyInDuration
    {
      position, from := initialPosition, initialPosition;
      tween, ease, duration := Tween(false, false), EngineDefault, DefaultFlyInDuration;
    }

    /** Show(direct, duration): dropped while playing; otherwise the root
        jumps to the start offset of `direct` and the tween plays forward
        from there to the centre with a bouncing ease. */
    method Show(direct: FlyInDirection, flyDuration: real) returns (started: bool)
      modifies this
      ensures started == !old(tween.playing)
      ensures !started ==> unchanged(this)
      ensures started ==>
        && position == StartOffset(direct, old(position)) && from == position
        && duration == flyDuration && ease == InOutBounce && tween == Tween(true, false)
    {
      if tween.playing {
        return false;
      }
      position := StartOffset(direct, position);
      ease := InOutBounce;
      from, duration := position, flyDuration;
      tween := Tween(true, false);
      started := true;
    }

    /** Hide(): dropped while playing; otherwise the tween plays backwards
        with a cubic ease, toward its start value. */
    method Hide() returns (started: bool)
      modifies this
      ensures started == !old(tween.playing)
      ensures !started ==> unchanged(this)
      ensures started ==>
        && tween == Tween(true, true) && ease == OutCubic
        && position == old(position) && from == old(from) && duration == old(duration)
    {
      if tween.playing {
        return false;
      }
      ease := OutCubic;
      tween := Tween(true, true);
      started := true;
    }

    /** Engine event: the tween reached its end (forward) or its start
        (backwards). OnTweenCompleted reports hidden exactly when it ran
        backwards. */
    method Complete() returns (hidden: bool)
      requires tween.playing
      modifies this
      ensures hidden == old(tween.backwards)
      ensures tween == Tween(false, hidden)
      ensures position == if hidden then from else Centre
      ensures from == old(from) && duration == old(duration) && ease == old(ease)
    {
      hidden := tween.backwards;
      tween := Tween(false, hidden);
      position := if hidden then from else Centre;
    }
  }

  /** A full show and hide from any direction other than NoDirection: the
      dialog enters from off screen, rests at the centre, and leaves back to
      the same off-screen place; a second Show while the first plays and a
      Hide during the fly-in are both dropped. */
  method ShowThenHide(direct: FlyInDirection, flyDuration: real, initial: Vector2)
    returns (shown: Vector2, gone: Vector2, events: seq<bool>, droppedWhilePlaying: bool)
    requires !direct.NoDirection?
    ensures shown == Centre
    ensures gone == StartOffset(direct, initial) && gone != Centre
    ensures events == [false, true]
    ensures droppedWhilePlaying
  {
    var fly := new FlyInTweener(initial);
    var started := fly.Show(direct, flyDuration);
    var again := fly.Show(FromLeft, 1.0);
    var early := fly.Hide();
    droppedWhilePlaying := !again && !early;
    var hidden := fly.Complete();
    events := [hidden];
    shown := fly.position;
    started := fly.Hide();
    hidden := fly.Complete();
    events := events + [hidden];
    gone := fly.position;
  }
}
