/** The evasive "No" button's controller. Every trigger (pointer enter,
    click or touch start) either relocates the button to the next anchor of
    the ring or, once 11 failed attempts are counted, fades it out for
    good.
    The controller's timer callbacks are explicit events: `ShakeDone` is the
    120 ms callback, `MoveDone` the 500 ms one and `FadeDone` the 800 ms one.

    `NoButtonState` and `Step` give the behaviour as values; the class
    `NoButton` holds the same state in fields and has one method per event,
    each proved to perform `Step`. */
module Evasion {
  import opened Wrappers
  import opened Geometry
  import NoLabel

  /** The timer callback the controller has scheduled, if any. */
  datatype Timer = NoTimer | ShakeTimer | FinalShakeTimer | SettleTimer | FadeTimer

  datatype Event = Trigger | ShakeDone(layout: Layout) | MoveDone | FadeDone

  datatype NoButtonState = NoButtonState(
    attempts: int,
    anchorIndex: int,
    position: Option<Point>,
    shaking: bool,
    moving: bool,
    fading: bool,
    gone: bool,
    pending: Timer)

  /** The state at mount: no attempt, not yet placed on the ring. */
  const Initial: NoButtonState :=
    NoButtonState(0, -1, None, false, false, false, false, NoTimer)

  /** A trigger that arrives in such a state is dropped. */
  predicate Blocked(s: NoButtonState) { s.gone || s.fading || s.moving || s.shaking }

  /** The states the controller can be in. At most one transition is
      active, and each active flag has its timer scheduled; a count of 12
      means the final path has started. */
  predicate Inv(s: NoButtonState) {
    && 0 <= s.attempts <= NoLabel.MaxNoAttempts
    && -1 <= s.anchorIndex < AnchorCount
    && (s.shaking <==> s.pending.ShakeTimer? || s.pending.FinalShakeTimer?)
    && (s.moving <==> s.pending.SettleTimer?)
    && (s.pending.FadeTimer? <==> s.fading && !s.gone)
    && (s.gone ==> s.fading)
    && (s.fading ==> !s.shaking && !s.moving)
    && (s.shaking ==> !s.moving)
    && (s.pending.ShakeTimer? ==> s.attempts < NoLabel.MaxNoAttempts - 1)
    && (s.pending.FinalShakeTimer? || s.fading <==> s.attempts == NoLabel.MaxNoAttempts)
  }

  /** The next anchor on the ring. */
  function NextAnchor(anchorIndex: int): (next: int)
    requires -1 <= anchorIndex
    ensures 0 <= next < AnchorCount
    ensures anchorIndex < AnchorCount - 1 ==> next == anchorIndex + 1
    ensures anchorIndex == AnchorCount - 1 ==> next == 0
  {
    (anchorIndex + 1) % AnchorCount
  }

  /** A trigger: dropped while blocked; otherwise the shake starts, and on
      the final path the count jumps to the cap at once. */
  function OnTrigger(s: NoButtonState): NoButtonState
  {
    if Blocked(s) then s
    else if s.attempts >= NoLabel.MaxNoAttempts - 1 then
      s.(attempts := NoLabel.MaxNoAttempts, shaking := true, pending := FinalShakeTimer)
    else
      s.(shaking := true, pending := ShakeTimer)
  }

  /** The end of the shake. Normal path: move to the next anchor when the
      card can be measured (otherwise stay put) and count the attempt. Final
      path: rest at the bottom-centre anchor when the card can be measured,
      and start fading. */
  function OnShakeDone(s: NoButtonState, l: Layout): NoButtonState
    requires Inv(s)
  {
    match s.pending
    case ShakeTimer =>
      var next := NextAnchor(s.anchorIndex);
      var pos := GetAnchorPosition(l, next);
      s.(shaking := false, moving := true,
         position := if pos.Some? then pos else s.position,
         anchorIndex := if pos.Some? then next else s.anchorIndex,
         attempts := s.attempts + 1,
         pending := SettleTimer)
    case FinalShakeTimer =>
      var pos := GetAnchorPosition(l, BottomCenter);
      s.(shaking := false,
         position := if pos.Some? then pos else s.position,
         fading := true,
         pending := FadeTimer)
    case _ => s
  }

  /** One event. A timer event whose timer is not scheduled never fires, so
      it changes nothing. */
  function Step(s: NoButtonState, e: Event): (r: NoButtonState)
    requires Inv(s)
    ensures Inv(r)
    ensures s.attempts <= r.attempts
    ensures s.gone ==> r == s
  {
    match e
    case Trigger => OnTrigger(s)
    case ShakeDone(l) => OnShakeDone(s, l)
    case MoveDone => if s.pending.SettleTimer? then s.(moving := false, pending := NoTimer) else s
    case FadeDone => if s.pending.FadeTimer? then s.(gone := true, pending := NoTimer) else s
  }

  /** A sequence of events, in order. */
  function Run(s: NoButtonState, events: seq<Event>): (r: NoButtonState)
    requires Inv(s)
    ensures Inv(r)
    ensures s.attempts <= r.attempts
    decreases |events|
  {
    if events == [] then s else Run(Step(s, events[0]), events[1..])
  }

  lemma InitialInv()
    ensures Inv(Initial) && !Blocked(Initial)
  {
  }

  /** A trigger while shaking, moving, fading or gone changes nothing. */
  lemma BlockedTriggerIsDropped(s: NoButtonState)
    requires Inv(s) && Blocked(s)
    ensures Step(s, Trigger) == s
  {
  }

  /** Once gone, no sequence of events has any effect. */
  lemma {:induction false} GoneIsTerminal(s: NoButtonState, events: seq<Event>)
    requires Inv(s) && s.gone
    ensures Run(s, events) == s
    decreases |events|
  {
    if events != [] {
      GoneIsTerminal(Step(s, events[0]), events[1..]);
    }
  }

  /** From any reachable state, the attempt count stays within [0, 12] and the
      anchor index within [-1, 7], whatever happens. */
  lemma {:induction false} BoundsAlwaysHold(events: seq<Event>)
    ensures var r := Run(Initial, events);
      0 <= r.attempts <= NoLabel.MaxNoAttempts && -1 <= r.anchorIndex < AnchorCount
  {
    InitialInv();
  }

  /** Running two sequences one after the other is running their
      concatenation. */
  lemma {:induction false} RunAppend(s: NoButtonState, a: seq<Event>, b: seq<Event>)
    requires Inv(s)
    ensures Run(s, a + b) == Run(Run(s, a), b)
    decreases |a|
  {
    if a == [] {
      assert a + b == b;
    } else {
      assert (a + b)[0] == a[0] && (a + b)[1..] == a[1..] + b;
      RunAppend(Step(s, a[0]), a[1..], b);
    }
  }

  /** Running three events is stepping through them one by one. */
  lemma RunThree(s: NoButtonState, e1: Event, e2: Event, e3: Event)
    requires Inv(s)
    ensures Run(s, [e1, e2, e3]) == Step(Step(Step(s, e1), e2), e3)
  {
    var s1 := Step(s, e1);
    var s2 := Step(s1, e2);
    assert [e1, e2, e3][1..] == [e2, e3];
    assert [e2, e3][1..] == [e3];
    assert [e3][1..] == [];
    assert Run(s2, [e3]) == Run(Step(s2, e3), []);
    assert Run(s1, [e2, e3]) == Run(s2, [e3]);
  }

  /** Whatever the event and whether or not the card can be measured, the
      anchor index either stays or takes exactly one step round the ring,
      and the count either stays, grows by one, or jumps to the cap. */
  lemma NoSkips(s: NoButtonState, e: Event)
    requires Inv(s)
    ensures var r := Step(s, e);
      && (r.anchorIndex == s.anchorIndex || r.anchorIndex == (s.anchorIndex + 1) % AnchorCount)
      && (r.attempts == s.attempts || r.attempts == s.attempts + 1 || r.attempts == NoLabel.MaxNoAttempts)
  {
  }

  /** Normal path: a trigger only starts the shake. The count, the anchor,
      the position and every other flag are left as they were. */
  lemma NormalTrigger(s: NoButtonState)
    requires Inv(s) && !Blocked(s) && s.attempts < NoLabel.MaxNoAttempts - 1
    ensures var t := Step(s, Trigger);
      && t.shaking && t.pending.ShakeTimer?
      && t.attempts == s.attempts && t.anchorIndex == s.anchorIndex
      && t.position == s.position
      && t.moving == s.moving && t.fading == s.fading && t.gone == s.gone
  {
  }

  /** Normal path: the shake's end counts the attempt, and advances the anchor
      by one step round the ring and moves the button there exactly when the
      card can be measured. */
  lemma NormalShakeDone(s: NoButtonState, l: Layout)
    requires Inv(s) && s.pending.ShakeTimer?
    ensures var r := Step(s, ShakeDone(l));
      && r.attempts == s.attempts + 1
      && r.moving && !r.shaking
      && (l.card.Some? ==> r.anchorIndex == (s.anchorIndex + 1) % AnchorCount
                           && r.position == GetAnchorPosition(l, r.anchorIndex))
      && (l.card.None? ==> r.anchorIndex == s.anchorIndex && r.position == s.position)
  {
  }

  /** Final path: the trigger sets the count to 12 at once; the shake's end
      rests the button at the bottom-centre anchor (if the card can be
      measured) and starts the fade, leaving the anchor index alone; the
      fade's end removes the button. */
  lemma FinalPath(s: NoButtonState, l: Layout)
    requires Inv(s) && !Blocked(s) && s.attempts >= NoLabel.MaxNoAttempts - 1
    ensures var t := Step(s, Trigger);
      t.attempts == NoLabel.MaxNoAttempts && t.shaking && t.anchorIndex == s.anchorIndex
    ensures var f := Step(Step(s, Trigger), ShakeDone(l));
      && f.fading && !f.gone && f.anchorIndex == s.anchorIndex
      && f.attempts == NoLabel.MaxNoAttempts
      && f.position == (if l.card.Some? then GetAnchorPosition(l, BottomCenter) else s.position)
    ensures Step(Step(Step(s, Trigger), ShakeDone(l)), FadeDone).gone
  {
  }

  /** One relocation round: a trigger, the shake's end, the move's end. */
  function Round(l: Layout): seq<Event> { [Trigger, ShakeDone(l), MoveDone] }

  function Rounds(layouts: seq<Layout>): seq<Event>
    decreases |layouts|
  {
    if layouts == [] then [] else Rounds(layouts[..|layouts| - 1]) + Round(layouts[|layouts| - 1])
  }

  predicate AllMeasurable(layouts: seq<Layout>) {
    forall i :: 0 <= i < |layouts| ==> layouts[i].card.Some?
  }

  lemma NextAnchorMod(k: nat)
    ensures NextAnchor(k % AnchorCount) == (k + 1) % AnchorCount
  {
  }

  /** One relocation round from an idle state on the normal path, with a
      measurable card: one more attempt, one step round the ring, the button
      at the position resolved for the new anchor, and idle again. */
  lemma RoundFromIdle(s: NoButtonState, l: Layout)
    requires Inv(s) && !Blocked(s) && s.attempts < NoLabel.MaxNoAttempts - 1 && l.card.Some?
    ensures var r := Run(s, Round(l));
      && r.attempts == s.attempts + 1
      && !Blocked(r)
      && r.anchorIndex == NextAnchor(s.anchorIndex)
      && r.position == GetAnchorPosition(l, r.anchorIndex)
  {
    RunThree(s, Trigger, ShakeDone(l), MoveDone);
    NormalShakeDone(Step(s, Trigger), l);
  }

  /** One round from an idle state on the normal path while the card cannot
      be measured: the attempt still counts, but the button keeps its anchor
      and its last position, and is idle again. */
  lemma RoundUnmeasurable(s: NoButtonState, l: Layout)
    requires Inv(s) && !Blocked(s) && s.attempts < NoLabel.MaxNoAttempts - 1 && l.card.None?
    ensures var r := Run(s, Round(l));
      && r.attempts == s.attempts + 1
      && !Blocked(r)
      && r.anchorIndex == s.anchorIndex
      && r.position == s.position
  {
    RunThree(s, Trigger, ShakeDone(l), MoveDone);
    NormalTrigger(s);
    NormalShakeDone(Step(s, Trigger), l);
  }

  /** Successive relocations from a fresh session visit the anchors
      0, 1, ..., 7, 0, ... in order with no skip: after k rounds (k <= 11)
      with a measurable card, k attempts are counted, the button sits at
      anchor (k - 1) mod 8, at the position resolved for it, and accepts the
      next trigger. */
  lemma {:induction false} RelocationsCycle(layouts: seq<Layout>)
    requires |layouts| < NoLabel.MaxNoAttempts && AllMeasurable(layouts)
    ensures var r := Run(Initial, Rounds(layouts));
      && r.attempts == |layouts|
      && !Blocked(r)
      && (layouts == [] ==> r == Initial)
      && (layouts != [] ==>
            r.anchorIndex == (|layouts| - 1) % AnchorCount
            && r.position == GetAnchorPosition(layouts[|layouts| - 1], r.anchorIndex))
    decreases |layouts|
  {
    InitialInv();
    if layouts != [] {
      var n := |layouts|;
      var prefix := layouts[..n - 1];
      var l := layouts[n - 1];
      assert AllMeasurable(prefix) by {
        forall i | 0 <= i < |prefix| ensures prefix[i].card.Some? {
          assert prefix[i] == layouts[i];
        }
      }
      RelocationsCycle(prefix);
      var s := Run(Initial, Rounds(prefix));
      assert Rounds(layouts) == Rounds(prefix) + Round(l);
      RunAppend(Initial, Rounds(prefix), Round(l));
      RoundFromIdle(s, l);
      var r := Run(Initial, Rounds(layouts));
      assert r == Run(s, Round(l));
      if n == 1 {
        assert s == Initial;
        assert r.anchorIndex == 0;
      } else {
        assert s.anchorIndex == (n - 2) % AnchorCount;
        NextAnchorMod(n - 2);
        assert r.anchorIndex == (n - 1) % AnchorCount;
      }
      assert layouts[|layouts| - 1] == l;
    }
  }

  /** A whole session that refuses eleven times and then once more: the
      button ends gone with 12 attempts counted, resting at the bottom-centre
      anchor, and the label shown just before removal is the terminal one. */
  lemma {:induction false} FullSession(layouts: seq<Layout>, l: Layout)
    requires |layouts| == NoLabel.MaxNoAttempts - 1 && AllMeasurable(layouts) && l.card.Some?
    ensures var r := Run(Initial, Rounds(layouts) + [Trigger, ShakeDone(l), FadeDone]);
      && r.gone
      && r.attempts == NoLabel.MaxNoAttempts
      && r.position == GetAnchorPosition(l, BottomCenter)
      && NoLabel.NoButtonText(r.attempts) == NoLabel.TerminalMessage
  {
    InitialInv();
    RelocationsCycle(layouts);
    var s := Run(Initial, Rounds(layouts));
    var tail := [Trigger, ShakeDone(l), FadeDone];
    RunAppend(Initial, Rounds(layouts), tail);
    RunThree(s, Trigger, ShakeDone(l), FadeDone);
    FinalPath(s, l);
  }

  /** The controller as the component holds it: one field per piece of
      state, plus the timer callback it has scheduled. */
  class NoButton {
    var noAttempts: nat
    var currentAnchorIndex: int
    var noPosition: Option<Point>
    var isNoMoving: bool
    var isNoShaking: bool
    var noButtonGone: bool
    var noButtonFading: bool
    var pending: Timer

    function Model(): NoButtonState
      reads this
    {
      NoButtonState(noAttempts, currentAnchorIndex, noPosition, isNoShaking,
                    isNoMoving, noButtonFading, noButtonGone, pending)
    }

    ghost predicate Valid()
      reads this
    {
      Inv(Model())
    }

    constructor ()
      ensures Valid() && Model() == Initial
    {
      noAttempts := 0;
      currentAnchorIndex := -1;
      noPosition := None;
      isNoMoving := false;
      isNoShaking := false;
      noButtonGone := false;
      noButtonFading := false;
      pending := NoTimer;
    }

    /** The label the button shows now, in every state. */
    function Text(): (text: string)
      reads this
      ensures text == NoLabel.NoButtonText(noAttempts)
      ensures noAttempts >= NoLabel.MaxNoAttempts - 1 ==> text == NoLabel.TerminalMessage
    {
      NoLabel.NoButtonText(noAttempts)
    }

    /** Pointer enter, click or touch start on the button. */
    method MoveNoButton()
      requires Valid()
      modifies this
      ensures Valid() && Model() == Step(old(Model()), Trigger)
      ensures old(Blocked(Model())) ==> unchanged(this)
      ensures noAttempts < NoLabel.MaxNoAttempts ==>
        && noAttempts == old(noAttempts) && currentAnchorIndex == old(currentAnchorIndex)
        && noPosition == old(noPosition)
    {
      if noButtonGone || noButtonFading || isNoMoving || isNoShaking {
        return;
      }
      if noAttempts >= NoLabel.MaxNoAttempts - 1 {
        noAttempts := NoLabel.MaxNoAttempts;
        isNoShaking := true;
        pending := FinalShakeTimer;
        return;
      }
      isNoShaking := true;
      pending := ShakeTimer;
    }

    /** The 120 ms callback scheduled by a trigger, reading the page's
        layout as it is when it fires. */
    method ShakeElapsed(layout: Layout)
      requires Valid() && isNoShaking
      modifies this
      ensures Valid() && Model() == Step(old(Model()), ShakeDone(layout))
      ensures noAttempts == old(noAttempts) + 1 || noAttempts == NoLabel.MaxNoAttempts
    {
      isNoShaking := false;
      if pending == FinalShakeTimer {
        var finalPos := GetAnchorPosition(layout, BottomCenter);
        if finalPos.Some? {
          noPosition := finalPos;
        }
        noButtonFading := true;
        pending := FadeTimer;
      } else {
        isNoMoving := true;
        var nextIndex := (currentAnchorIndex + 1) % AnchorCount;
        var newPos := GetAnchorPosition(layout, nextIndex);
        if newPos.Some? {
          noPosition := newPos;
          currentAnchorIndex := nextIndex;
        }
        noAttempts := noAttempts + 1;
        pending := SettleTimer;
      }
    }

    /** The 500 ms callback that ends a move. */
    method MoveElapsed()
      requires Valid() && isNoMoving
      modifies this
      ensures Valid() && Model() == Step(old(Model()), MoveDone)
      ensures !Blocked(Model())
    {
      isNoMoving := false;
      pending := NoTimer;
    }

    /** The 800 ms callback that ends the fade and removes the button. */
    method FadeElapsed()
      requires Valid() && noButtonFading && !noButtonGone
      modifies this
      ensures Valid() && Model() == Step(old(Model()), FadeDone)
      ensures noButtonGone
    {
      noButtonGone := true;
      pending := NoTimer;
    }
  }
}
