/** The celebration screen's staged reveal. Four independent timers, started
    when the screen mounts, switch on the card, the message, the media
    container and the rest of the content. Time is the number of
    milliseconds since mount; the timers are exact. */
module Reveal {

  const CardDelay: nat := 100
  const MessageDelay: nat := 400
  const MediaDelay: nat := 1200
  const RestDelay: nat := 1800

  /** The reveal as a forward-only sequence of stages. */
  datatype Stage = Hidden | CardShown | MessageShown | MediaShown | FullyRevealed

  function Rank(st: Stage): nat
  {
    match st
    case Hidden => 0
    case CardShown => 1
    case MessageShown => 2
    case MediaShown => 3
    case FullyRevealed => 4
  }

  /** The stage reached `t` ms after mount: each stage begins at its own
      delay and lasts until the next one begins. */
  function StageAt(t: int): (st: Stage)
    ensures Rank(st) >= 1 <==> t >= CardDelay
    ensures Rank(st) >= 2 <==> t >= MessageDelay
    ensures Rank(st) >= 3 <==> t >= MediaDelay
    ensures Rank(st) >= 4 <==> t >= RestDelay
  {
    if t >= RestDelay then FullyRevealed
    else if t >= MediaDelay then MediaShown
    else if t >= MessageDelay then MessageShown
    else if t >= CardDelay then CardShown
    else Hidden
  }

  /** The four visibility flags of the screen. */
  datatype RevealFlags = RevealFlags(card: bool, message: bool, media: bool, rest: bool)

  /** The flags the four timers have set by `t` ms after mount, each timer
      on its own. */
  function TimerFlags(t: int): RevealFlags
  {
    RevealFlags(t >= CardDelay, t >= MessageDelay, t >= MediaDelay, t >= RestDelay)
  }

  /** The flags that are on in a stage. */
  function StageFlags(st: Stage): RevealFlags
  {
    RevealFlags(Rank(st) >= 1, Rank(st) >= 2, Rank(st) >= 3, Rank(st) >= 4)
  }

  /** Every flag implied by `f` is on in `g`. */
  predicate FlagsWithin(f: RevealFlags, g: RevealFlags)
  {
    (f.card ==> g.card) && (f.message ==> g.message) && (f.media ==> g.media) && (f.rest ==> g.rest)
  }

  /** The independent timers never produce a combination of flags outside
      the stage sequence: at every instant the flags are exactly those of
      one stage, so they come on in the order card, message, media, rest. */
  lemma TimersFollowStages(t: int)
    ensures TimerFlags(t) == StageFlags(StageAt(t))
    ensures var f := TimerFlags(t); (f.rest ==> f.media) && (f.media ==> f.message) && (f.message ==> f.card)
  {
  }

  /** Stages only move forward, and a flag, once on, stays on. */
  lemma RevealIsForwardOnly(t1: int, t2: int)
    requires t1 <= t2
    ensures Rank(StageAt(t1)) <= Rank(StageAt(t2))
    ensures FlagsWithin(TimerFlags(t1), TimerFlags(t2))
  {
  }

  /** The celebration screen's state as the component holds it. */
  class CelebrationScreen {
    var showCard: bool
    var showEmotionalMessage: bool
    var showGifContainer: bool
    var showRestOfContent: bool
    var gifLoaded: bool
    var isReplaying: bool
    /** Milliseconds since the screen mounted. */
    var elapsed: nat

    function Flags(): RevealFlags
      reads this
    {
      RevealFlags(showCard, showEmotionalMessage, showGifContainer, showRestOfContent)
    }

    ghost predicate Valid()
      reads this
    {
      Flags() == TimerFlags(elapsed)
    }

    /** Whether the loading placeholder stands in for the media. */
    function PlaceholderShown(): bool
      reads this
    {
      showGifContainer && !gifLoaded
    }

    /** Mounting the screen; `gifPreloaded` says whether the media finished
        loading before the screen mounted. */
    constructor (gifPreloaded: bool)
      ensures Valid() && elapsed == 0
      ensures Flags() == StageFlags(Hidden)
      ensures gifLoaded == gifPreloaded && !isReplaying
    {
      showCard := false;
      showEmotionalMessage := false;
      showGifContainer := false;
      showRestOfContent := false;
      gifLoaded := gifPreloaded;
      isReplaying := false;
      elapsed := 0;
    }

    /** Time passes to `t` ms after mount; every timer whose delay has passed
        has fired. */
    method AdvanceTo(t: nat)
      requires Valid() && elapsed <= t
      modifies this
      ensures Valid() && elapsed == t
      ensures Flags() == StageFlags(StageAt(t))
      ensures FlagsWithin(old(Flags()), Flags())
      ensures gifLoaded == old(gifLoaded) && isReplaying == old(isReplaying)
    {
      if t >= CardDelay {
        showCard := true;
      }
      if t >= MessageDelay {
        showEmotionalMessage := true;
      }
      if t >= MediaDelay {
        showGifContainer := true;
      }
      if t >= RestDelay {
        showRestOfContent := true;
      }
      RevealIsForwardOnly(elapsed, t);
      TimersFollowStages(t);
      elapsed := t;
    }

    /** The fallback load of the media ended, successfully or not: either way
        the media counts as loaded, so the placeholder cannot stay. */
    method GifSettled()
      modifies this
      ensures gifLoaded && !PlaceholderShown()
      ensures Flags() == old(Flags()) && elapsed == old(elapsed) && isReplaying == old(isReplaying)
    {
      gifLoaded := true;
    }

    /** The restart action: the button disables itself at once (the reload
        that follows is not part of this model). */
    method HandleReplay()
      modifies this
      ensures isReplaying
      ensures Flags() == old(Flags()) && elapsed == old(elapsed) && gifLoaded == old(gifLoaded)
    {
      isReplaying := true;
    }
  }
}
