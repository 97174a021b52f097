/**
 * The flag machine of the unlocked screen-off animation: while the device
 * goes to sleep unlocked, a light-reveal animator hides the screen and, after
 * a fixed delay, the AOD UI animates in.
 *
 * The animator and the handler are abstract: the model records whether the
 * animator is running and how many delayed AOD steps are still posted, and
 * their callbacks are events.
 */
module UnlockedScreenOffAnimation {

  /** `ANIMATE_IN_KEYGUARD_DELAY`, in milliseconds. */
  const ANIMATE_IN_KEYGUARD_DELAY: nat := 600
  /** `LIGHT_REVEAL_ANIMATION_DURATION`, in milliseconds. */
  const LIGHT_REVEAL_ANIMATION_DURATION: nat := 750

  datatype StatusBarState = Shade | Keyguard | ShadeLocked

  /**
   * The two playing flags, whether the light-reveal animator is running, and
   * the number of delayed AOD steps still posted on the handler.
   */
  datatype Flags = Flags(lightRevealAnimationPlaying: bool, aodUiAnimationPlaying: bool,
                         lightRevealAnimatorRunning: bool, pendingAodSteps: nat)

  /** The callbacks that drive the flags. */
  datatype Event =
    | StartedGoingToSleep(shouldControlUnlockedScreenOff: bool, state: StatusBarState)
    | AodStepFired           // the delayed runnable posted when going to sleep
    | LightRevealEnded       // the animator's onAnimationEnd after a normal run
    | KeyguardAnimateInEnded // the end action of animateInKeyguard
    | StartedWakingUp
    | FinishedWakingUp

  const Initial := Flags(false, false, false, 0)

  /**
   * `shouldPlayScreenOffAnimation`: only when the doze parameters let the
   * controller drive the unlocked screen-off, and only from the SHADE state;
   * from KEYGUARD or SHADE_LOCKED the regular screen-off plays.
   */
  function ShouldPlayScreenOffAnimation(shouldControlUnlockedScreenOff: bool, state: StatusBarState): (r: bool)
    ensures r ==> shouldControlUnlockedScreenOff
    ensures state == Keyguard || state == ShadeLocked ==> !r
    ensures shouldControlUnlockedScreenOff && state == Shade ==> r
  {
    shouldControlUnlockedScreenOff && state == Shade
  }

  /**
   * `isScreenOffAnimationPlaying`: the light reveal is playing, or it is done
   * and the AOD UI is animating in.
   */
  function IsScreenOffAnimationPlaying(f: Flags): (r: bool)
    ensures f.lightRevealAnimationPlaying ==> r
    ensures !f.lightRevealAnimationPlaying ==> (r <==> f.aodUiAnimationPlaying)
  {
    f.lightRevealAnimationPlaying || f.aodUiAnimationPlaying
  }

  /**
   * The effect of one event. An event that cannot occur in the given state
   * (an AOD step with none posted, an end of an animator that is not
   * running) leaves the flags as they are. Every event keeps the flags
   * consistent; only an event that starts the animation raises the
   * light-reveal flag or posts an AOD step, and only a posted AOD step raises
   * the AOD flag.
   */
  function Step(f: Flags, e: Event): (r: Flags)
    ensures Consistent(f) ==> Consistent(r)
    ensures !f.lightRevealAnimationPlaying && r.lightRevealAnimationPlaying ==> StartsAnimation(e)
    ensures r.pendingAodSteps > f.pendingAodSteps ==> StartsAnimation(e) && r.pendingAodSteps == f.pendingAodSteps + 1
    ensures !f.aodUiAnimationPlaying && r.aodUiAnimationPlaying ==> e == AodStepFired && f.pendingAodSteps > 0
  {
    match e
    case StartedGoingToSleep(control, state) =>
      if ShouldPlayScreenOffAnimation(control, state) then
        f.(lightRevealAnimationPlaying := true, lightRevealAnimatorRunning := true,
           pendingAodSteps := f.pendingAodSteps + 1)
      else f
    case AodStepFired =>
      if f.pendingAodSteps == 0 then f
      else f.(aodUiAnimationPlaying := true, pendingAodSteps := f.pendingAodSteps - 1)
    case LightRevealEnded =>
      if f.lightRevealAnimatorRunning then
        f.(lightRevealAnimationPlaying := false, lightRevealAnimatorRunning := false)
      else f
    case KeyguardAnimateInEnded =>
      f.(aodUiAnimationPlaying := false)
    case StartedWakingUp =>
      // cancel() on a running animator runs onAnimationCancel, then onAnimationEnd;
      // removeCallbacksAndMessages(null) drops every posted AOD step.
      var g := if f.lightRevealAnimatorRunning then
                 f.(lightRevealAnimationPlaying := false, lightRevealAnimatorRunning := false)
               else f;
      g.(pendingAodSteps := 0)
    case FinishedWakingUp =>
      f.(lightRevealAnimationPlaying := false, aodUiAnimationPlaying := false)
  }

  /** The flags after a sequence of events, first event first. */
  function Run(f: Flags, events: seq<Event>): Flags
    decreases |events|
  {
    if events == [] then f else Run(Step(f, events[0]), events[1..])
  }

  /** The light-reveal flag is only set while its animator runs. */
  predicate Consistent(f: Flags)
  {
    f.lightRevealAnimationPlaying ==> f.lightRevealAnimatorRunning
  }

  /** Whether an event starts the animation. */
  predicate StartsAnimation(e: Event)
  {
    e.StartedGoingToSleep? && ShouldPlayScreenOffAnimation(e.shouldControlUnlockedScreenOff, e.state)
  }

  /** Every sequence of events keeps the flags consistent; the initial flags are. */
  lemma {:induction false} RunConsistent(f: Flags, events: seq<Event>)
    requires Consistent(f)
    ensures Consistent(Run(f, events))
    decreases |events|
  {
    if events != [] {
      RunConsistent(Step(f, events[0]), events[1..]);
    }
  }

  /** Going to sleep changes a flag only when the animation should play, and then starts it. */
  lemma GoingToSleepStartsOnlyWhenItShouldPlay(f: Flags, control: bool, state: StatusBarState)
    ensures var g := Step(f, StartedGoingToSleep(control, state));
      && (g != f ==> control && state == Shade)
      && (control && state == Shade ==>
            g.lightRevealAnimationPlaying && g.pendingAodSteps == f.pendingAodSteps + 1 && IsScreenOffAnimationPlaying(g))
  {
  }

  /** A posted AOD step sets the AOD flag, and only a posted one does. */
  lemma AodStepSetsAodFlag(f: Flags)
    ensures f.pendingAodSteps > 0 ==> Step(f, AodStepFired).aodUiAnimationPlaying
    ensures f.pendingAodSteps == 0 ==> Step(f, AodStepFired) == f
  {
  }

  /** The end of the light reveal clears its flag and leaves the AOD flag alone. */
  lemma LightRevealEndClearsFlag(f: Flags)
    requires Consistent(f)
    ensures !Step(f, LightRevealEnded).lightRevealAnimationPlaying
    ensures Step(f, LightRevealEnded).aodUiAnimationPlaying == f.aodUiAnimationPlaying
  {
  }

  /** The end of the keyguard animate-in clears the AOD flag and leaves the light reveal alone. */
  lemma KeyguardAnimateInEndClearsFlag(f: Flags)
    ensures !Step(f, KeyguardAnimateInEnded).aodUiAnimationPlaying
    ensures Step(f, KeyguardAnimateInEnded).lightRevealAnimationPlaying == f.lightRevealAnimationPlaying
  {
  }

  /** Waking up drops every posted AOD step and stops the light reveal. */
  lemma WakingUpCancels(f: Flags)
    requires Consistent(f)
    ensures Step(f, StartedWakingUp).pendingAodSteps == 0
    ensures !Step(f, StartedWakingUp).lightRevealAnimationPlaying
    ensures !Step(f, StartedWakingUp).lightRevealAnimatorRunning
    ensures Step(f, StartedWakingUp).aodUiAnimationPlaying == f.aodUiAnimationPlaying
  {
  }

  /**
   * With no AOD step posted and the AOD flag clear, no sequence of events
   * that does not start the animation again can set the AOD flag: after
   * waking up, a stale delayed step never shows the AOD UI.
   */
  lemma {:induction false} NoAodWithoutNewAnimation(f: Flags, events: seq<Event>)
    requires f.pendingAodSteps == 0 && !f.aodUiAnimationPlaying
    requires forall i :: 0 <= i < |events| ==> !StartsAnimation(events[i])
    ensures Run(f, events).pendingAodSteps == 0
    ensures !Run(f, events).aodUiAnimationPlaying
    decreases |events|
  {
    if events != [] {
      assert !StartsAnimation(events[0]);
      var g := Step(f, events[0]);
      assert g.pendingAodSteps == 0 && !g.aodUiAnimationPlaying;
      assert forall i :: 0 <= i < |events[1..]| ==> !StartsAnimation(events[1..][i]) by {
        forall i | 0 <= i < |events[1..]| ensures !StartsAnimation(events[1..][i]) {
          assert events[1..][i] == events[i + 1];
        }
      }
      NoAodWithoutNewAnimation(g, events[1..]);
    }
  }

  /** Whatever happened before, once waking up has finished no animation is playing. */
  lemma {:induction false} NotPlayingAfterFinishedWakingUp(f: Flags, events: seq<Event>)
    ensures !IsScreenOffAnimationPlaying(Run(f, events + [FinishedWakingUp]))
  {
    RunAppend(f, events, [FinishedWakingUp]);
  }

  /** Running a concatenation is running its halves in turn. */
  lemma {:induction false} RunAppend(f: Flags, a: seq<Event>, b: seq<Event>)
    ensures Run(f, a + b) == Run(Run(f, a), b)
    decreases |a|
  {
    if a == [] {
      assert a + b == b;
    } else {
      assert (a + b)[0] == a[0];
      assert (a + b)[1..] == a[1..] + b;
      RunAppend(Step(f, a[0]), a[1..], b);
    }
  }

  /**
   * The full animation from rest: going to sleep in SHADE plays the light
   * reveal, the delayed step adds the AOD UI, and the animation is over once
   * both animations have ended.
   */
  lemma FullAnimation()
    ensures var f1 := Step(Initial, StartedGoingToSleep(true, Shade));
            var f2 := Step(f1, AodStepFired);
            var f3 := Step(f2, LightRevealEnded);
            var f4 := Step(f3, KeyguardAnimateInEnded);
      && IsScreenOffAnimationPlaying(f1) && !f1.aodUiAnimationPlaying
      && f2.aodUiAnimationPlaying && f2.lightRevealAnimationPlaying
      && IsScreenOffAnimationPlaying(f3) && !f3.lightRevealAnimationPlaying
      && f4 == Initial
  {
  }

  /** The controller's own fields; each callback updates them as `Step` says. */
  class UnlockedScreenOffAnimationController {
    var lightRevealAnimationPlaying: bool
    var aodUiAnimationPlaying: bool
    var lightRevealAnimatorRunning: bool
    var pendingAodSteps: nat

    /** The fields as a value. */
    function State(): Flags
      reads this
    {
      Flags(lightRevealAnimationPlaying, aodUiAnimationPlaying, lightRevealAnimatorRunning, pendingAodSteps)
    }

    ghost predicate Valid()
      reads this
    {
      Consistent(State())
    }

    constructor ()
      ensures Valid() && State() == Initial
    {
      lightRevealAnimationPlaying := false;
      aodUiAnimationPlaying := false;
      lightRevealAnimatorRunning := false;
      pendingAodSteps := 0;
    }

    /** `onStartedGoingToSleep`, with the doze parameter and the status bar state read at call time. */
    method OnStartedGoingToSleep(shouldControlUnlockedScreenOff: bool, state: StatusBarState)
      requires Valid()
      modifies this
      ensures Valid()
      ensures State() == Step(old(State()), StartedGoingToSleep(shouldControlUnlockedScreenOff, state))
    {
      if ShouldPlayScreenOffAnimation(shouldControlUnlockedScreenOff, state) {
        lightRevealAnimationPlaying := true;
        lightRevealAnimatorRunning := true;
        pendingAodSteps := pendingAodSteps + 1;
      }
    }

    /** The runnable posted with `ANIMATE_IN_KEYGUARD_DELAY`, when the handler runs it. */
    method OnAodStepFired()
      requires Valid()
      modifies this
      ensures Valid()
      ensures State() == Step(old(State()), AodStepFired)
    {
      if pendingAodSteps > 0 {
        pendingAodSteps := pendingAodSteps - 1;
        aodUiAnimationPlaying := true;
      }
    }

    /** The light-reveal animator's `onAnimationEnd` after a run that was not cancelled. */
    method OnLightRevealAnimationEnd()
      requires Valid()
      modifies this
      ensures Valid()
      ensures State() == Step(old(State()), LightRevealEnded)
    {
      if lightRevealAnimatorRunning {
        lightRevealAnimatorRunning := false;
        lightRevealAnimationPlaying := false;
      }
    }

    /** The end action of `animateInKeyguard`. */
    method OnKeyguardAnimateInEnd()
      requires Valid()
      modifies this
      ensures Valid()
      ensures State() == Step(old(State()), KeyguardAnimateInEnded)
    {
      aodUiAnimationPlaying := false;
    }

    /** `onStartedWakingUp`: cancels the animator and removes every posted step. */
    method OnStartedWakingUp()
      requires Valid()
      modifies this
      ensures Valid()
      ensures State() == Step(old(State()), StartedWakingUp)
    {
      if lightRevealAnimatorRunning {
        // onAnimationCancel, then onAnimationEnd
        lightRevealAnimatorRunning := false;
        lightRevealAnimationPlaying := false;
      }
      pendingAodSteps := 0;
    }

    /** `onFinishedWakingUp`. */
    method OnFinishedWakingUp()
      requires Valid()
      modifies this
      ensures Valid()
      ensures State() == Step(old(State()), FinishedWakingUp)
      ensures !IsScreenOffAnimationPlaying(State())
    {
      lightRevealAnimationPlaying := false;
      aodUiAnimationPlaying := false;
    }

    /** `isScreenOffAnimationPlaying`. */
    method IsPlaying() returns (r: bool)
      ensures r <==> lightRevealAnimationPlaying || aodUiAnimationPlaying
      ensures r <==> IsScreenOffAnimationPlaying(State())
    {
      r := lightRevealAnimationPlaying || aodUiAnimationPlaying;
    }

    /** `isScreenOffLightRevealAnimationPlaying`. */
    method IsLightRevealPlaying() returns (r: bool)
      ensures r == lightRevealAnimationPlaying
      ensures r ==> IsScreenOffAnimationPlaying(State())
    {
      r := lightRevealAnimationPlaying;
    }
  }
}
