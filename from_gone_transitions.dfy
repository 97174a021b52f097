/**
 * The rules that choose where the keyguard goes from GONE (the unlocked,
 * keyguard-dismissed state), and the duration of the animator used for each
 * target.
 *
 * Each listener of the interactor reduces to a choice made from a snapshot
 * of the flows it samples. `relevant` stands for the superclass's
 * `filterRelevantKeyguardStateAnd` test (GONE is the state the transitions
 * start from); the coroutine flows themselves are not modelled.
 */
module FromGoneTransitions {
  import opened Wrappers

  datatype KeyguardState =
    | Off | Dozing | Dreaming | DreamingLockscreenHosted | Aod | AlternateBouncer
    | PrimaryBouncer | Lockscreen | GlanceableHub | Gone | Occluded

  /** A `startTransitionTo` call: the target and the optional owner reason. */
  datatype TransitionRequest = TransitionRequest(to: KeyguardState, ownerReason: Option<string>)

  const LOCKDOWN_OWNER_REASON: string := "User initiated lockdown"

  /** The durations of the companion object, in milliseconds. */
  const DEFAULT_DURATION: nat := 500
  const TO_DREAMING_DURATION: nat := 933
  const TO_AOD_DURATION: nat := 1300
  const TO_DOZING_DURATION: nat := 933
  const TO_LOCKSCREEN_DURATION: nat := DEFAULT_DURATION

  /** `showKeyguard`. */
  function ShowKeyguard(): (r: TransitionRequest)
    ensures r.to == Lockscreen && r.ownerReason.None?
  {
    TransitionRequest(Lockscreen, None)
  }

  /** The hub when idle on communal, the lockscreen otherwise. */
  function LockscreenOrHub(isIdleOnCommunal: bool): (to: KeyguardState)
    ensures to == GlanceableHub <==> isIdleOnCommunal
    ensures to == Lockscreen <==> !isIdleOnCommunal
  {
    if isIdleOnCommunal then GlanceableHub else Lockscreen
  }

  /**
   * `listenForGoneToLockscreenOrHub`. With the window-manager state refactor
   * the trigger is the user entering lockdown, and the request carries the
   * lockdown owner reason; without it the trigger is the keyguard showing.
   */
  function GoneToLockscreenOrHub(refactorEnabled: bool, relevant: bool, isCurrentUserInLockdown: bool,
                                 isKeyguardShowing: bool, isIdleOnCommunal: bool): (r: Option<TransitionRequest>)
    ensures r.Some? <==> relevant && (if refactorEnabled then isCurrentUserInLockdown else isKeyguardShowing)
    ensures r.Some? ==> r.value.to == LockscreenOrHub(isIdleOnCommunal)
    ensures r.Some? ==> (r.value.ownerReason.Some? <==> refactorEnabled)
    ensures r.Some? && refactorEnabled ==> r.value.ownerReason == Some(LOCKDOWN_OWNER_REASON)
  {
    var trigger := if refactorEnabled then isCurrentUserInLockdown else isKeyguardShowing;
    if !(relevant && trigger) then None
    else if refactorEnabled then Some(TransitionRequest(LockscreenOrHub(isIdleOnCommunal), Some(LOCKDOWN_OWNER_REASON)))
    else Some(TransitionRequest(LockscreenOrHub(isIdleOnCommunal), None))
  }

  /** `listenForGoneToDreamingLockscreenHosted`. */
  function GoneToDreamingLockscreenHosted(relevant: bool, isActiveDreamLockscreenHosted: bool)
    : (r: Option<KeyguardState>)
    ensures r.Some? <==> relevant && isActiveDreamLockscreenHosted
    ensures r.Some? ==> r.value == DreamingLockscreenHosted
  {
    if relevant && isActiveDreamLockscreenHosted then Some(DreamingLockscreenHosted) else None
  }

  /** `listenForGoneToDreaming`. */
  function GoneToDreaming(relevant: bool, isAbleToDream: bool, isActiveDreamLockscreenHosted: bool)
    : (r: Option<KeyguardState>)
    ensures r.Some? <==> relevant && isAbleToDream && !isActiveDreamLockscreenHosted
    ensures r.Some? ==> r.value == Dreaming
  {
    if relevant && isAbleToDream && !isActiveDreamLockscreenHosted then Some(Dreaming) else None
  }

  /** `getDefaultAnimatorForTransitionsToState`: the animator's duration. */
  function DurationToMs(toState: KeyguardState): (ms: nat)
    ensures DEFAULT_DURATION <= ms <= TO_AOD_DURATION
  {
    match toState
    case Dreaming => TO_DREAMING_DURATION
    case Aod => TO_AOD_DURATION
    case Dozing => TO_DOZING_DURATION
    case Lockscreen => TO_LOCKSCREEN_DURATION
    case _ => DEFAULT_DURATION
  }

  /** The snapshot of the sampled flows. */
  datatype Inputs = Inputs(refactorEnabled: bool, relevant: bool, isCurrentUserInLockdown: bool,
                           isKeyguardShowing: bool, isIdleOnCommunal: bool, isAbleToDream: bool,
                           isActiveDreamLockscreenHosted: bool)

  function OptionToSet(o: Option<KeyguardState>): set<KeyguardState>
  {
    if o.Some? then {o.value} else {}
  }

  /** The targets the three modelled listeners start from one snapshot. */
  function TargetsFrom(i: Inputs): set<KeyguardState>
  {
    var hub := GoneToLockscreenOrHub(i.refactorEnabled, i.relevant, i.isCurrentUserInLockdown,
                                     i.isKeyguardShowing, i.isIdleOnCommunal);
    (if hub.Some? then {hub.value.to} else {})
      + OptionToSet(GoneToDreamingLockscreenHosted(i.relevant, i.isActiveDreamLockscreenHosted))
      + OptionToSet(GoneToDreaming(i.relevant, i.isAbleToDream, i.isActiveDreamLockscreenHosted))
  }

  /**
   * From one snapshot: no listener targets GONE itself, nothing starts
   * unless GONE is relevant, the two dreaming targets never both start,
   * and the lockscreen and the hub never both start.
   */
  lemma TargetsWellFormed(i: Inputs)
    ensures Gone !in TargetsFrom(i)
    ensures !i.relevant ==> TargetsFrom(i) == {}
    ensures !(Dreaming in TargetsFrom(i) && DreamingLockscreenHosted in TargetsFrom(i))
    ensures !(Lockscreen in TargetsFrom(i) && GlanceableHub in TargetsFrom(i))
    ensures TargetsFrom(i) <= {Lockscreen, GlanceableHub, Dreaming, DreamingLockscreenHosted}
  {
  }

  /** Dreaming is started exactly when the device can dream a dream the lockscreen does not host. */
  lemma DreamingTargetIff(i: Inputs)
    ensures Dreaming in TargetsFrom(i) <==> i.relevant && i.isAbleToDream && !i.isActiveDreamLockscreenHosted
    ensures DreamingLockscreenHosted in TargetsFrom(i) <==> i.relevant && i.isActiveDreamLockscreenHosted
  {
  }

  /** The duration table: DREAMING and DOZING 933 ms, AOD 1300 ms, everything else 500 ms. */
  lemma DurationTable(toState: KeyguardState)
    ensures DurationToMs(toState) == if toState == Dreaming || toState == Dozing then 933
                                     else if toState == Aod then 1300
                                     else 500
    ensures DurationToMs(Lockscreen) == DEFAULT_DURATION
    ensures DurationToMs(toState) > 0
  {
  }
}
