/**
 * Client-side bookkeeping of the system vibrator: the cached presence answer,
 * the once-fetched vibrator info, the registry of state listeners and the
 * per-effect and per-primitive support arrays.
 *
 * The vibrator service is an oracle: each call that may reach it takes the
 * service's answer as a parameter, and `hasService` says whether the service
 * handle was found at construction.
 */
module SystemVibrator {
  import opened Wrappers

  /** `Vibrator.VIBRATION_EFFECT_SUPPORT_UNKNOWN`. */
  const VIBRATION_EFFECT_SUPPORT_UNKNOWN: int := 0

  /** `VIBRATOR_PRESENT_UNKNOWN`, `VIBRATOR_PRESENT_YES`, `VIBRATOR_PRESENT_NO`. */
  datatype VibratorPresent = PresentUnknown | PresentYes | PresentNo

  /** The service's `VibratorInfo`, reduced to its two support queries. */
  datatype VibratorInfo = VibratorInfo(isEffectSupported: int -> int, isPrimitiveSupported: int -> bool)

  datatype Listener = Listener(id: nat)
  datatype Executor = Executor(id: nat)

  /** `OnVibratorStateChangedListenerDelegate`: forwards to `listener` on `executor`. */
  datatype Delegate = Delegate(listener: Listener, executor: Executor)

  /** Presence after one `hasVibrator` call, given the service's answer (None: RemoteException). */
  function PresenceAfterQuery(present: VibratorPresent, hasService: bool, answer: Option<bool>): (r: VibratorPresent)
    ensures present != PresentUnknown || !hasService ==> r == present
    ensures present == PresentUnknown && hasService ==>
      && (r == PresentUnknown <==> answer.None?)
      && (r == PresentYes <==> answer == Some(true))
      && (r == PresentNo <==> answer == Some(false))
  {
    if present != PresentUnknown || !hasService then present
    else match answer
         case None => PresentUnknown
         case Some(b) => if b then PresentYes else PresentNo
  }

  /** The listener registry after `addVibratorStateListener(executor, listener)`. */
  function RegistryAfterAdd(delegates: map<Listener, Delegate>, hasService: bool, executor: Executor,
                            listener: Listener, registerOk: bool): (r: map<Listener, Delegate>)
    ensures r.Keys == if hasService && listener !in delegates && registerOk then delegates.Keys + {listener}
                      else delegates.Keys
    ensures forall l :: l in delegates ==> r[l] == delegates[l]
    ensures listener in r && listener !in delegates ==> r[listener] == Delegate(listener, executor)
  {
    if !hasService || listener in delegates || !registerOk then delegates
    else delegates[listener := Delegate(listener, executor)]
  }

  /** The listener registry after `removeVibratorStateListener(listener)`. */
  function RegistryAfterRemove(delegates: map<Listener, Delegate>, hasService: bool,
                               listener: Listener, unregisterOk: bool): (r: map<Listener, Delegate>)
    ensures r.Keys == if hasService && unregisterOk then delegates.Keys - {listener} else delegates.Keys
    ensures forall l :: l in r ==> r[l] == delegates[l]
  {
    if !hasService || listener !in delegates || !unregisterOk then delegates
    else delegates - {listener}
  }

  /** Every registered delegate forwards to the listener it is registered under. */
  predicate DelegatesMatch(delegates: map<Listener, Delegate>)
  {
    forall l :: l in delegates ==> delegates[l].listener == l
  }

  /** The info a `getVibratorInfo` call returns, given the cache and the service's answer. */
  function InfoAfterQuery(cached: Option<VibratorInfo>, hasService: bool, answer: Option<VibratorInfo>)
    : (r: Option<VibratorInfo>)
    ensures cached.Some? || !hasService ==> r == cached
    ensures cached.None? && hasService ==> r == answer
  {
    if cached.Some? then cached else if hasService then answer else None
  }

  class SystemVibrator {
    /** `mService != null`. */
    const hasService: bool
    /** `mContext?.getMainExecutor()`; None for the context-less constructor. */
    const mainExecutor: Option<Executor>

    var vibratorPresent: VibratorPresent
    var vibratorInfo: Option<VibratorInfo>
    var delegates: map<Listener, Delegate>
    /** Number of calls made to the vibrator service. */
    ghost var serviceCalls: nat

    ghost predicate Valid()
      reads this
    {
      && DelegatesMatch(delegates)
      && (!hasService ==> vibratorPresent == PresentUnknown && vibratorInfo.None? && delegates == map[])
    }

    constructor (hasService: bool, mainExecutor: Option<Executor>)
      ensures Valid()
      ensures this.hasService == hasService && this.mainExecutor == mainExecutor
      ensures vibratorPresent == PresentUnknown && vibratorInfo.None? && delegates == map[]
      ensures serviceCalls == 0
    {
      this.hasService := hasService;
      this.mainExecutor := mainExecutor;
      vibratorPresent := PresentUnknown;
      vibratorInfo := None;
      delegates := map[];
      serviceCalls := 0;
    }

    /**
     * `hasVibrator`, with `answer` the service's reply (None when the call
     * throws RemoteException). The service is asked only while the presence
     * is unknown; a failed call answers false and leaves it unknown.
     */
    method HasVibrator(answer: Option<bool>) returns (r: bool)
      requires Valid()
      modifies this`vibratorPresent, this`serviceCalls
      ensures Valid()
      ensures vibratorPresent == PresenceAfterQuery(old(vibratorPresent), hasService, answer)
      ensures serviceCalls == if old(vibratorPresent) == PresentUnknown && hasService then old(serviceCalls) + 1
                              else old(serviceCalls)
      ensures r <==> vibratorPresent == PresentYes
    {
      if vibratorPresent == PresentUnknown && hasService {
        serviceCalls := serviceCalls + 1;
        match answer {
          case None =>
            return false;
          case Some(present) =>
            vibratorPresent := if present then PresentYes else PresentNo;
        }
      }
      r := vibratorPresent == PresentYes;
    }

    /**
     * `getVibratorInfo`, with `answer` the service's (nullable) reply. A
     * non-null info is cached and returned from then on without a query.
     */
    method GetVibratorInfo(answer: Option<VibratorInfo>) returns (info: Option<VibratorInfo>)
      requires Valid()
      modifies this`vibratorInfo, this`serviceCalls
      ensures Valid()
      ensures info == InfoAfterQuery(old(vibratorInfo), hasService, answer)
      ensures vibratorInfo == info
      ensures serviceCalls == if old(vibratorInfo).None? && hasService then old(serviceCalls) + 1
                              else old(serviceCalls)
    {
      if vibratorInfo.Some? {
        return vibratorInfo;
      }
      if !hasService {
        return None;
      }
      serviceCalls := serviceCalls + 1;
      vibratorInfo := answer;
      info := answer;
    }

    /**
     * `addVibratorStateListener(executor, listener)`: ignored without a
     * service or for a listener already registered; otherwise the listener is
     * recorded only when the service accepts its delegate.
     */
    method AddVibratorStateListener(executor: Executor, listener: Listener, registerOk: bool)
      requires Valid()
      modifies this`delegates, this`serviceCalls
      ensures Valid()
      ensures delegates == RegistryAfterAdd(old(delegates), hasService, executor, listener, registerOk)
      ensures serviceCalls == if hasService && listener !in old(delegates) then old(serviceCalls) + 1
                              else old(serviceCalls)
    {
      if !hasService {
        return;
      }
      if listener in delegates {
        return;
      }
      var delegate := Delegate(listener, executor);
      serviceCalls := serviceCalls + 1;
      if !registerOk {
        return;
      }
      delegates := delegates[listener := delegate];
    }

    /** `addVibratorStateListener(listener)`: on the main executor, if there is a context. */
    method AddVibratorStateListenerOnMainExecutor(listener: Listener, registerOk: bool)
      requires Valid()
      modifies this`delegates, this`serviceCalls
      ensures Valid()
      ensures mainExecutor.None? ==> delegates == old(delegates) && serviceCalls == old(serviceCalls)
      ensures mainExecutor.Some? ==>
        delegates == RegistryAfterAdd(old(delegates), hasService, mainExecutor.value, listener, registerOk)
      ensures mainExecutor.Some? ==>
        serviceCalls == if hasService && listener !in old(delegates) then old(serviceCalls) + 1
                        else old(serviceCalls)
    {
      if mainExecutor.None? {
        return;
      }
      AddVibratorStateListener(mainExecutor.value, listener, registerOk);
    }

    /**
     * `removeVibratorStateListener`: a no-op without a service or for an
     * unregistered listener; a registered one leaves the registry only when
     * the service unregisters its delegate.
     */
    method RemoveVibratorStateListener(listener: Listener, unregisterOk: bool)
      requires Valid()
      modifies this`delegates, this`serviceCalls
      ensures Valid()
      ensures delegates == RegistryAfterRemove(old(delegates), hasService, listener, unregisterOk)
      ensures serviceCalls == if hasService && listener in old(delegates) then old(serviceCalls) + 1
                              else old(serviceCalls)
    {
      if !hasService {
        return;
      }
      if listener in delegates {
        var delegate := delegates[listener];
        serviceCalls := serviceCalls + 1;
        if !unregisterOk {
          return;
        }
        delegates := delegates - {listener};
      }
    }

    /**
     * `areEffectsSupported`: one answer per id, SUPPORT_UNKNOWN for all when
     * no info is available.
     */
    method AreEffectsSupported(effectIds: array<int>, answer: Option<VibratorInfo>)
      returns (supported: array<int>)
      requires Valid()
      modifies this`vibratorInfo, this`serviceCalls
      ensures Valid()
      ensures vibratorInfo == InfoAfterQuery(old(vibratorInfo), hasService, answer)
      ensures serviceCalls == if old(vibratorInfo).None? && hasService then old(serviceCalls) + 1
                              else old(serviceCalls)
      ensures fresh(supported) && supported.Length == effectIds.Length
      ensures forall i :: 0 <= i < supported.Length ==>
        supported[i] == match vibratorInfo
                        case None => VIBRATION_EFFECT_SUPPORT_UNKNOWN
                        case Some(info) => info.isEffectSupported(effectIds[i])
    {
      var info := GetVibratorInfo(answer);
      supported := new int[effectIds.Length];
      for i := 0 to effectIds.Length
        modifies supported
        invariant forall j :: 0 <= j < i ==>
          supported[j] == match info
                          case None => VIBRATION_EFFECT_SUPPORT_UNKNOWN
                          case Some(info) => info.isEffectSupported(effectIds[j])
      {
        supported[i] := match info
                        case None => VIBRATION_EFFECT_SUPPORT_UNKNOWN
                        case Some(info) => info.isEffectSupported(effectIds[i]);
      }
    }

    /** `arePrimitivesSupported`: one answer per id, false for all when no info is available. */
    method ArePrimitivesSupported(primitiveIds: array<int>, answer: Option<VibratorInfo>)
      returns (supported: array<bool>)
      requires Valid()
      modifies this`vibratorInfo, this`serviceCalls
      ensures Valid()
      ensures vibratorInfo == InfoAfterQuery(old(vibratorInfo), hasService, answer)
      ensures serviceCalls == if old(vibratorInfo).None? && hasService then old(serviceCalls) + 1
                              else old(serviceCalls)
      ensures fresh(supported) && supported.Length == primitiveIds.Length
      ensures forall i :: 0 <= i < supported.Length ==>
        supported[i] == (vibratorInfo.Some? && vibratorInfo.value.isPrimitiveSupported(primitiveIds[i]))
    {
      var info := GetVibratorInfo(answer);
      supported := new bool[primitiveIds.Length];
      for i := 0 to primitiveIds.Length
        modifies supported
        invariant forall j :: 0 <= j < i ==>
          supported[j] == (info.Some? && info.value.isPrimitiveSupported(primitiveIds[j]))
      {
        supported[i] := if info.None? then false else info.value.isPrimitiveSupported(primitiveIds[i]);
      }
    }
  }

  /** Once the presence is known, further `hasVibrator` calls neither ask nor change it. */
  lemma PresenceSettles(present: VibratorPresent, hasService: bool, a1: Option<bool>, a2: Option<bool>)
    ensures PresenceAfterQuery(PresenceAfterQuery(present, hasService, a1), hasService, a2)
         == PresenceAfterQuery(present, hasService, a1) || PresenceAfterQuery(present, hasService, a1) == PresentUnknown
    ensures present != PresentUnknown ==> PresenceAfterQuery(present, hasService, a1) == present
  {
  }

  /** Once an info has been fetched, every later `getVibratorInfo` returns that same info. */
  lemma InfoSettles(cached: Option<VibratorInfo>, hasService: bool, a1: Option<VibratorInfo>, a2: Option<VibratorInfo>)
    requires InfoAfterQuery(cached, hasService, a1).Some?
    ensures InfoAfterQuery(InfoAfterQuery(cached, hasService, a1), hasService, a2) == InfoAfterQuery(cached, hasService, a1)
  {
  }

  /** Both registry updates keep every delegate bound to its own listener. */
  lemma RegistryUpdatesKeepDelegatesMatched(delegates: map<Listener, Delegate>, hasService: bool,
                                            executor: Executor, listener: Listener, ok: bool)
    requires DelegatesMatch(delegates)
    ensures DelegatesMatch(RegistryAfterAdd(delegates, hasService, executor, listener, ok))
    ensures DelegatesMatch(RegistryAfterRemove(delegates, hasService, listener, ok))
  {
  }

  /** A listener that is already registered is never re-registered: its executor stays. */
  lemma AddIsIgnoredWhenRegistered(delegates: map<Listener, Delegate>, hasService: bool,
                                   executor: Executor, listener: Listener, registerOk: bool)
    requires listener in delegates
    ensures RegistryAfterAdd(delegates, hasService, executor, listener, registerOk) == delegates
  {
  }

  /** A successful add followed by a successful remove restores the registry. */
  lemma RemoveUndoesAdd(delegates: map<Listener, Delegate>, executor: Executor, listener: Listener)
    requires listener !in delegates
    ensures RegistryAfterRemove(RegistryAfterAdd(delegates, true, executor, listener, true), true, listener, true)
         == delegates
  {
  }

  /** The registry holds a listener after a successful add, and no longer after a successful remove. */
  lemma MembershipAfterUpdates(delegates: map<Listener, Delegate>, executor: Executor, listener: Listener)
    ensures listener in RegistryAfterAdd(delegates, true, executor, listener, true)
    ensures listener !in RegistryAfterRemove(delegates, true, listener, true)
    ensures RegistryAfterAdd(delegates, false, executor, listener, true) == delegates
  {
  }
}
