# Six pieces of Android platform logic, modelled and proved in Dafny

This project models six small pieces of sequential logic from an Android
platform tree. Each piece gets its own Dafny module, and every framework call
becomes a parameter or an abstract event:

- **Conversation unread counts** (`ConversationNotifications`).
  - `ConversationNotificationManager` keeps a `states` table from notification key to `(unreadCount, notification)`, plus the panel-collapsed flag.
  - `ConversationNotificationProcessor.processNotification` fills the messaging style: conversation type, shortcut icon, title, unread count.
  - The "visibly different" comparison, the active-entry lookup and the shortcut-icon lookup are function parameters.
  - The comparison is handed the notification the recovered builder was made from, so it does not see the messaging-style edits `processNotification` makes to that builder before comparing.
- **Build-property imitation** (`PropImitationHooks`).
  - Which property set a process gets.
  - How `FIELD:value` certified entries are parsed and written.
  - The `VERSION.` prefix rule.
  - The Google Photos feature filter.
  - When key attestation is refused.
  - The static fields of `Build`/`Build.VERSION` are a map from declared field to value. The system properties are a map from name to value.
- **Vibrator client bookkeeping** (`SystemVibrator`).
  - The tri-state presence cache, the once-only info cache and the listener registry.
  - The per-element support arrays.
  - Every service answer is a parameter, and a ghost counter records how many service calls were made.
- **Unlocked screen-off animation** (`UnlockedScreenOffAnimation`).
  - The two playing flags as a state machine over the wakefulness and animator callbacks.
  - A class whose methods update the controller's fields the way the machine's `Step` says.
- **Record-issue tile** (`RecordIssueTile`).
  - The `isRecording` toggle and how it is rendered into the tile's Boolean state.
- **Transitions out of GONE** (`FromGoneTransitions`).
  - The rules that choose the lockscreen, hub or dreaming target.
  - The animator-duration table.

`Wrappers` holds the `Option` type used for every nullable value.

A few helpers model source expressions and are stated through the members
that use them:
- `PropImitationHooks.Contains` is Java's `String.contains`; `ContainsAt` characterises it.
- `UnlockedScreenOffAnimation.Run` applies callbacks in order; `RunAppend`, `RunConsistent` and the other run lemmas are about it.
- `ConversationNotifications.ResetsOnExpansion` is `updateCount`'s expansion test; `UpdateCount` is specified by it.

Kotlin `Int` arithmetic is modelled explicitly. The unread-count increment
wraps from 2^31-1 to -2^31 (`IntIncrement`). Durations are natural numbers of
milliseconds.

## Model

| member | source | states |
|---|---|---|
| ConversationNotifications.IntIncrement | packages/SystemUI/src/com/android/systemui/statusbar/notification/ConversationNotifications.kt:227 | Kotlin `unreadCount + 1` stays a 32-bit Int and equals n + 1 modulo 2^32: n + 1 below Int.MAX_VALUE, Int.MIN_VALUE at it |
| ConversationNotifications.AfterUnreadCount | packages/SystemUI/src/com/android/systemui/statusbar/notification/ConversationNotifications.kt:221-230 | a first-seen key becomes tracked at 1; a tracked count changes iff the new builder is visibly different from the stored notification's, and then to its 32-bit increment `IntIncrement` (wrapping to Int.MIN_VALUE at Int.MAX_VALUE); the incoming notification is stored; no other key changes |
| ConversationNotifications.AfterResetCount | packages/SystemUI/src/com/android/systemui/statusbar/notification/ConversationNotifications.kt:257-259 | a tracked key drops to 0 and keeps its notification; an untracked key adds nothing; other keys unchanged |
| ConversationNotifications.ResetExpanded | packages/SystemUI/src/com/android/systemui/statusbar/notification/ConversationNotifications.kt:248-251 | `replaceAll` keeps the key set and notifications, zeroes exactly the keys in `expanded`, leaves every other state as it was |
| ConversationNotifications.ExpandedConversations | packages/SystemUI/src/com/android/systemui/statusbar/notification/ConversationNotifications.kt:238-247 | the collected keys are exactly the tracked keys whose active entry has an expanded row |
| ConversationNotifications.AfterUpdates | packages/SystemUI/src/com/android/systemui/statusbar/notification/ConversationNotifications.kt:221-230 | repeated `getUnreadCount` on one key adds only that key and leaves all other states unchanged |
| ConversationNotifications.TrackedCountAfterUpdates | packages/SystemUI/src/com/android/systemui/statusbar/notification/ConversationNotifications.kt:223-229 | after a run of updates (no wrap-around), a tracked count equals the old count plus the number of visibly different consecutive notifications, and the last notification is stored |
| ConversationNotifications.FirstSeenCountAfterUpdates | packages/SystemUI/src/com/android/systemui/statusbar/notification/ConversationNotifications.kt:221-230 | a key first seen and then updated ends at 1 plus the number of visibly different consecutive notifications |
| ConversationNotifications.ConversationNotificationManager.constructor | packages/SystemUI/src/com/android/systemui/statusbar/notification/ConversationNotifications.kt:145-147 | the table starts empty and the panel starts collapsed |
| ConversationNotifications.ConversationNotificationManager.GetUnreadCount | packages/SystemUI/src/com/android/systemui/statusbar/notification/ConversationNotifications.kt:221-230 | the new table is `AfterUnreadCount` of the old one, and the returned count is the stored count |
| ConversationNotifications.ConversationNotificationManager.OnNotificationPanelExpandStateChanged | packages/SystemUI/src/com/android/systemui/statusbar/notification/ConversationNotifications.kt:232-255 | records the flag; collapsing leaves every count unchanged; expanding zeroes exactly the tracked keys with an expanded active row |
| ConversationNotifications.ConversationNotificationManager.ResetCount | packages/SystemUI/src/com/android/systemui/statusbar/notification/ConversationNotifications.kt:257-259 | the new table is `AfterResetCount` of the old one |
| ConversationNotifications.ConversationNotificationManager.RemoveTrackedEntry | packages/SystemUI/src/com/android/systemui/statusbar/notification/ConversationNotifications.kt:261-263 | only the entry's key leaves the table |
| ConversationNotifications.ConversationNotificationManager.UpdateCount | packages/SystemUI/src/com/android/systemui/statusbar/notification/ConversationNotifications.kt:192-197 | resets the entry's count iff it is expanded and the panel is open or the entry is pinned and expanded; otherwise nothing changes |
| ConversationNotifications.ConversationNotificationManager.OnEntryInflated | packages/SystemUI/src/com/android/systemui/statusbar/notification/ConversationNotifications.kt:188-208 | a non-conversation is ignored; a conversation gets the `updateCount` rule with its row's expansion (no row counts as collapsed) |
| ConversationNotifications.ConversationTypeOf | packages/SystemUI/src/com/android/systemui/statusbar/notification/ConversationNotifications.kt:51-55 | IMPORTANT exactly when the channel is an important conversation |
| ConversationNotifications.TitleAfter | packages/SystemUI/src/com/android/systemui/statusbar/notification/ConversationNotifications.kt:56-61 | the title changes only when a shortcut with a label exists, and then becomes that label |
| ConversationNotifications.ConversationNotificationProcessor.ProcessNotification | packages/SystemUI/src/com/android/systemui/statusbar/notification/ConversationNotifications.kt:49-64 | a non-messaging style changes nothing; otherwise the type, the shortcut icon (only with a shortcut), the title and the unread count are set, and the manager's table is updated as `getUnreadCount` says |
| PropImitationHooks.Dispatch | core/java/com/android/internal/util/PropImitationHooks.java:147-173 | `.unstable` gets certified props; the six other listed GMS processes, or an unlisted process of GMS or Velvet, get Pixel 6 Pro; an unlisted process of Photos gets Pixel XL; each as an iff |
| PropImitationHooks.PropTarget | core/java/com/android/internal/util/PropImitationHooks.java:183-188 | a `VERSION.` key targets `Build.VERSION` with the 8-character prefix removed; any other key targets `Build` unchanged |
| PropImitationHooks.KeyOfPropTarget | core/java/com/android/internal/util/PropImitationHooks.java:183-188 | the key can be rebuilt from the field it targets |
| PropImitationHooks.AllKeysOfPropTargets | core/java/com/android/internal/util/PropImitationHooks.java:183-188 | the same, for every key at once |
| PropImitationHooks.PropTargetOfKey | core/java/com/android/internal/util/PropImitationHooks.java:183-188 | every `Build.VERSION` field, and every `Build` field whose name lacks the prefix, is reached by exactly its key |
| PropImitationHooks.PropTargetInjective | core/java/com/android/internal/util/PropImitationHooks.java:176-178 | distinct keys write distinct fields, so the map's iteration order cannot matter |
| PropImitationHooks.WithPropValue | core/java/com/android/internal/util/PropImitationHooks.java:180-196 | a declared target field gets the value; an undeclared one writes nothing; no other field changes |
| PropImitationHooks.WithProps | core/java/com/android/internal/util/PropImitationHooks.java:176-178 | every key's declared field holds its value; fields no key targets are unchanged |
| PropImitationHooks.WithPropsStep | core/java/com/android/internal/util/PropImitationHooks.java:176-178 | writing one more key of the map equals writing the map restricted to the keys so far plus that one |
| PropImitationHooks.FirstIndexOf | core/java/com/android/internal/util/PropImitationHooks.java:231 | the position of the first colon, or the length when there is none |
| PropImitationHooks.ParseEntry | core/java/com/android/internal/util/PropImitationHooks.java:231-235 | `split(":", 2)` with the length check: skipped iff there is no colon; otherwise a colon-free field and the whole remainder rejoin to the entry |
| PropImitationHooks.ParseJoinedEntry | core/java/com/android/internal/util/PropImitationHooks.java:231-236 | parsing `field:value` for a colon-free field gives back that field and value, later colons included |
| PropImitationHooks.WithCertifiedEntry | core/java/com/android/internal/util/PropImitationHooks.java:229-237 | one entry writes no undeclared field |
| PropImitationHooks.WithCertifiedEntries | core/java/com/android/internal/util/PropImitationHooks.java:229-237 | the entry loop writes no undeclared field; the lemmas below give every field's final value: the last well-formed entry selecting it, or its old value when none does |
| PropImitationHooks.MalformedEntriesWriteNothing | core/java/com/android/internal/util/PropImitationHooks.java:231-235 | a list of entries without colons writes nothing |
| PropImitationHooks.EntryKeepsOtherField | core/java/com/android/internal/util/PropImitationHooks.java:229-237 | one iteration leaves alone every field its entry does not select |
| PropImitationHooks.WithCertifiedEntriesAppend | core/java/com/android/internal/util/PropImitationHooks.java:229-237 | the loop over `a + b` is the loop over `a` followed by the loop over `b` |
| PropImitationHooks.UnselectedFieldKept | core/java/com/android/internal/util/PropImitationHooks.java:229-237 | a field that no well-formed entry selects keeps its old value after the loop |
| PropImitationHooks.FinalEntryWins | core/java/com/android/internal/util/PropImitationHooks.java:229-237 | an entry at the end of the list sets its declared field |
| PropImitationHooks.LastEntryWins | core/java/com/android/internal/util/PropImitationHooks.java:229-237 | the last well-formed entry for a declared field decides its value: any later entries that are malformed or select other fields leave it alone |
| PropImitationHooks.ContainsWitness | core/java/com/android/internal/util/PropImitationHooks.java:293-294 | a string that `contains` a feature has a position where the feature starts |
| PropImitationHooks.ContainsFrom | core/java/com/android/internal/util/PropImitationHooks.java:293-294 | a feature starting at some position is contained |
| PropImitationHooks.ContainsAt | core/java/com/android/internal/util/PropImitationHooks.java:293-294 | `String.contains` holds iff the substring starts at some position |
| PropImitationHooks.HasSystemFeature | core/java/com/android/internal/util/PropImitationHooks.java:291-303 | outside Photos `has` is returned; for Photos a present feature is lost iff its name contains a Pixel or Tensor feature, and an absent one is gained iff its name contains a Nexus feature |
| PropImitationHooks.PhotosLosesTensorFeature | core/java/com/android/internal/util/PropImitationHooks.java:292-296 | Photos does not see `com.google.android.feature.PIXEL_2021_EXPERIENCE` |
| PropImitationHooks.PhotosGainsNexusFeature | core/java/com/android/internal/util/PropImitationHooks.java:297-299 | Photos sees `com.google.android.feature.GOOGLE_BUILD` even when absent |
| PropImitationHooks.IsCallerSafetyNet | core/java/com/android/internal/util/PropImitationHooks.java:278-281 | true iff the process is GMS `.unstable` and `DroidGuard` starts at some position of some stack frame's class name |
| PropImitationHooks.AnyFrameContainsAt | core/java/com/android/internal/util/PropImitationHooks.java:279-280 | `anyMatch(contains)` over the frames agrees with a start position of the text in some frame |
| PropImitationHooks.CertificateChainBlocked | core/java/com/android/internal/util/PropImitationHooks.java:278-289 | attestation is refused to the Play Store always, and otherwise iff the process is GMS `.unstable` and a stack frame's class name contains `DroidGuard` |
| PropImitationHooks.PropImitationHooks.constructor | core/java/com/android/internal/util/PropImitationHooks.java:117-119 | the statics start empty and false; the fields and system properties are the given ones |
| PropImitationHooks.PropImitationHooks.SetPropValue | core/java/com/android/internal/util/PropImitationHooks.java:180-196 | the fields become `WithPropValue` of the old ones |
| PropImitationHooks.PropImitationHooks.SetPropsFrom | core/java/com/android/internal/util/PropImitationHooks.java:176-178 | the `forEach` loop, in any order, leaves the fields as `WithProps` of the old ones |
| PropImitationHooks.PropImitationHooks.WriteCertifiedEntries | core/java/com/android/internal/util/PropImitationHooks.java:229-237 | the loop over the certified entries leaves the fields as `WithCertifiedEntries` of the old ones |
| PropImitationHooks.PropImitationHooks.SetCertifiedProps | core/java/com/android/internal/util/PropImitationHooks.java:228-241 | writes the entries, then publishes `SECURITY_PATCH` and `DEVICE_INITIAL_SDK_INT` under the two `persist.sys.pihooks` properties |
| PropImitationHooks.PropImitationHooks.SetCertifiedPropsForGms | core/java/com/android/internal/util/PropImitationHooks.java:198-226 | an empty list does nothing; the props are applied only when the add-account activity is not on top; a non-empty list registers a listener holding `was` whenever registration succeeds |
| PropImitationHooks.PropImitationHooks.OnTaskStackChanged | core/java/com/android/internal/util/PropImitationHooks.java:206-212 | the process is killed iff some registered listener's `was` differs from the current on-top answer |
| PropImitationHooks.PropImitationHooks.ApplyPropSet | core/java/com/android/internal/util/PropImitationHooks.java:147-173 | each property set's branch: certified props, Pixel 6 Pro, Pixel XL or nothing, with the system properties and listeners touched only by the certified branch, which registers one task-stack listener (carrying the add-account answer) when there are certified props and registration succeeds |
| PropImitationHooks.PropImitationHooks.SetProps | core/java/com/android/internal/util/PropImitationHooks.java:121-174 | an empty name or null resources return before any static is set; otherwise the statics are set (`sIsGms` iff GMS and `.unstable`) and the branch chosen by `Dispatch` is applied, the certified branch registering its task-stack listener as `ApplyPropSet` says |
| SystemVibrator.SystemVibrator.constructor | core/java/android/os/SystemVibrator.java:68-82 | presence unknown, no info, empty registry, no service calls |
| SystemVibrator.SystemVibrator.HasVibrator | core/java/android/os/SystemVibrator.java:85-98 | the service is asked only while presence is unknown and a service exists; a RemoteException answers false and leaves it unknown; the result is true iff presence is YES |
| SystemVibrator.SystemVibrator.GetVibratorInfo | core/java/android/os/SystemVibrator.java:301-316 | a cached info is returned with no query; otherwise the service's answer is returned and cached, or null without a service |
| SystemVibrator.SystemVibrator.AddVibratorStateListener | core/java/android/os/SystemVibrator.java:144-172 | no service or an already-registered listener: nothing changes and nothing is asked; otherwise one registration call, and the listener enters with its executor only if it succeeds |
| SystemVibrator.SystemVibrator.AddVibratorStateListenerOnMainExecutor | core/java/android/os/SystemVibrator.java:181-188 | without a context nothing changes; otherwise the registry and the service calls are those of adding on the main executor |
| SystemVibrator.SystemVibrator.RemoveVibratorStateListener | core/java/android/os/SystemVibrator.java:197-218 | no service or an unregistered listener: nothing changes and nothing is asked; otherwise one unregistration call, and the listener leaves only if it succeeds |
| SystemVibrator.SystemVibrator.AreEffectsSupported | core/java/android/os/SystemVibrator.java:265-274 | a fresh array as long as the input; each element is SUPPORT_UNKNOWN without info, else the info's answer for that id |
| SystemVibrator.SystemVibrator.ArePrimitivesSupported | core/java/android/os/SystemVibrator.java:277-286 | a fresh array as long as the input; each element is false without info, else the info's answer for that id |
| SystemVibrator.PresenceAfterQuery | core/java/android/os/SystemVibrator.java:85-98 | the service is consulted only while the presence is unknown and there is a service; then a reply settles it to YES or NO and a RemoteException leaves it unknown |
| SystemVibrator.RegistryAfterAdd | core/java/android/os/SystemVibrator.java:144-172 | the listener is added iff there is a service, it is not registered yet and registration succeeds, with a delegate for it on the executor; existing entries are untouched |
| SystemVibrator.RegistryAfterRemove | core/java/android/os/SystemVibrator.java:197-218 | the listener leaves iff there is a service and unregistering succeeds; nothing is added and remaining entries are untouched |
| SystemVibrator.InfoAfterQuery | core/java/android/os/SystemVibrator.java:301-316 | a cached info is returned as is, no service gives the (empty) cache, and otherwise the service's reply |
| SystemVibrator.PresenceSettles | core/java/android/os/SystemVibrator.java:88-92 | a known presence is never changed by a later query |
| SystemVibrator.InfoSettles | core/java/android/os/SystemVibrator.java:303-310 | once an info has been returned, every later call returns that same info |
| SystemVibrator.RegistryUpdatesKeepDelegatesMatched | core/java/android/os/SystemVibrator.java:144-218 | add and remove keep every delegate bound to the listener it is stored under |
| SystemVibrator.AddIsIgnoredWhenRegistered | core/java/android/os/SystemVibrator.java:156-159 | re-adding a registered listener leaves the registry unchanged |
| SystemVibrator.RemoveUndoesAdd | core/java/android/os/SystemVibrator.java:144-218 | a successful add then a successful remove of a new listener restores the registry |
| SystemVibrator.MembershipAfterUpdates | core/java/android/os/SystemVibrator.java:149-167 | a successful add leaves the listener registered, a successful remove leaves it unregistered, and without a service add changes nothing |
| UnlockedScreenOffAnimation.ShouldPlayScreenOffAnimation | packages/SystemUI/src/com/android/systemui/statusbar/phone/UnlockedScreenOffAnimationController.kt:158-161 | the animation plays only when doze control of the unlocked screen-off is allowed, never from KEYGUARD or SHADE_LOCKED, and always from SHADE when allowed |
| UnlockedScreenOffAnimation.IsScreenOffAnimationPlaying | packages/SystemUI/src/com/android/systemui/statusbar/phone/UnlockedScreenOffAnimationController.kt:167-169 | playing while the light reveal plays, and after it iff the AOD UI is animating in |
| UnlockedScreenOffAnimation.Step | packages/SystemUI/src/com/android/systemui/statusbar/phone/UnlockedScreenOffAnimationController.kt:54-161 | every callback keeps "light reveal playing implies its animator runs"; only a go-to-sleep that should play raises the light-reveal flag or posts an AOD step (one at a time); only a posted AOD step raises the AOD flag |
| UnlockedScreenOffAnimation.RunConsistent | packages/SystemUI/src/com/android/systemui/statusbar/phone/UnlockedScreenOffAnimationController.kt:54-151 | every sequence of callbacks keeps the same invariant |
| UnlockedScreenOffAnimation.GoingToSleepStartsOnlyWhenItShouldPlay | packages/SystemUI/src/com/android/systemui/statusbar/phone/UnlockedScreenOffAnimationController.kt:139-161 | going to sleep changes nothing unless doze control is allowed and the bar is in SHADE, and then starts the light reveal and posts one AOD step |
| UnlockedScreenOffAnimation.AodStepSetsAodFlag | packages/SystemUI/src/com/android/systemui/statusbar/phone/UnlockedScreenOffAnimationController.kt:144-149 | a posted delayed step sets the AOD flag; with none posted nothing happens |
| UnlockedScreenOffAnimation.LightRevealEndClearsFlag | packages/SystemUI/src/com/android/systemui/statusbar/phone/UnlockedScreenOffAnimationController.kt:59-66 | the light reveal's end clears its flag and leaves the AOD flag |
| UnlockedScreenOffAnimation.KeyguardAnimateInEndClearsFlag | packages/SystemUI/src/com/android/systemui/statusbar/phone/UnlockedScreenOffAnimationController.kt:106-107 | the keyguard animate-in end clears the AOD flag and leaves the light-reveal flag |
| UnlockedScreenOffAnimation.WakingUpCancels | packages/SystemUI/src/com/android/systemui/statusbar/phone/UnlockedScreenOffAnimationController.kt:122-125 | starting to wake drops every posted step and stops the light reveal |
| UnlockedScreenOffAnimation.NoAodWithoutNewAnimation | packages/SystemUI/src/com/android/systemui/statusbar/phone/UnlockedScreenOffAnimationController.kt:122-149 | with no step posted and the AOD flag clear, no callbacks short of a new playing go-to-sleep ever set the AOD flag |
| UnlockedScreenOffAnimation.NotPlayingAfterFinishedWakingUp | packages/SystemUI/src/com/android/systemui/statusbar/phone/UnlockedScreenOffAnimationController.kt:127-137 | after any history, finishing waking leaves `isScreenOffAnimationPlaying` false |
| UnlockedScreenOffAnimation.RunAppend | packages/SystemUI/src/com/android/systemui/statusbar/phone/UnlockedScreenOffAnimationController.kt:54-151 | running two callback sequences one after the other is running their concatenation |
| UnlockedScreenOffAnimation.FullAnimation | packages/SystemUI/src/com/android/systemui/statusbar/phone/UnlockedScreenOffAnimationController.kt:54-151 | from rest: sleep in SHADE plays, the delayed step adds AOD, and both ends bring the flags back to rest |
| UnlockedScreenOffAnimation.UnlockedScreenOffAnimationController.constructor | packages/SystemUI/src/com/android/systemui/statusbar/phone/UnlockedScreenOffAnimationController.kt:51-52 | both flags false, nothing running or posted |
| UnlockedScreenOffAnimation.UnlockedScreenOffAnimationController.OnStartedGoingToSleep | packages/SystemUI/src/com/android/systemui/statusbar/phone/UnlockedScreenOffAnimationController.kt:139-151 | the fields change as the go-to-sleep step says |
| UnlockedScreenOffAnimation.UnlockedScreenOffAnimationController.OnAodStepFired | packages/SystemUI/src/com/android/systemui/statusbar/phone/UnlockedScreenOffAnimationController.kt:144-149 | the fields change as the delayed AOD step says |
| UnlockedScreenOffAnimation.UnlockedScreenOffAnimationController.OnLightRevealAnimationEnd | packages/SystemUI/src/com/android/systemui/statusbar/phone/UnlockedScreenOffAnimationController.kt:64-66 | the fields change as the light reveal's end says |
| UnlockedScreenOffAnimation.UnlockedScreenOffAnimationController.OnKeyguardAnimateInEnd | packages/SystemUI/src/com/android/systemui/statusbar/phone/UnlockedScreenOffAnimationController.kt:106-107 | the fields change as the keyguard end action says |
| UnlockedScreenOffAnimation.UnlockedScreenOffAnimationController.OnStartedWakingUp | packages/SystemUI/src/com/android/systemui/statusbar/phone/UnlockedScreenOffAnimationController.kt:122-125 | the fields change as the start of waking says (cancel, then drop posted steps) |
| UnlockedScreenOffAnimation.UnlockedScreenOffAnimationController.OnFinishedWakingUp | packages/SystemUI/src/com/android/systemui/statusbar/phone/UnlockedScreenOffAnimationController.kt:127-137 | both flags cleared, so no animation is playing |
| UnlockedScreenOffAnimation.UnlockedScreenOffAnimationController.IsPlaying | packages/SystemUI/src/com/android/systemui/statusbar/phone/UnlockedScreenOffAnimationController.kt:167-169 | true iff either flag is set |
| UnlockedScreenOffAnimation.UnlockedScreenOffAnimationController.IsLightRevealPlaying | packages/SystemUI/src/com/android/systemui/statusbar/phone/UnlockedScreenOffAnimationController.kt:175-177 | the light-reveal flag, which implies the animation is playing |
| RecordIssueTile.ContentDescription | packages/SystemUI/src/com/android/systemui/qs/tiles/RecordIssueTile.kt:103-104 | the label is a prefix, and the length is the label's alone or label + 2 + secondary |
| RecordIssueTile.ContentDescriptionRoundTrip | packages/SystemUI/src/com/android/systemui/qs/tiles/RecordIssueTile.kt:103-104 | the description is the bare label iff the secondary label is empty; otherwise ", " follows the label and the secondary label can be read back |
| RecordIssueTile.RecordIssueTile.constructor | packages/SystemUI/src/com/android/systemui/qs/tiles/RecordIssueTile.kt:67 | not recording at start |
| RecordIssueTile.BooleanState.constructor | packages/SystemUI/src/com/android/systemui/qs/tiles/RecordIssueTile.kt:74 | a fresh `QSTile.BooleanState`: active, value false, handling long clicks, with empty text standing for the null labels |
| RecordIssueTile.RecordIssueTile.NewTileState | packages/SystemUI/src/com/android/systemui/qs/tiles/RecordIssueTile.kt:73-77 | a fresh state with the tile label that does not handle long clicks |
| RecordIssueTile.RecordIssueTile.HandleClick | packages/SystemUI/src/com/android/systemui/qs/tiles/RecordIssueTile.kt:79-82 | the recording flag is negated (so two clicks restore it) and a refresh is requested |
| RecordIssueTile.RecordIssueTile.LongClickIntent | packages/SystemUI/src/com/android/systemui/qs/tiles/RecordIssueTile.kt:84 | there is no long-click intent |
| RecordIssueTile.RecordIssueTile.HandleUpdateState | packages/SystemUI/src/com/android/systemui/qs/tiles/RecordIssueTile.kt:87-107 | value equals the flag; ACTIVE when recording and INACTIVE otherwise; `forceExpandIcon` is its negation; the secondary label is "stop" or "start"; the description follows the label rule; `handlesLongClick` is untouched |
| FromGoneTransitions.ShowKeyguard | packages/SystemUI/src/com/android/systemui/keyguard/domain/interactor/FromGoneTransitionInteractor.kt:70-72 | always LOCKSCREEN, with no owner reason |
| FromGoneTransitions.LockscreenOrHub | packages/SystemUI/src/com/android/systemui/keyguard/domain/interactor/FromGoneTransitionInteractor.kt:83-88 | GLANCEABLE_HUB iff idle on communal, LOCKSCREEN iff not |
| FromGoneTransitions.GoneToLockscreenOrHub | packages/SystemUI/src/com/android/systemui/keyguard/domain/interactor/FromGoneTransitionInteractor.kt:75-108 | a transition starts iff GONE is relevant and the trigger holds (lockdown with the refactor, keyguard showing without); the target is hub-or-lockscreen; the lockdown owner reason comes only with the refactor |
| FromGoneTransitions.GoneToDreamingLockscreenHosted | packages/SystemUI/src/com/android/systemui/keyguard/domain/interactor/FromGoneTransitionInteractor.kt:110-118 | DREAMING_LOCKSCREEN_HOSTED starts iff GONE is relevant and the active dream is lockscreen-hosted |
| FromGoneTransitions.GoneToDreaming | packages/SystemUI/src/com/android/systemui/keyguard/domain/interactor/FromGoneTransitionInteractor.kt:120-129 | DREAMING starts iff GONE is relevant, the device can dream and the dream is not lockscreen-hosted |
| FromGoneTransitions.DurationToMs | packages/SystemUI/src/com/android/systemui/keyguard/domain/interactor/FromGoneTransitionInteractor.kt:139-151 | every duration lies between the default 500 ms and the AOD 1300 ms |
| FromGoneTransitions.TargetsWellFormed | packages/SystemUI/src/com/android/systemui/keyguard/domain/interactor/FromGoneTransitionInteractor.kt:75-129 | no rule targets GONE; nothing starts unless GONE is relevant; the two dreaming targets never both start, nor do lockscreen and hub |
| FromGoneTransitions.DreamingTargetIff | packages/SystemUI/src/com/android/systemui/keyguard/domain/interactor/FromGoneTransitionInteractor.kt:110-129 | the dreaming targets among all started ones, each as an iff on the sampled flags |
| FromGoneTransitions.DurationTable | packages/SystemUI/src/com/android/systemui/keyguard/domain/interactor/FromGoneTransitionInteractor.kt:139-159 | DREAMING and DOZING 933 ms, AOD 1300 ms, every other state 500 ms; LOCKSCREEN equals the default; every duration is positive |

## Left out

- ConversationNotifications: `onNotificationRankingUpdated` (ConversationNotifications.kt:151-186) is left out. It changes only conversation layouts and group isolation, not the `states` table.
- ConversationNotifications: `resetBadgeUi` and the animated-image manager (the rest of the file) are left out. They are view work only.
- ConversationNotifications: `ConcurrentHashMap` thread safety is left out. Each `compute`/`replaceAll` is modelled as one atomic update.
- ConversationNotifications: the expansion listener's wait for `performOnIntrinsicHeightReached` is left out. The listener is modelled as a direct `UpdateCount` call.
- ConversationNotifications.ProcessNotification: the shortcut label's `CharSequence` to `String` conversion is not modelled.
- PropImitationHooks.SetPropValue: a field of any type other than String or int (such as the `long` `Build.TIME` or the `boolean` `Build.IS_DEBUGGABLE`), or an int field whose value `Integer.parseInt` cannot parse, is left unchanged in the source, because the exception is caught and logged; the model stores every value as text and writes it. The same text is what the model publishes as `persist.sys.pihooks.first_api_level`, where the source publishes `Integer.toString` of the parsed int (an entry `DEVICE_INITIAL_SDK_INT:032` publishes `32` in the source and `032` here).
- PropImitationHooks: logging, `dlog` and the `DEBUG` flag are left out.
- PropImitationHooks: `setSystemProperty` is modelled as a map update. Its swallowed exception is left out.
- PropImitationHooks: `shouldBypassTaskPermission` is outside the modelled core.
- PropImitationHooks: `isGmsAddAccountActivityOnTop` becomes a parameter, and so does the success of `registerTaskStackListener`.
- PropImitationHooks: `Process.killProcess` becomes the boolean result of `OnTaskStackChanged`.
- PropImitationHooks.OnTaskStackChanged: each listener in the source asks the task manager itself. The model gives every listener the same answer.
- PropImitationHooks.CertificateChainBlocked: the thrown `UnsupportedOperationException` is modelled as a `true` result.
- SystemVibrator: `isVibrating`, `hasAmplitudeControl`, `setAlwaysOnEffect`, `vibrate` and `cancel` are outside the modelled core. They forward to the service and keep no client state.
- SystemVibrator: the `RemoteException` paths of add, remove and `getVibratorInfo` rethrow, so those calls do not return. They are not modelled; the service's answers are taken as returned.
- SystemVibrator: the lock and the `synchronized` blocks are left out. Every method is modelled as atomic.
- SystemVibrator: delegates' `onVibrating` forwarding to the executor is left out. It is a callback into client code.
- UnlockedScreenOffAnimation: the reveal amount of the scrim (a float), the animator's interpolation and the view moves in `animateInKeyguard` are left out.
- UnlockedScreenOffAnimation: `maybeHandlePendingLock`, `updateIsKeyguard` and `showAodUi` are calls into other components and are not modelled.
- UnlockedScreenOffAnimation: `initialize` only stores references and registers the observer, so it is not modelled.
- UnlockedScreenOffAnimation: the animator's `onAnimationCancel` is not a separate step. It is reached only through `onStartedWakingUp`, which the model covers together with the `onAnimationEnd` that follows it.
- RecordIssueTile: `refreshState` is asynchronous; it is modelled as a ghost count of refresh requests. The refresh that follows is `HandleUpdateState`.
- RecordIssueTile: `isAvailable`, which depends on a build flag, and `getTileLabel`, which reads a resource, are left out. The label and the two secondary labels are parameters.
- RecordIssueTile: the `BooleanState` field `label` is called `stateLabel`, because `label` is a Dafny keyword.
- FromGoneTransitions: `listenForGoneToAodOrDozing` is left out. Its rule lives in the `TransitionInteractor` superclass, which is not part of this model.
- FromGoneTransitions: `filterRelevantKeyguardStateAnd` is reduced to the `relevant` input, `distinctUntilChanged` and `sample` are reduced to one snapshot of the flows, and coroutine scheduling is left out.
- FromGoneTransitions: the `KeyguardState` enumeration is written out here. Its source file is not part of this model.
- FromGoneTransitions: the LINEAR interpolator is left out; the model keeps only the duration.
