/**
 * Unread-count bookkeeping for SystemUI conversation notifications: the
 * `states` table kept by ConversationNotificationManager, and the
 * messaging-style fields that ConversationNotificationProcessor fills in
 * before a conversation notification is inflated.
 *
 * Platform calls become parameters: the "visibly different" comparison of two
 * notification builders, the active-entry lookup of the entry manager and the
 * launcher's shortcut-icon lookup.
 */
module ConversationNotifications {
  import opened Wrappers

  // ---------------------------------------------------------------- Kotlin Int

  const INT_MIN: int := -0x8000_0000
  const INT_MAX: int := 0x7fff_ffff
  const TWO_32: int := 0x1_0000_0000

  predicate IsInt(n: int) { INT_MIN <= n <= INT_MAX }

  /** Kotlin's `n + 1` on an `Int`: congruent to n + 1 modulo 2^32, in range. */
  function IntIncrement(n: int): (r: int)
    requires IsInt(n)
    ensures IsInt(r)
    ensures (r - n - 1) % TWO_32 == 0
    ensures n < INT_MAX ==> r == n + 1
    ensures n == INT_MAX ==> r == INT_MIN
  {
    if n == INT_MAX then INT_MIN else n + 1
  }

  // ---------------------------------------------------------------- entities

  /** A posted notification; only its identity matters here. */
  datatype Notification = Notification(id: nat)

  /** A conversation shortcut; `shortcutLabel` is its nullable `label`. */
  datatype ShortcutInfo = ShortcutInfo(id: nat, shortcutLabel: Option<string>)

  datatype Ranking = Ranking(
    isConversation: bool,
    isImportantConversation: bool,  // ranking.channel.isImportantConversation
    conversationShortcutInfo: Option<ShortcutInfo>)

  datatype Row = Row(isExpanded: bool)

  datatype NotificationEntry = NotificationEntry(
    key: string,
    notification: Notification,  // entry.sbn.notification
    ranking: Ranking,
    row: Option<Row>,
    isPinnedAndExpanded: bool)

  /** One entry of the manager's `states` table. */
  datatype ConversationState = ConversationState(unreadCount: int, notification: Notification)

  type States = map<string, ConversationState>

  /**
   * `Notification.areStyledNotificationsVisiblyDifferent`, applied to the
   * builders recovered from the two notifications.
   */
  type VisiblyDifferent = (Notification, Notification) -> bool

  /** `NotificationEntryManager.getActiveNotificationUnfiltered`. */
  type ActiveEntries = string -> Option<NotificationEntry>

  /** `launcherApps.getShortcutIcon`; the icon is nullable. */
  type ShortcutIcons = ShortcutInfo -> Option<Icon>

  predicate CountsInRange(states: States) {
    forall k :: k in states ==> IsInt(states[k].unreadCount)
  }

  /** `row?.isExpanded == true` */
  predicate RowExpanded(row: Option<Row>) {
    row.Some? && row.value.isExpanded
  }

  /** The entry manager has an active entry for `key` whose row is expanded. */
  predicate HasExpandedRow(active: ActiveEntries, key: string) {
    active(key).Some? && RowExpanded(active(key).value.row)
  }

  // ---------------------------------------------------------------- the table

  /**
   * The table after `getUnreadCount` for `key`: a first-seen key starts at 1,
   * a tracked key goes up by one exactly when the incoming builder is visibly
   * different from the one recovered from the stored notification, and the
   * stored notification becomes the incoming one. No other entry changes.
   */
  function AfterUnreadCount(
    states: States, key: string, incoming: Notification, recovered: Notification,
    differs: VisiblyDifferent): (r: States)
    requires CountsInRange(states)
    ensures CountsInRange(r)
    ensures r.Keys == states.Keys + {key}
    ensures r[key].notification == incoming
    ensures key !in states ==> r[key].unreadCount == 1
    ensures key in states ==>
      (r[key].unreadCount != states[key].unreadCount <==> differs(states[key].notification, recovered))
    ensures key in states && differs(states[key].notification, recovered) ==>
      r[key].unreadCount == IntIncrement(states[key].unreadCount)
    ensures forall k :: k in states && k != key ==> r[k] == states[k]
  {
    var count :=
      if key !in states then 1
      else if differs(states[key].notification, recovered) then IntIncrement(states[key].unreadCount)
      else states[key].unreadCount;
    states[key := ConversationState(count, incoming)]
  }

  /** The table after `resetCount(key)`: a tracked key drops to 0, nothing is added. */
  function AfterResetCount(states: States, key: string): (r: States)
    requires CountsInRange(states)
    ensures CountsInRange(r)
    ensures r.Keys == states.Keys
    ensures key in r ==> r[key].unreadCount == 0 && r[key].notification == states[key].notification
    ensures forall k :: k in states && k != key ==> r[k] == states[k]
  {
    if key in states then states[key := states[key].(unreadCount := 0)] else states
  }

  /** The table after `replaceAll` with the keys of `expanded` reset to 0. */
  function ResetExpanded(states: States, expanded: set<string>): (r: States)
    requires CountsInRange(states)
    ensures CountsInRange(r)
    ensures r.Keys == states.Keys
    ensures forall k :: k in r ==> r[k].notification == states[k].notification
    ensures forall k :: k in r && k in expanded ==> r[k].unreadCount == 0
    ensures forall k :: k in r && k !in expanded ==> r[k] == states[k]
  {
    map k | k in states :: if k in expanded then states[k].(unreadCount := 0) else states[k]
  }

  /**
   * The `expanded` collection built when the panel opens: the tracked keys
   * whose active entry has an expanded row.
   */
  method ExpandedConversations(states: States, active: ActiveEntries) returns (expanded: set<string>)
    ensures expanded == set k | k in states && HasExpandedRow(active, k)
  {
    expanded := {};
    var todo := states.Keys;
    while todo != {}
      invariant todo <= states.Keys
      invariant expanded == set k | k in states && k !in todo && HasExpandedRow(active, k)
      decreases todo
    {
      var k :| k in todo;
      if HasExpandedRow(active, k) {
        expanded := expanded + {k};
      }
      todo := todo - {k};
    }
  }

  /** The inflate-time and expansion-time reset rule of `updateCount`. */
  predicate ResetsOnExpansion(notifPanelCollapsed: bool, entry: NotificationEntry, isExpanded: bool) {
    isExpanded && (!notifPanelCollapsed || entry.isPinnedAndExpanded)
  }

  // ---------------------------------------------------------------- repeated updates

  /**
   * The table after one `getUnreadCount` per notification of `ns`, in order,
   * each builder recovered from the notification it stores.
   */
  function AfterUpdates(states: States, key: string, ns: seq<Notification>, differs: VisiblyDifferent): (r: States)
    requires CountsInRange(states)
    ensures CountsInRange(r)
    ensures r.Keys == if ns == [] then states.Keys else states.Keys + {key}
    ensures forall k :: k in states && k != key ==> r[k] == states[k]
    decreases |ns|
  {
    if ns == [] then states
    else AfterUpdates(AfterUnreadCount(states, key, ns[0], ns[0], differs), key, ns[1..], differs)
  }

  /** Number of adjacent pairs in `ns` that are visibly different. */
  function Changes(ns: seq<Notification>, differs: VisiblyDifferent): nat
    decreases |ns|
  {
    if |ns| < 2 then 0
    else (if differs(ns[0], ns[1]) then 1 else 0) + Changes(ns[1..], differs)
  }

  /**
   * While no wrap-around happens, a tracked key's count after a run of
   * updates is its old count plus the number of visibly different steps,
   * starting from the stored notification; the last notification is stored.
   */
  lemma {:induction false} TrackedCountAfterUpdates(
    states: States, key: string, ns: seq<Notification>, differs: VisiblyDifferent)
    requires CountsInRange(states) && key in states
    requires states[key].unreadCount + |ns| <= INT_MAX
    ensures key in AfterUpdates(states, key, ns, differs)
    ensures AfterUpdates(states, key, ns, differs)[key].unreadCount
         == states[key].unreadCount + Changes([states[key].notification] + ns, differs)
    ensures AfterUpdates(states, key, ns, differs)[key].notification
         == if ns == [] then states[key].notification else ns[|ns| - 1]
    decreases |ns|
  {
    var p := states[key].notification;
    if ns == [] {
      assert Changes([p], differs) == 0;
    } else {
      var s1 := AfterUnreadCount(states, key, ns[0], ns[0], differs);
      TrackedCountAfterUpdates(s1, key, ns[1..], differs);
      assert [p] + ns == [p, ns[0]] + ns[1..];
      assert ([p] + ns)[1..] == ns;
      assert [ns[0]] + ns[1..] == ns;
      if ns[1..] != [] {
        assert ns[1..][|ns[1..]| - 1] == ns[|ns| - 1];
      }
    }
  }

  /**
   * A key seen for the first time and then updated by `ns` ends with
   * 1 + (number of visibly different steps within `ns`).
   */
  lemma FirstSeenCountAfterUpdates(
    states: States, key: string, ns: seq<Notification>, differs: VisiblyDifferent)
    requires CountsInRange(states) && key !in states
    requires 1 <= |ns| <= INT_MAX
    ensures key in AfterUpdates(states, key, ns, differs)
    ensures AfterUpdates(states, key, ns, differs)[key].unreadCount == 1 + Changes(ns, differs)
  {
    var s1 := AfterUnreadCount(states, key, ns[0], ns[0], differs);
    TrackedCountAfterUpdates(s1, key, ns[1..], differs);
    assert [ns[0]] + ns[1..] == ns;
  }

  // ---------------------------------------------------------------- the manager

  /** ConversationNotificationManager: the `states` table and the panel flag. */
  class ConversationNotificationManager {
    var states: States
    var notifPanelCollapsed: bool

    ghost predicate Valid()
      reads this
    {
      CountsInRange(states)
    }

    constructor ()
      ensures Valid()
      ensures states == map[] && notifPanelCollapsed
    {
      states := map[];
      notifPanelCollapsed := true;
    }

    /** `getUnreadCount`: the `compute` on the entry's key. */
    method GetUnreadCount(entry: NotificationEntry, recovered: Notification, differs: VisiblyDifferent)
      returns (count: int)
      requires Valid()
      modifies this`states
      ensures Valid()
      ensures states == AfterUnreadCount(old(states), entry.key, entry.notification, recovered, differs)
      ensures count == states[entry.key].unreadCount
    {
      var newCount := 1;
      if entry.key in states {
        var state := states[entry.key];
        newCount := if differs(state.notification, recovered) then IntIncrement(state.unreadCount)
                    else state.unreadCount;
      }
      states := states[entry.key := ConversationState(newCount, entry.notification)];
      count := newCount;
    }

    /**
     * `onNotificationPanelExpandStateChanged`: collapsing only records the
     * flag; expanding resets exactly the tracked keys with an expanded row.
     */
    method OnNotificationPanelExpandStateChanged(isCollapsed: bool, active: ActiveEntries)
      requires Valid()
      modifies this
      ensures Valid()
      ensures notifPanelCollapsed == isCollapsed
      ensures isCollapsed ==> states == old(states)
      ensures !isCollapsed ==>
        states == ResetExpanded(old(states), set k | k in old(states) && HasExpandedRow(active, k))
    {
      notifPanelCollapsed := isCollapsed;
      if isCollapsed {
        return;
      }
      var expanded := ExpandedConversations(states, active);
      states := ResetExpanded(states, expanded);
    }

    /** `resetCount`: `compute` that maps a missing state to no state. */
    method ResetCount(key: string)
      requires Valid()
      modifies this`states
      ensures Valid()
      ensures states == AfterResetCount(old(states), key)
    {
      if key in states {
        states := states[key := states[key].(unreadCount := 0)];
      }
    }

    /** `removeTrackedEntry`, also what `onEntryRemoved` does. */
    method RemoveTrackedEntry(entry: NotificationEntry)
      requires Valid()
      modifies this`states
      ensures Valid()
      ensures states == old(states) - {entry.key}
    {
      states := states - {entry.key};
    }

    /**
     * `updateCount(isExpanded)`, run at inflation and by the expansion
     * listener installed on a conversation's row.
     */
    method UpdateCount(entry: NotificationEntry, isExpanded: bool)
      requires Valid()
      modifies this`states
      ensures Valid()
      ensures states == if ResetsOnExpansion(notifPanelCollapsed, entry, isExpanded)
                        then AfterResetCount(old(states), entry.key) else old(states)
    {
      if isExpanded && (!notifPanelCollapsed || entry.isPinnedAndExpanded) {
        ResetCount(entry.key);
      }
    }

    /** `onEntryInflated` (and `onEntryReinflated`): only conversations are touched. */
    method OnEntryInflated(entry: NotificationEntry)
      requires Valid()
      modifies this`states
      ensures Valid()
      ensures states == if entry.ranking.isConversation
                          && ResetsOnExpansion(notifPanelCollapsed, entry, RowExpanded(entry.row))
                        then AfterResetCount(old(states), entry.key) else old(states)
    {
      if !entry.ranking.isConversation {
        return;
      }
      UpdateCount(entry, entry.row.Some? && entry.row.value.isExpanded);
    }
  }

  // ---------------------------------------------------------------- the processor

  datatype ConversationType = ConversationTypeNormal | ConversationTypeImportant

  datatype Icon = Icon(id: nat)

  /** The fields of `Notification.MessagingStyle` that the processor writes. */
  class MessagingStyle {
    var conversationType: ConversationType
    var conversationTitle: Option<string>
    var shortcutIcon: Option<Icon>
    var unreadMessageCount: int

    constructor (title: Option<string>)
      ensures conversationType == ConversationTypeNormal
      ensures conversationTitle == title && shortcutIcon == None && unreadMessageCount == 0
    {
      conversationType := ConversationTypeNormal;
      conversationTitle := title;
      shortcutIcon := None;
      unreadMessageCount := 0;
    }
  }

  /**
   * A builder recovered from a posted notification. `messagingStyle` is
   * `style as? MessagingStyle`: null for any other style or none.
   */
  class Builder {
    const notification: Notification
    const messagingStyle: MessagingStyle?

    constructor (notification: Notification, messagingStyle: MessagingStyle?)
      ensures this.notification == notification && this.messagingStyle == messagingStyle
    {
      this.notification := notification;
      this.messagingStyle := messagingStyle;
    }
  }

  function ConversationTypeOf(ranking: Ranking): (t: ConversationType)
    ensures t == ConversationTypeImportant <==> ranking.isImportantConversation
  {
    if ranking.isImportantConversation then ConversationTypeImportant else ConversationTypeNormal
  }

  /** The title after processing: replaced only by an existing shortcut label. */
  function TitleAfter(title: Option<string>, shortcut: Option<ShortcutInfo>): (r: Option<string>)
    ensures r != title ==> shortcut.Some? && shortcut.value.shortcutLabel.Some?
    ensures shortcut.Some? && shortcut.value.shortcutLabel.Some? ==> r == shortcut.value.shortcutLabel
  {
    match shortcut
    case None => title
    case Some(info) => if info.shortcutLabel.Some? then info.shortcutLabel else title
  }

  class ConversationNotificationProcessor {
    const manager: ConversationNotificationManager

    constructor (manager: ConversationNotificationManager)
      ensures this.manager == manager
    {
      this.manager := manager;
    }

    /**
     * `processNotification`: nothing for a non-messaging style; otherwise the
     * conversation type, shortcut icon and title, and the unread count taken
     * from the manager's table.
     */
    method ProcessNotification(
      entry: NotificationEntry, recoveredBuilder: Builder, icons: ShortcutIcons,
      differs: VisiblyDifferent)
      requires manager.Valid()
      modifies recoveredBuilder.messagingStyle, manager`states
      ensures manager.Valid()
      ensures recoveredBuilder.messagingStyle == null ==> manager.states == old(manager.states)
      ensures recoveredBuilder.messagingStyle != null ==>
        var style := recoveredBuilder.messagingStyle;
        && style.conversationType == ConversationTypeOf(entry.ranking)
        && style.conversationTitle == TitleAfter(old(style.conversationTitle), entry.ranking.conversationShortcutInfo)
        && style.shortcutIcon == (if entry.ranking.conversationShortcutInfo.Some?
                                  then icons(entry.ranking.conversationShortcutInfo.value)
                                  else old(style.shortcutIcon))
        && manager.states == AfterUnreadCount(old(manager.states), entry.key, entry.notification,
                                              recoveredBuilder.notification, differs)
        && style.unreadMessageCount == manager.states[entry.key].unreadCount
    {
      var messagingStyle := recoveredBuilder.messagingStyle;
      if messagingStyle == null {
        return;
      }
      messagingStyle.conversationType :=
        if entry.ranking.isImportantConversation then ConversationTypeImportant else ConversationTypeNormal;
      match entry.ranking.conversationShortcutInfo {
        case None =>
        case Some(shortcutInfo) =>
          messagingStyle.shortcutIcon := icons(shortcutInfo);
          match shortcutInfo.shortcutLabel {
            case None =>
            case Some(text) => messagingStyle.conversationTitle := Some(text);
          }
      }
      // The comparison sees the builder's source notification, not the style edits above.
      var count := manager.GetUnreadCount(entry, recoveredBuilder.notification, differs);
      messagingStyle.unreadMessageCount := count;
    }
  }
}
