/** The UI store: navigation drawer, dark mode and the notification queue. */
module UiSlice {
  import opened Domain
  import opened Seqs

  datatype NotificationKind = Success | Error | Info

  datatype Notification = Notification(id: string, message: string, kind: NotificationKind)

  /** The payload of `addNotification`; a payload that carries its own `id` overrides
      the generated one, because it is spread after it. */
  datatype NotificationPayload = NotificationPayload(id: Option<string>, message: string, kind: NotificationKind)

  datatype UiState = UiState(isNavOpen: bool, isDarkMode: bool, notifications: seq<Notification>)

  /** The notification queued for a payload, given the clock's reading as a string. */
  function NewNotification(stamp: string, payload: NotificationPayload): Notification
  {
    Notification(if payload.id.Some? then payload.id.value else stamp, payload.message, payload.kind)
  }

  /** `removeNotification`'s filter. */
  function WithoutNotification(ns: seq<Notification>, id: string): seq<Notification>
  {
    Filter(ns, (n: Notification) => n.id != id)
  }

  /** Removal drops every notification with the id (ids from the clock can repeat)
      and keeps the others in their order; removing the id of a notification just
      added, when no earlier one had it, gives the queue back as it was. */
  lemma WithoutNotificationSpec(ns: seq<Notification>, id: string)
    ensures forall n :: n in WithoutNotification(ns, id) <==> n in ns && n.id != id
    ensures IsSubsequence(WithoutNotification(ns, id), ns)
    ensures (forall n :: n in ns ==> n.id != id) ==> WithoutNotification(ns, id) == ns
    ensures forall n: Notification :: n.id == id ==> WithoutNotification(ns + [n], id) == WithoutNotification(ns, id)
    ensures forall n: Notification :: n.id == id && (forall m :: m in ns ==> m.id != id) ==>
              WithoutNotification(ns + [n], id) == ns
  {
    FilterKeepsOrder(ns, (n: Notification) => n.id != id);
    if forall n :: n in ns ==> n.id != id {
      FilterKeepsAll(ns, (n: Notification) => n.id != id);
    }
    forall n: Notification | n.id == id
      ensures WithoutNotification(ns + [n], id) == WithoutNotification(ns, id)
    {
      FilterAppend(ns, [n], (n: Notification) => n.id != id);
    }
  }

  class UiStore {
    var isNavOpen: bool
    var isDarkMode: bool
    var notifications: seq<Notification>

    function State(): UiState
      reads this
    {
      UiState(isNavOpen, isDarkMode, notifications)
    }

    /** `initialState`: dark mode follows the system preference where there is one. */
    constructor (prefersDark: Option<bool>)
      ensures State() == UiState(false, prefersDark == Some(true), [])
    {
      isNavOpen := false;
      isDarkMode := prefersDark.Some? && prefersDark.value;
      notifications := [];
    }

    /** Toggling negates the flag, so toggling twice restores it. */
    method ToggleNav()
      modifies this
      ensures State() == old(State()).(isNavOpen := !old(isNavOpen))
    {
      isNavOpen := !isNavOpen;
    }

    method SetNavOpen(open: bool)
      modifies this
      ensures State() == old(State()).(isNavOpen := open)
    {
      isNavOpen := open;
    }

    method ToggleDarkMode()
      modifies this
      ensures State() == old(State()).(isDarkMode := !old(isDarkMode))
    {
      isDarkMode := !isDarkMode;
    }

    method SetDarkMode(dark: bool)
      modifies this
      ensures State() == old(State()).(isDarkMode := dark)
    {
      isDarkMode := dark;
    }

    /** Appends the new notification at the end of the queue. */
    method AddNotification(stamp: string, payload: NotificationPayload)
      modifies this
      ensures State() == old(State()).(notifications := old(notifications) + [NewNotification(stamp, payload)])
    {
      notifications := notifications + [NewNotification(stamp, payload)];
    }

    method RemoveNotification(id: string)
      modifies this
      ensures State() == old(State()).(notifications := WithoutNotification(old(notifications), id))
      ensures forall n :: n in notifications <==> n in old(notifications) && n.id != id
    {
      notifications := WithoutNotification(notifications, id);
    }

    method ClearNotifications()
      modifies this
      ensures State() == old(State()).(notifications := [])
    {
      notifications := [];
    }
  }
}
