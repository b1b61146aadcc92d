/** The toast notifications of the dashboard (contexts/NotificationContext.tsx). */
module Notifications {
  import Wrappers
  import Seqs

  /** `'success' | 'error'`. */
  datatype NotificationType = Success | Error

  /** A toast; its id is the clock reading (`Date.now()`) taken when it was added. */
  datatype Notification = Notification(id: int, message: string, kind: NotificationType)

  function NotificationId(n: Notification): int {
    n.id
  }

  /** `prev.filter(n => n.id !== id)`. */
  function WithoutNotification(ns: seq<Notification>, id: int): (r: seq<Notification>)
    ensures forall n :: n in r <==> n in ns && n.id != id
    ensures Seqs.IsSubsequence(r, ns)
    ensures forall n :: n in ns ==> multiset(r)[n] == if n.id == id then 0 else multiset(ns)[n]
  {
    Seqs.RemoveKey(ns, NotificationId, id)
  }

  /** The look of a toast: its background, its icon colour and its icon. */
  datatype ToastStyle = ToastStyle(bg: string, iconColor: string, icon: string)

  /** `notificationStyles[type]`: a check mark for success, an alert circle for errors. */
  function StyleOf(kind: NotificationType): (style: ToastStyle)
    ensures style.icon == "check" <==> kind == Success
    ensures style.icon == "alert-circle" <==> kind == Error
  {
    match kind
    case Success => ToastStyle("bg-accent/20 border-accent/50", "text-accent", "check")
    case Error => ToastStyle("bg-red-500/20 border-red-500/50", "text-red-400", "alert-circle")
  }

  /** The provider's `notifications` state. */
  class NotificationCenter {
    var notifications: seq<Notification>

    constructor ()
      ensures notifications == []
    {
      notifications := [];
    }

    /** `addNotification(message, type)` at clock reading `now`: one toast is appended at the end. */
    method AddNotification(message: string, kind: NotificationType, now: int)
      modifies this
      ensures notifications == old(notifications) + [Notification(now, message, kind)]
    {
      notifications := notifications + [Notification(now, message, kind)];
    }

    /** `removeNotification(id)`: every toast with this id goes, the others stay in order. */
    method RemoveNotification(id: int)
      modifies this
      ensures notifications == WithoutNotification(old(notifications), id)
    {
      notifications := WithoutNotification(notifications, id);
    }
  }

  const OutsideProvider: string := "useNotification must be used within a NotificationProvider"

  /** `useNotification()`: the provider's context, or an error when there is no provider. */
  function UseNotification(context: Wrappers.Option<NotificationCenter>): (r: Wrappers.Result<NotificationCenter, string>)
    ensures r.Success? <==> context.Some?
    ensures r.Success? ==> r.value == context.value
    ensures r.Failure? ==> r.error == OutsideProvider
  {
    match context
    case Some(center) => Wrappers.Success(center)
    case None => Wrappers.Failure(OutsideProvider)
  }

  /** Removing the id of a toast just added takes it away again and leaves the rest as before. */
  lemma RemoveAfterAdd(ns: seq<Notification>, n: Notification)
    ensures WithoutNotification(ns + [n], n.id) == WithoutNotification(ns, n.id)
  {
    Seqs.RemoveKeyAppend(ns, [n], NotificationId, n.id);
    assert [n][1..] == [];
  }

  /** Removing any other id keeps a toast just added, at the end. */
  lemma RemoveOtherAfterAdd(ns: seq<Notification>, n: Notification, id: int)
    requires id != n.id
    ensures WithoutNotification(ns + [n], id) == WithoutNotification(ns, id) + [n]
  {
    Seqs.RemoveKeyAppend(ns, [n], NotificationId, id);
    assert [n][1..] == [];
  }

  /**
   * Ids come from the clock, so two toasts added at the same instant share an id, and
   * dismissing either of them dismisses both.
   */
  lemma SameInstantDismissedTogether(ns: seq<Notification>, now: int,
                                     m1: string, k1: NotificationType, m2: string, k2: NotificationType)
    ensures WithoutNotification(ns + [Notification(now, m1, k1)] + [Notification(now, m2, k2)], now)
         == WithoutNotification(ns, now)
  {
    RemoveAfterAdd(ns + [Notification(now, m1, k1)], Notification(now, m2, k2));
    RemoveAfterAdd(ns, Notification(now, m1, k1));
  }

  /** Removing an id no toast carries changes nothing. */
  lemma RemoveAbsentNotification(ns: seq<Notification>, id: int)
    requires forall i :: 0 <= i < |ns| ==> ns[i].id != id
    ensures WithoutNotification(ns, id) == ns
  {
    Seqs.RemoveAbsentKey(ns, NotificationId, id);
  }
}
