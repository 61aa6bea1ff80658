/** The toast list (`NotificationService`): newest first, removal by id, and the
    automatic removal scheduled for every notification that does not opt out. */
module Notifications {
  import opened Js
  import opened Text
  import opened Seqs

  datatype NotificationType = Success | Error | Warning | Info

  /** One notification; `autoHide` is `None` when the caller left it out. */
  datatype Notification = Notification(
    id: string,
    kind: NotificationType,
    title: string,
    message: string,
    timestamp: int,
    autoHide: Option<bool>)

  /** A notification id: `notif-`, the clock in milliseconds, `-`, and a random suffix. */
  function NotificationId(now: nat, suffix: string): (r: string)
    ensures |r| > 7 && r[..6] == "notif-"
  {
    "notif-" + NatToString(now) + "-" + suffix
  }

  /** `autoHide !== false`: only an explicit `false` opts out of automatic removal. */
  predicate SchedulesRemoval(autoHide: Option<bool>)
  {
    autoHide != Some(false)
  }

  /** The list without the notifications that have id `id`. */
  function WithoutId(list: seq<Notification>, id: string): (r: seq<Notification>)
    ensures forall n :: n in r <==> n in list && n.id != id
    ensures |r| <= |list|
  {
    FilterMembers(list, (n: Notification) => n.id != id);
    Filter(list, (n: Notification) => n.id != id)
  }

  /** Removing an id no notification has changes nothing. */
  lemma WithoutUnknownId(list: seq<Notification>, id: string)
    requires forall i :: 0 <= i < |list| ==> list[i].id != id
    ensures WithoutId(list, id) == list
  {
    FilterAllKept(list, (n: Notification) => n.id != id);
  }

  /** Removal undoes showing: taking away the id of a notification just put in front of
      a list that does not use that id gives the list back. */
  lemma RemoveUndoesShow(n: Notification, list: seq<Notification>)
    requires forall i :: 0 <= i < |list| ==> list[i].id != n.id
    ensures WithoutId([n] + list, n.id) == list
  {
    FilterPrepend(n, list, (x: Notification) => x.id != n.id);
    WithoutUnknownId(list, n.id);
  }

  /** The `autoHide` the convenience methods pass on: the caller's value, else `false`
      for errors and `true` for the other kinds. */
  function DefaultAutoHide(kind: NotificationType, autoHide: Option<bool>): (r: bool)
    ensures autoHide.Some? ==> r == autoHide.value
    ensures autoHide.None? ==> (r <==> kind != Error)
  {
    if autoHide.Some? then autoHide.value else kind != Error
  }

  class NotificationService {
    /** The current list, newest first. */
    var notifications: seq<Notification>
    /** The ids whose removal has been scheduled, in the order it was scheduled. */
    var scheduled: seq<string>

    constructor ()
      ensures notifications == [] && scheduled == []
    {
      notifications, scheduled := [], [];
    }

    /** `show`: the new notification goes in front of the unchanged list, and its
        removal is scheduled unless `autoHide` is `false`. The clock reading and the
        random suffix are parameters. */
    method Show(kind: NotificationType, title: string, message: string, autoHide: Option<bool>, now: nat, suffix: string)
      modifies this
      ensures notifications == [Notification(NotificationId(now, suffix), kind, title, message, now, autoHide)] + old(notifications)
      ensures scheduled == old(scheduled) + if SchedulesRemoval(autoHide) then [NotificationId(now, suffix)] else []
    {
      var n := Notification(NotificationId(now, suffix), kind, title, message, now, autoHide);
      notifications := [n] + notifications;
      if autoHide != Some(false) {
        scheduled := scheduled + [n.id];
      }
    }

    /** `remove`: every notification with the id goes, the rest stay in order. */
    method Remove(id: string)
      modifies this
      ensures notifications == WithoutId(old(notifications), id)
      ensures scheduled == old(scheduled)
    {
      notifications := WithoutId(notifications, id);
    }

    /** `clear`. */
    method Clear()
      modifies this
      ensures notifications == [] && scheduled == old(scheduled)
    {
      notifications := [];
    }

    /** `success`, `error`, `warning` and `info`: `show` with the kind's default
        `autoHide` when the caller gives none. */
    method Notify(kind: NotificationType, title: string, message: string, autoHide: Option<bool>, now: nat, suffix: string)
      modifies this
      ensures notifications == [Notification(NotificationId(now, suffix), kind, title, message, now, Some(DefaultAutoHide(kind, autoHide)))] + old(notifications)
      ensures scheduled == old(scheduled) + if DefaultAutoHide(kind, autoHide) then [NotificationId(now, suffix)] else []
    {
      Show(kind, title, message, Some(DefaultAutoHide(kind, autoHide)), now, suffix);
    }
  }

  /** By default an error stays until it is dismissed, and a success is removed on its
      own; removing the success leaves the error in front of the earlier list. */
  method ErrorStaysSuccessGoes(service: NotificationService, now: nat)
    requires forall i :: 0 <= i < |service.notifications| ==> service.notifications[i].id != NotificationId(now + 1, "s")
    modifies service
    ensures |service.scheduled| == |old(service.scheduled)| + 1
    ensures service.scheduled[|service.scheduled| - 1] == NotificationId(now + 1, "s")
    ensures service.notifications == [Notification(NotificationId(now, "e"), Error, "Error", "failed", now, Some(false))] + old(service.notifications)
  {
    service.Notify(Error, "Error", "failed", None, now, "e");
    var afterError := service.notifications;
    service.Notify(Success, "Done", "saved", None, now + 1, "s");
    var success := service.notifications[0];
    assert service.notifications == [success] + afterError;
    EarlierIdsDiffer(now, "e", now + 1, "s");
    RemoveUndoesShow(success, afterError);
    service.Remove(NotificationId(now + 1, "s"));
  }

  /** Ids taken at different clock readings differ. */
  lemma EarlierIdsDiffer(now1: nat, s1: string, now2: nat, s2: string)
    requires now1 != now2
    ensures NotificationId(now1, s1) != NotificationId(now2, s2)
  {
    if NotificationId(now1, s1) == NotificationId(now2, s2) {
      StampNumberInjective("notif-", now1, s1, now2, s2);
    }
  }
}
