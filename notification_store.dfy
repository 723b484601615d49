/**
 * The notification store: a list of toasts. Adding one fills in the
 * defaults, appends it and, when it hides itself, schedules its removal;
 * removing drops every notification with the given id.
 */
module Notifications {
  import opened Wrappers
  import opened Seqs

  datatype Severity = Success | Error | Warning | Info

  /**
   * A shown notification. `id` is the number `Date.now() + Math.random()`
   * gave when it was added; the model receives it as a parameter.
   */
  datatype Notification = Notification(id: int, kind: Severity, message: Option<string>, autoHide: bool, duration: int)

  /** The object handed to `addNotification`: `None` where the key is absent. */
  datatype NotificationInput = NotificationInput(kind: Option<Severity>, message: Option<string>, autoHide: Option<bool>, duration: Option<int>)

  const DefaultDuration: int := 4000

  /** The defaults (info, hiding itself after 4000 ms) overridden by the keys the input carries. */
  function WithDefaults(id: int, input: NotificationInput): (n: Notification)
    ensures n.id == id && n.message == input.message
    ensures n.kind == (if input.kind.Some? then input.kind.value else Info)
    ensures n.autoHide == (input.autoHide.None? || input.autoHide.value)
    ensures n.duration == (if input.duration.Some? then input.duration.value else DefaultDuration)
  {
    Notification(id, input.kind.GetOr(Info), input.message, input.autoHide.GetOr(true), input.duration.GetOr(DefaultDuration))
  }

  /** The removal a self-hiding notification schedules: `id` is removed after `delay` ms. */
  datatype Timer = Timer(id: int, delay: int)

  function NotId(id: int): Notification -> bool {
    (n: Notification) => n.id != id
  }

  /** `notifications.filter((n) => n.id !== id)`. */
  function Without(ns: seq<Notification>, id: int): (r: seq<Notification>)
    ensures forall i :: 0 <= i < |r| ==> r[i].id != id && r[i] in ns
    ensures forall i :: 0 <= i < |ns| && ns[i].id != id ==> ns[i] in r
    ensures forall n :: multiset(r)[n] == if n.id != id then multiset(ns)[n] else 0
  {
    FilterMultiset(NotId(id), ns);
    Filter(NotId(id), ns)
  }

  predicate HasId(ns: seq<Notification>, id: int) {
    exists i :: 0 <= i < |ns| && ns[i].id == id
  }

  /** Removal keeps the other notifications in their order. */
  lemma WithoutKeepsOrder(ns: seq<Notification>, id: int)
    ensures IsSubsequence(Without(ns, id), ns)
  {
    FilterIsSubsequence(NotId(id), ns);
  }

  /** Removing an id that is not shown changes nothing. */
  lemma WithoutAbsent(ns: seq<Notification>, id: int)
    requires !HasId(ns, id)
    ensures Without(ns, id) == ns
  {
    FilterKeepsAll(NotId(id), ns);
  }

  /** Removing the same id twice is removing it once. */
  lemma WithoutIdempotent(ns: seq<Notification>, id: int)
    ensures Without(Without(ns, id), id) == Without(ns, id)
  {
    WithoutAbsent(Without(ns, id), id);
  }

  /**
   * Adding a notification under an id no shown notification has, then
   * removing that id (as its timer does), gives back the list as it was.
   */
  lemma AddThenRemove(ns: seq<Notification>, id: int, input: NotificationInput)
    requires !HasId(ns, id)
    ensures Without(ns + [WithDefaults(id, input)], id) == ns
  {
    FilterAppend(NotId(id), ns, [WithDefaults(id, input)]);
    WithoutAbsent(ns, id);
    assert Filter(NotId(id), [WithDefaults(id, input)]) == [];
  }

  class NotificationStore {
    var notifications: seq<Notification>

    constructor ()
      ensures notifications == []
    {
      notifications := [];
    }

    /**
     * `addNotification`: appends the notification built from `input` under
     * `id` and returns `id`, with the removal timer it schedules when the
     * notification hides itself.
     */
    method Add(id: int, input: NotificationInput) returns (newId: int, timer: Option<Timer>)
      modifies this
      ensures notifications == old(notifications) + [WithDefaults(id, input)]
      ensures newId == id
      ensures timer.Some? <==> WithDefaults(id, input).autoHide
      ensures timer.Some? ==> timer.value == Timer(id, WithDefaults(id, input).duration)
    {
      var notification := WithDefaults(id, input);
      notifications := notifications + [notification];
      timer := if notification.autoHide then Some(Timer(id, notification.duration)) else None;
      newId := id;
    }

    /** `removeNotification`: every notification with this id leaves the list. */
    method Remove(id: int)
      modifies this
      ensures notifications == Without(old(notifications), id)
      ensures !HasId(notifications, id)
    {
      notifications := Without(notifications, id);
    }

    /** A timer going off removes the notification it was scheduled for. */
    method Fire(timer: Timer)
      modifies this
      ensures notifications == Without(old(notifications), timer.id)
    {
      Remove(timer.id);
    }

    method ClearAll()
      modifies this
      ensures notifications == []
    {
      notifications := [];
    }
  }
}
