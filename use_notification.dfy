/**
 * The notification hook's helpers: each one builds the input it hands to
 * `addNotification`, fixing the severity and, for the timed ones, how long
 * the toast stays up.
 */
module UseNotification {
  import opened Wrappers
  import opened Notifications

  /** The notification `input` produces whatever id it is given. */
  ghost predicate Produces(input: NotificationInput, kind: Severity, message: string, autoHide: bool, duration: int) {
    forall id: int :: WithDefaults(id, input) == Notification(id, kind, Some(message), autoHide, duration)
  }

  /** `showSuccess`: a success toast hiding after 4 seconds. */
  function ShowSuccess(message: string): (input: NotificationInput)
    ensures Produces(input, Success, message, true, 4000)
  {
    NotificationInput(Some(Success), Some(message), None, Some(4000))
  }

  /** `showError`: an error toast hiding after 6 seconds. */
  function ShowError(message: string): (input: NotificationInput)
    ensures Produces(input, Error, message, true, 6000)
  {
    NotificationInput(Some(Error), Some(message), None, Some(6000))
  }

  /** `showWarning`: a warning toast hiding after 5 seconds. */
  function ShowWarning(message: string): (input: NotificationInput)
    ensures Produces(input, Warning, message, true, 5000)
  {
    NotificationInput(Some(Warning), Some(message), None, Some(5000))
  }

  /** `showInfo`: an info toast hiding after 4 seconds. */
  function ShowInfo(message: string): (input: NotificationInput)
    ensures Produces(input, Info, message, true, 4000)
  {
    NotificationInput(Some(Info), Some(message), None, Some(4000))
  }

  /**
   * `showPersistent`: a toast that stays until dismissed; `kind` is the
   * optional second argument, info when omitted.
   */
  function ShowPersistent(message: string, kind: Option<Severity>): (input: NotificationInput)
    ensures Produces(input, kind.GetOr(Info), message, false, DefaultDuration)
  {
    NotificationInput(Some(kind.GetOr(Info)), Some(message), Some(false), None)
  }

  /** Errors stay up longest, then warnings, then success and info toasts. */
  lemma ErrorsOutlastOthers(message: string, id: int)
    ensures WithDefaults(id, ShowError(message)).duration > WithDefaults(id, ShowWarning(message)).duration
    ensures WithDefaults(id, ShowWarning(message)).duration > WithDefaults(id, ShowSuccess(message)).duration
    ensures WithDefaults(id, ShowSuccess(message)).duration == WithDefaults(id, ShowInfo(message)).duration
  {
  }

  /** Only a persistent toast is added without a removal timer. */
  lemma OnlyPersistentHasNoTimer(message: string, id: int, kind: Option<Severity>)
    ensures WithDefaults(id, ShowSuccess(message)).autoHide && WithDefaults(id, ShowError(message)).autoHide
    ensures WithDefaults(id, ShowWarning(message)).autoHide && WithDefaults(id, ShowInfo(message)).autoHide
    ensures !WithDefaults(id, ShowPersistent(message, kind)).autoHide
  {
  }
}
