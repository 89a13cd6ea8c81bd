/**
 * The confirmation dialog (`admin/components/ConfirmationModal.tsx`): which
 * callback each user event triggers, and the document-level Escape listener
 * that its effect registers while the dialog is open.
 */
module ConfirmationModal {
  import opened Wrappers

  const DefaultConfirmLabel := "Confirm"
  const DefaultCancelLabel := "Cancel"
  const EscapeKey := "Escape"

  /** What the user can do to the dialog. */
  datatype Event =
    | CloseButtonClick            // the X button
    | CancelClick
    | ConfirmClick
    | KeyDown(key: string)        // a key pressed anywhere in the document
    | BackdropClick(targetIsDialog: bool)

  /** The callback an event ends in. */
  datatype Callback = OnClose | OnConfirm | NoCallback

  /**
   * The dispatch: only the confirm button confirms; the X and cancel buttons
   * close; Escape closes only while the listener is registered; a backdrop
   * click closes only when its target is the dialog element itself.
   */
  function Response(ev: Event, escapeListening: bool): (cb: Callback)
    ensures cb == OnConfirm <==> ev == ConfirmClick
    ensures cb == OnClose <==>
      ev == CloseButtonClick || ev == CancelClick
      || (ev == KeyDown(EscapeKey) && escapeListening)
      || (ev.BackdropClick? && ev.targetIsDialog)
  {
    match ev
    case CloseButtonClick => OnClose
    case CancelClick => OnClose
    case ConfirmClick => OnConfirm
    case KeyDown(key) => if escapeListening && key == EscapeKey then OnClose else NoCallback
    case BackdropClick(targetIsDialog) => if targetIsDialog then OnClose else NoCallback
  }

  /** One mounted dialog. */
  class ConfirmationModal {
    var isOpen: bool
    /** Whether the effect's `keydown` handler is currently registered on the document. */
    var escapeListening: bool
    const confirmLabel: string
    const cancelLabel: string

    /** After every effect run the listener is registered exactly while the dialog is open. */
    ghost predicate Valid()
      reads this
    {
      escapeListening == isOpen
    }

    /** Mounting: an omitted label takes its default, and the first effect run registers the listener iff open. */
    constructor (isOpen: bool, confirmLabel: Option<string>, cancelLabel: Option<string>)
      ensures Valid() && this.isOpen == isOpen
      ensures this.confirmLabel == confirmLabel.GetOr(DefaultConfirmLabel)
      ensures this.cancelLabel == cancelLabel.GetOr(DefaultCancelLabel)
    {
      this.isOpen := isOpen;
      this.confirmLabel := confirmLabel.GetOr(DefaultConfirmLabel);
      this.cancelLabel := cancelLabel.GetOr(DefaultCancelLabel);
      escapeListening := isOpen;
    }

    /** A new `isOpen` prop: the old run's cleanup removes the listener, the new run adds it back only if open. */
    method SetIsOpen(open: bool)
      modifies this`isOpen, this`escapeListening
      ensures Valid() && isOpen == open && escapeListening == open
    {
      // cleanup of the previous effect run
      escapeListening := false;
      isOpen := open;
      if open {
        escapeListening := true;
      }
    }

    /** Unmounting runs the last cleanup: no listener is left behind. */
    method Unmount()
      modifies this`escapeListening
      ensures !escapeListening
    {
      escapeListening := false;
    }

    /** Deliver one event; nothing in the dialog's own state changes. */
    method Handle(ev: Event) returns (cb: Callback)
      ensures cb == Response(ev, escapeListening)
    {
      cb := Response(ev, escapeListening);
    }
  }
}
