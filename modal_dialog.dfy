/**
 * The two flags every add/edit modal of the frontend keeps, and the
 * `closeModal` rule they share: a close request is ignored while a save is
 * in flight; otherwise the closing animation starts.
 */
module ModalDialog {

  datatype ModalFlags = ModalFlags(isSubmitting: bool, isClosing: bool)

  /** `closeModal`. */
  function CloseModal(m: ModalFlags): (r: ModalFlags)
    ensures m.isSubmitting ==> r == m
    ensures !m.isSubmitting ==> r == ModalFlags(false, true)
  {
    if m.isSubmitting then m else m.(isClosing := true)
  }

  /** Closing after the save has been marked as finished always starts the animation. */
  function FinishThenClose(m: ModalFlags): (r: ModalFlags)
    ensures r == ModalFlags(false, true)
  {
    CloseModal(m.(isSubmitting := false))
  }
}
