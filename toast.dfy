/** The notification state the contribution form and the admin panel keep for their toast. */
module Toasts {

  datatype ToastKind = InfoToast | SuccessToast | WarningToast | ErrorToast

  datatype Toast = Toast(visible: bool, message: string, kind: ToastKind)

  /** The initial state: `{ isVisible: false, message: '', type: 'info' }`. */
  const HiddenToast: Toast := Toast(false, "", InfoToast)

  /** `showToast(message, type)`. */
  function Shown(message: string, kind: ToastKind): (t: Toast)
    ensures t.visible && t.message == message && t.kind == kind
  {
    Toast(true, message, kind)
  }

  /** `hideToast`: the message and kind stay, only visibility goes. */
  function Hidden(t: Toast): (h: Toast)
    ensures !h.visible && h.message == t.message && h.kind == t.kind
  {
    t.(visible := false)
  }
}
