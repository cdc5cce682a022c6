/** The host toolkit's vocabulary, reduced to tags: toast notifications, colours and icons. */
module Ui {
  import opened JsValues

  datatype ToastStyle = Success | Failure

  /** A transient notification; `message` is Undefined when the caller gives none. */
  datatype Toast = Toast(style: ToastStyle, title: string, message: Js)

  datatype Color = Yellow | SecondaryText | Green

  datatype IconSource = Clock | CircleDisabled | CheckCircle

  /** An icon with its tint colour. */
  datatype TintedIcon = TintedIcon(source: IconSource, tintColor: Color)
}
