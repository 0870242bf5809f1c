/** Small shared datatypes: an optional value (JavaScript's `null`/`undefined`
    versus a present value) and the toast notifications the pages raise. */
module Wrappers {

  datatype Option<+T> = None | Some(value: T)

  /** A notification shown by the `react-toastify` container. */
  datatype Toast = SuccessToast(text: string) | ErrorToast(text: string) | InfoToast(text: string)
}
