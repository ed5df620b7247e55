/** Notices shown to the user by the forms (react-hot-toast). */
module Notices {
  datatype Notice = ErrorToast(text: string) | SuccessToast(text: string)
}
