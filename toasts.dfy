/** The transient notices the screens show after an operation. */
module Toasts {

  datatype Toast = Toast(title: string, description: string, destructive: bool)

  /** `toast({ title: "Error", description, variant: "destructive" })` */
  function ErrorToast(description: string): Toast {
    Toast("Error", description, true)
  }

  /** `toast({ title: "Success", description })` */
  function SuccessToast(description: string): Toast {
    Toast("Success", description, false)
  }
}
