/** The toast notification the pages raise after a submit. */
module Toasts {

  /** A toast: its title, its description and whether it is shown as
      destructive (an error). */
  datatype Toast = Toast(title: string, description: string, destructive: bool)
}
