/** What a page handler shows the user, recorded as labels: the toast it
    raises and the route it navigates to. */
module Ui {
  import opened Wrappers

  datatype Toast = ToastSuccess(message: string) | ToastError(message: string)

  datatype Feedback = Feedback(toast: Option<Toast>, navigateTo: Option<string>)

  const Silent := Feedback(None, None)

  function ErrorOnly(message: string): Feedback {
    Feedback(Some(ToastError(message)), None)
  }

  function SuccessTo(message: string, route: string): Feedback {
    Feedback(Some(ToastSuccess(message)), Some(route))
  }
}
