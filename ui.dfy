/** What the pages hand to the toast and navigation hooks, reduced to the decision
    they make. */
module Ui {

  /** `toast({ title, description, variant })`; `destructive` is the error variant. */
  datatype Toast = Toast(title: string, description: string, destructive: bool)

  function ErrorToast(description: string): (t: Toast)
    ensures t.title == "Error" && t.description == description && t.destructive
  {
    Toast("Error", description, true)
  }

  /** What a form does once the call it submits has settled: move to another page
      with a toast, or stay and show a toast. */
  datatype SubmitOutcome = NavigateTo(path: string, toast: Toast) | Stay(toast: Toast)
}
