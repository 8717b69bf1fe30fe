/** The alerts the screens raise, and the truthiness test they apply to a held challenge id. */
module Notices {
  import opened Outcomes
  import opened Api

  /**
   * `Alert.alert(title, message)`. ErrorAlert is the "Erro" alert raised for a rejected
   * call: its text is the error's own message, or `fallback` when that message is empty.
   */
  datatype Notice =
    | Alert(title: string, message: string)
    | ErrorAlert(error: Failure, fallback: string)

  /** `if (!id) return;`: an id is held when it is present and non-empty. */
  predicate Held(id: Option<string>) {
    id.Some? && id.value != ""
  }
}
