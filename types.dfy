/**
 * The message types the chat front end shares between its components:
 * who spoke a turn, and the turn itself.
 */
module Types {

  /** The speaker of a turn. */
  datatype Role = USER | MODEL

  /** One turn of the conversation, as the message list displays it. */
  datatype Msg = Msg(role: Role, text: string)

  /** At most one value: what a form submission forwards. */
  datatype Option<T> = None | Some(value: T)
}
