/** Outcomes of the REST calls the components await. The calls themselves are not
    modelled: a handler receives the outcome the server produced as a parameter. */
module Remote {

  /** What an awaited request delivers: the decoded body, or the message of the
      error that the component's `catch` block receives. */
  datatype Response<+T> = Ok(value: T) | Failed(message: string)

  datatype Option<+T> = None | Some(value: T)
}
