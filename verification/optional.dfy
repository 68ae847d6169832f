/** The conventional Some/None datatype, used for values that may be absent:
    a request field that was not sent, a model reference that is not yet
    assigned, a draw sequence that ran out. */
module Optional {

  datatype Option<+T> = None | Some(value: T)
}
