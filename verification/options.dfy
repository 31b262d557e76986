/** The optional value used wherever the web layer may or may not supply something:
    a query parameter, a stored report file, a lookup result. */
module Options {

  datatype Option<+T> = None | Some(value: T)

}
