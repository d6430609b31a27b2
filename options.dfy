/** A nullable value: the quiz's answer slots hold either `null` or a number. */
module Options {

  datatype Option<+T> = None | Some(value: T)

}
