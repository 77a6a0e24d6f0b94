/** The optional values the widget keeps (Swift's `T?`). */
module Optional {

  datatype Option<+T> = None | Some(value: T)
}
