/** An optional value, used for the Kotlin nullable types of the model. */
module Optional {
  datatype Option<+T> = None | Some(value: T)
}
