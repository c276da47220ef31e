/** Small shared vocabulary: an optional value stands for a Java reference that may be null. */
module Common {

  datatype Option<+T> = None | Some(value: T)
}
