/** An optional value: stands for a Java reference that may be null, or for a
    call that ends in an exception which the caller catches. */
module Optional {

  datatype Option<+T> = None | Some(value: T)
}
