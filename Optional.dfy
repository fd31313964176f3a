/** A nullable, non-owning reference, as the client's raw pointers are used. */
module Optional {

  datatype Option<T> = None | Some(value: T)
}
