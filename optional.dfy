/** Optional values: the model's replacement for Java's null references. */
module Optional {
  datatype Option<T> = None | Some(value: T)
}
