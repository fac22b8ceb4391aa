/** Small value types shared by every module of the model. */
module Common {

  datatype Option<+T> = None | Some(value: T)

  /** An engine name (FName): either NAME_None or a non-None name. */
  datatype FName = NameNone | Named(text: string) {
    predicate IsNone() { NameNone? }
  }
}
