/** Shared vocabulary: an optional value and the path type. */
module Common {

  datatype Option<T> = None | Some(value: T)

  /** A file-system path, spelled as the program spells it. */
  type Path = string
}
