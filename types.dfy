/** Shared value types of the session layer and the splash screen. */
module Types {

  /** An optional value: `null`/`undefined` in the source become `None`. */
  datatype Option<+T> = None | Some(value: T)

  /** The game's locale codes, `'en'` and `'de'`. */
  datatype Language = En | De
}
