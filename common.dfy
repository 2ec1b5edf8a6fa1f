/** Vocabulary shared by every component: optional values and the two language modes. */
module Common {

  datatype Option<+T> = None | Some(value: T)

  /** The app's two modes, `"nepali" | "english"`. */
  datatype Language = Nepali | English
}
