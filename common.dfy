/** Small value wrappers shared by every module of the model. */
module Common {

  /** A value that may be absent: JavaScript's `T | null` / `T | undefined`. */
  datatype Option<+T> = None | Some(value: T)

  /** What a store finds under its storage key when it loads: nothing (or an
      empty, falsy string), text that does not parse, or a parsed value. */
  datatype Stored<+T> = Absent | Unparsable | Parsed(value: T)
}
