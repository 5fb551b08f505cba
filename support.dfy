/** Small value types shared by every module of the bot model. */
module Support {

  /** A Go pointer that may be nil: `*string`, `*User`, `*Message`. */
  datatype Option<+T> = None | Some(value: T)

  /** A Go `(value, error)` pair: exactly one of the two is meaningful. */
  datatype Result<+T> = Ok(value: T) | Err(error: string)

  newtype Byte = x: int | 0 <= x < 256

  /** A Go `[]byte`; nil and empty are not distinguished. */
  type Bytes = seq<Byte>

  /** Go's `strings.HasPrefix`. */
  predicate HasPrefix(s: string, prefix: string) {
    |prefix| <= |s| && s[..|prefix|] == prefix
  }

  /** Go's `strings.HasSuffix`. */
  predicate HasSuffix(s: string, suffix: string) {
    |suffix| <= |s| && s[|s| - |suffix|..] == suffix
  }
}
