/** What several modules share. */
module Common {

  datatype Option<+T> = None | Some(value: T)

  const MAX_SAFE_INTEGER := 9007199254740991
}
