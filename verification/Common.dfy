/** What several components share. */
module Common {

  datatype Option<+T> = None | Some(value: T)

  type byte = bv8

  function Max(a: int, b: int): int { if a < b then b else a }
}
