/** Small shared vocabulary: optional values, non-empty names and a few facts about sequences. */
module Basics {

  datatype Option<+T> = None | Some(value: T)

  /** Tenants and actors: the ledger refuses empty ones (`z.string().min(1)`). */
  type Name = s: string | s != "" witness "x"

  function First<T>(n: nat, s: seq<T>): seq<T> {
    if |s| <= n then s else s[..n]
  }
}
