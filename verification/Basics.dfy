// Shared vocabulary: optional values and the identities the protocol hands out.
module Basics {

  datatype Option<+T> = None | Some(value: T)

  type Name = string

  // A driver configuration as far as the protocol reads it: which builder
  // opens it and how many Runs its throttle admits at once.
  datatype Config = Config(driver: string, limit: int)

  // A directoryEntry is compared by pointer identity in the source.
  type EntryId = nat

  // One client returned by a successful driver Open.
  type ClientId = nat

  // One call into the store, made by one goroutine.
  type CallId = nat
}
