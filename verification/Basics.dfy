module Basics {
  datatype Option<+T> = None | Some(value: T)

  type Byte = bv8

  /** The `state` column of the files table. */
  datatype FileState = Clean | Dirty | Syncing | Downloading | Conflict | DeletedLocal | DeletedRemote | Evicted
}
