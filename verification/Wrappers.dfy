/** The usual optional value, and maps of lists in which an absent key has the empty list. */
module Wrappers {
  datatype Option<+T> = None | Some(value: T)

  function Lookup<T>(lists: map<string, seq<T>>, k: string): seq<T> {
    if k in lists then lists[k] else []
  }
}
