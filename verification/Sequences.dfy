/** Sequence functions that several models share. */
module Sequences {
  // How many elements to drop from the front so that at most n are left.
  function Excess<T>(s: seq<T>, n: nat): (k: nat)
    ensures k <= |s|
  {
    if |s| <= n then 0 else |s| - n
  }

  function Flatten<T>(parts: seq<seq<T>>): seq<T>
    decreases |parts|
  {
    if parts == [] then [] else Flatten(parts[..|parts| - 1]) + parts[|parts| - 1]
  }
}
