/** Small types shared by every module. */
module Prelude {

  datatype Option<+T> = None | Some(value: T)

  newtype byte = x: int | 0 <= x < 256

  /** A Go map read: a missing key yields the zero value. */
  function Lookup(m: map<string, string>, key: string): string {
    if key in m then m[key] else ""
  }

  function Concat<T>(parts: seq<seq<T>>): seq<T> {
    if parts == [] then [] else parts[0] + Concat(parts[1..])
  }
}
