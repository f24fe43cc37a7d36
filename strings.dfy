/** String helpers shared by the admin handlers. */
module Strings {
  /** `parts.join(sep)` with a one-character separator: the empty list joins to "". */
  function Join(parts: seq<string>, sep: char): string
  {
    if |parts| == 0 then ""
    else if |parts| == 1 then parts[0]
    else parts[0] + [sep] + Join(parts[1..], sep)
  }
}
