/** path/filepath.Join, kept simple: path cleaning (".", "..", doubled separators) is not modelled. */
module Paths {

  /** Two path elements joined by '/', an empty element being dropped. */
  function Join(a: string, b: string): string {
    if a == "" then b
    else if b == "" then a
    else a + "/" + b
  }
}
