/** What every iterator can answer instead of an entry. */
module Iterators {

  /** The end of the stream, or another error. */
  datatype Err = AtEnd | Broken(n: nat)
}
