/** Values that may be absent, used for lookups that can fail. */
module Wrappers {
  datatype Option<+T> = None | Some(value: T)
}

/** What memory and cache have in common: 32-bit words, and the identity of a page. */
module Words {
  // Addresses are 32 bits wide.
  const WORD: nat := 0x1_0000_0000

  datatype Key = Key(obj: nat, page: nat)
}
