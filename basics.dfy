/** Small shared vocabulary: Rust's Option and the fixed-width unsigned integers the GUI carries. */
module Basics {

  /** Rust's Option<T>. */
  datatype Option<+T> = None | Some(value: T)

  /** u16, u32 and u64: the model only carries these values, it never does arithmetic that could wrap. */
  type U16 = n: nat | n < 0x1_0000
  type U32 = n: nat | n < 0x1_0000_0000
  type U64 = n: nat | n < 0x1_0000_0000_0000_0000

  /** The sub-second part of a std::time::Duration. */
  type Nanos = n: nat | n < 1_000_000_000
}
