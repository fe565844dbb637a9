/** Machine types and small wrappers shared by the Rust and the Go side of the bridge. */
module Common {

  /** An unsigned byte (`u8` in Rust, `byte` in Go). */
  type byte = x: int | 0 <= x < 0x100

  /** Number of distinct 64-bit unsigned values. */
  const U64_MODULUS: int := 0x1_0000_0000_0000_0000

  /** An unsigned 64-bit integer (`u64`, `c_ulonglong`, Go `uint64`). */
  type u64 = x: int | 0 <= x < U64_MODULUS

  /** Number of distinct 32-bit unsigned values. */
  const U32_MODULUS: int := 0x1_0000_0000

  /** An unsigned 32-bit integer. */
  type u32 = x: int | 0 <= x < U32_MODULUS

  /** A nullable value: `None` stands for a null pointer or an absent entry. */
  datatype Option<+T> = None | Some(value: T)

  /**
   * The result of code that can abort with a panic (`expect` on a failed
   * `Result` or `Option`); the message is the one given to `expect`. A panic
   * inside a spawned task ends only that task; a panic in an exported entry
   * point cannot unwind into the foreign caller and ends the process.
   */
  datatype Outcome<+T> = Done(value: T) | Panic(message: string)
}
