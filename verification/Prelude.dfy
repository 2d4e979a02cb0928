/** Vocabulary shared by every component: optional values, results, bytes. */
module Prelude {

  datatype Option<+T> = None | Some(value: T)

  datatype Result<+T, +E> = Success(value: T) | Failure(error: E)

  type byte = x: int | 0 <= x < 0x100

  type Bytes = seq<byte>

  /** A SHA-256 sized value: a digest or a message authentication code. */
  type Digest = b: Bytes | |b| == 32 witness seq(32, _ => 0)

  function Min(a: int, b: int): int {
    if a < b then a else b
  }

  function Max(a: int, b: int): int {
    if a < b then b else a
  }
}
