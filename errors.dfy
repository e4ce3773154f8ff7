/** The codec's error kinds (src/errors.rs). */
module Errors {

  /**
   * `Checksum` is part of the public type but no parser ever returns it:
   * every framing failure is reported as `InvalidPacket`.
   */
  datatype Error = InvalidValue | Checksum | InvalidPacket
}
