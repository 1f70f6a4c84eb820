/** The I2C bus, seen from the program: a handle that records every operation issued on it
    and answers each from an environment the program does not control. */
module Bus {

  type byte = x: int | 0 <= x < 256

  /** The three kinds of bus transaction the program issues. */
  datatype Op =
    | WriteByte(addr: int, value: int)                  // write_byte
    | WriteByteData(addr: int, reg: int, value: int)    // write_byte_data
    | ReadBlock(addr: int, reg: int, length: int)       // read_i2c_block_data

  /** What a transaction yields: the bytes returned (empty for a write), or an OSError. */
  datatype Reply = Done(data: seq<byte>) | OSError

  class SMBus {
    /** Every operation issued so far, oldest first. */
    var trace: seq<Op>
    /** The environment: the reply to the k-th operation issued on this bus is respond(k). */
    const respond: nat -> Reply

    constructor (respond: nat -> Reply)
      ensures trace == [] && this.respond == respond
    {
      trace := [];
      this.respond := respond;
    }

    /** Issue one transaction; the reply comes from the environment. */
    method Issue(op: Op) returns (r: Reply)
      modifies this
      ensures trace == old(trace) + [op]
      ensures r == respond(|old(trace)|)
    {
      r := respond(|trace|);
      trace := trace + [op];
    }
  }
}
