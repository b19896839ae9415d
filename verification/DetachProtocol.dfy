/** What the detach controller and its helper exchange: addresses, stopped threads and instructions. */
module DetachProtocol {
  const SPACE: nat := 0x1_0000_0000_0000_0000
  const MAX_INSTRUCTIONS: nat := 4160
  const MAX_PATCH_BYTES: nat := 32
  const MAX_PROLOGUE: nat := 32

  type Address = x: int | 0 <= x < SPACE
  type Byte = x: int | 0 <= x < 256

  /** A stopped thread as the backend reports it. */
  datatype ThreadSnapshot = ThreadSnapshot(tid: int, ok: bool, pc: Address)

  datatype Instruction =
    | SetPc(tid: int, pc: Address)
    | StepOut(tid: int, address: Address, size: nat)
    | Write(address: Address, bytes: seq<Byte>)

  datatype Status = Safe | ClassifyFailed | Error | Unsupported

  datatype Result<T> = Ok(value: T) | Err(status: Status)

  /** Address arithmetic wraps at the end of the address space. */
  function End(start: Address, size: nat): Address { (start + size) % SPACE }

  /** Past the first byte and before the end of a range. */
  predicate StrictlyInside(pc: Address, start: Address, size: nat) { start < pc < start + size }

  /** Memory with the bytes in place from the address on. */
  function Patched(memory: seq<Byte>, address: nat, bytes: seq<Byte>): (m: seq<Byte>)
    requires address + |bytes| <= |memory|
    ensures |m| == |memory|
    ensures forall x :: 0 <= x < |m| ==> m[x] == if address <= x < address + |bytes| then bytes[x - address] else memory[x]
  {
    memory[..address] + bytes + memory[address + |bytes|..]
  }
}
