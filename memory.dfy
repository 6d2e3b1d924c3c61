/**
 * The 64 KB memory of the CPU (src/cpu/memory.rs): a fixed array of 0x10000
 * bytes, read and written at 16-bit addresses.  Every u16 is an index of
 * the array, so neither operation can fail.
 */
module MemoryUnit {
  import opened Binary
  import opened Utils

  const Size := 0x10000

  class Memory {
    const data: array<u8>

    ghost predicate Valid()
      reads this
    {
      data.Length == Size
    }

    /** new: 0x10000 bytes, all zero. */
    constructor ()
      ensures Valid() && fresh(data)
      ensures forall a :: 0 <= a < Size ==> data[a] == 0
    {
      data := new u8[Size](_ => 0);
    }

    /** read: the byte at addr; it changes nothing. */
    function Read(addr: u16): u8
      requires Valid()
      reads this, data
    {
      data[addr as int]
    }

    /** write: the byte at addr becomes value and every other byte stays. */
    method Write(addr: u16, value: u8)
      requires Valid()
      modifies data
      ensures Valid()
      ensures data[..] == Stored(old(data[..]), addr, value)
    {
      var index := addr as int;
      data[index] := value;
    }
  }

  /** The contents of a memory after value is stored at addr. */
  function Stored(contents: seq<u8>, addr: u16, value: u8): seq<u8>
    requires |contents| == Size
  {
    contents[addr as int := value]
  }

  /** The byte at a 16-bit address of a memory's contents. */
  function At(contents: seq<u8>, addr: u16): u8
    requires |contents| == Size
  {
    contents[addr as int]
  }

  /**
   * A store is read back at its own address and leaves every other 16-bit
   * address as it was, and it keeps the memory's size.
   */
  lemma StoredReadsBack(contents: seq<u8>, addr: u16, value: u8)
    requires |contents| == Size
    ensures |Stored(contents, addr, value)| == Size
    ensures At(Stored(contents, addr, value), addr) == value
    ensures forall a: u16 :: a != addr ==> At(Stored(contents, addr, value), a) == At(contents, a)
  {
    forall a: u16 | a != addr
      ensures At(Stored(contents, addr, value), a) == At(contents, a)
    {
      WordInjective(a, addr);
    }
  }

  /** The 16-bit address with the number i, `i as u16`. */
  function Address(i: int): (addr: u16)
    requires 0 <= i < Size
    ensures addr as int == i
  {
    IntToByte(i / 256);
    IntToByte(i % 256);
    CombinedValue((i / 256) as u8, (i % 256) as u8);
    CombineValues((i / 256) as u8, (i % 256) as u8)
  }

  /** Writes values[k] at address k, for every address in turn. */
  method WriteEveryAddress(memory: Memory, values: seq<u8>)
    requires memory.Valid() && |values| == Size
    modifies memory.data
    ensures memory.data[..] == values
  {
    for i := 0 to Size
      invariant forall k :: 0 <= k < i ==> memory.data[k] == values[k]
    {
      memory.Write(Address(i), values[i]);
    }
  }

  /** Reads every address in turn; the memory does not change. */
  method ReadEveryAddress(memory: Memory) returns (readBack: seq<u8>)
    requires memory.Valid()
    ensures readBack == memory.data[..]
  {
    readBack := [];
    for i := 0 to Size
      invariant |readBack| == i
      invariant forall k :: 0 <= k < i ==> readBack[k] == memory.data[k]
    {
      readBack := readBack + [memory.Read(Address(i))];
    }
  }

  /**
   * The memory test as a client: writes values[a] at every address a of a
   * new memory, then reads every address back.
   */
  method ReadWriteEveryAddress(values: seq<u8>) returns (readBack: seq<u8>)
    requires |values| == Size
    ensures readBack == values
  {
    var memory := new Memory();
    WriteEveryAddress(memory, values);
    readBack := ReadEveryAddress(memory);
  }

  /** A new memory reads zero at every address. */
  method FreshMemoryIsZero(addr: u16) returns (v: u8)
    ensures v == 0
  {
    var memory := new Memory();
    v := memory.Read(addr);
  }
}
