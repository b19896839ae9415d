/**
 * The helper's word-at-a-time access to tracee memory: ptrace reads and writes whole aligned words, so
 * a range that starts or ends inside a word is spliced into the words around it.
 */
module PtraceWords {
  import opened DetachProtocol

  const WORD: nat := 8

  /** A word with some of its bytes replaced. */
  function Spliced(word: seq<Byte>, offset: nat, part: seq<Byte>): (w: seq<Byte>)
    requires offset + |part| <= |word|
    ensures |w| == |word|
  {
    word[..offset] + part + word[offset + |part|..]
  }

  /** Writing back a spliced word changes the spliced bytes only. */
  lemma SpliceIsPatch(memory: seq<Byte>, aligned: nat, offset: nat, part: seq<Byte>)
    requires aligned + WORD <= |memory| && offset + |part| <= WORD
    ensures Patched(memory, aligned, Spliced(memory[aligned..aligned + WORD], offset, part)) == Patched(memory, aligned + offset, part)
  {
    var word := Spliced(memory[aligned..aligned + WORD], offset, part);
    var whole, bytes := Patched(memory, aligned, word), Patched(memory, aligned + offset, part);
    forall x | 0 <= x < |memory| ensures whole[x] == bytes[x] {
      if aligned <= x < aligned + WORD {
        SplicedAt(memory[aligned..aligned + WORD], offset, part, x - aligned);
      }
    }
  }

  lemma SplicedAt(word: seq<Byte>, offset: nat, part: seq<Byte>, k: nat)
    requires offset + |part| <= |word| && k < |word|
    ensures Spliced(word, offset, part)[k] == if offset <= k < offset + |part| then part[k - offset] else word[k]
  {
  }

  /** A part of a word is that part of memory. */
  lemma PartOfWord(memory: seq<Byte>, aligned: nat, offset: nat, size: nat)
    requires aligned + WORD <= |memory| && offset + size <= WORD
    ensures memory[aligned..aligned + WORD][offset..offset + size] == memory[aligned + offset..aligned + offset + size]
  {
    var part, same := memory[aligned..aligned + WORD][offset..offset + size], memory[aligned + offset..aligned + offset + size];
    forall k | 0 <= k < size ensures part[k] == same[k] {
      assert part[k] == memory[aligned..aligned + WORD][offset + k] == memory[aligned + (offset + k)];
    }
  }

  lemma SlicesJoin(memory: seq<Byte>, address: nat, cursor: nat, size: nat)
    requires address <= cursor && cursor + size <= |memory|
    ensures memory[address..cursor] + memory[cursor..cursor + size] == memory[address..cursor + size]
  {
  }

  /** Two adjoining updates are one. */
  lemma PatchesJoin(memory: seq<Byte>, address: nat, first: seq<Byte>, second: seq<Byte>)
    requires address + |first| + |second| <= |memory|
    ensures Patched(Patched(memory, address, first), address + |first|, second) == Patched(memory, address, first + second)
  {
    var twice, once := Patched(Patched(memory, address, first), address + |first|, second), Patched(memory, address, first + second);
    forall x | 0 <= x < |memory| ensures twice[x] == once[x] {
    }
  }

  lemma PatchNothing(memory: seq<Byte>, address: nat)
    requires address <= |memory|
    ensures Patched(memory, address, []) == memory
  {
  }

  function Aligned(cursor: nat): nat { cursor - cursor % WORD }

  /** How much of a range that runs to `end` the word at the cursor takes. */
  function Chunk(cursor: nat, end: nat): nat
    requires cursor <= end
  {
    var room := WORD - (cursor - Aligned(cursor));
    if room > end - cursor then end - cursor else room
  }

  lemma ChunkFits(cursor: nat, end: nat, size: nat)
    requires cursor < end <= size && size % WORD == 0
    ensures Aligned(cursor) + WORD <= size && 0 < Chunk(cursor, end) && cursor + Chunk(cursor, end) <= end
    ensures cursor - Aligned(cursor) + Chunk(cursor, end) <= WORD
  {
    var word, words := cursor / WORD, size / WORD;
    assert cursor == WORD * word + cursor % WORD && size == WORD * words;
    assert word < words;
  }

  lemma NextPart(memory: seq<Byte>, address: nat, bytes: seq<Byte>, done: nat, chunk: nat)
    requires address + |bytes| <= |memory| && done + chunk <= |bytes|
    ensures Patched(Patched(memory, address, bytes[..done]), address + done, bytes[done..done + chunk]) == Patched(memory, address, bytes[..done + chunk])
  {
    PatchesJoin(memory, address, bytes[..done], bytes[done..done + chunk]);
    assert bytes[..done] + bytes[done..done + chunk] == bytes[..done + chunk];
  }

  predicate IsPartial(memory: seq<Byte>, memory': seq<Byte>, address: nat, bytes: seq<Byte>)
    requires address + |bytes| <= |memory|
  {
    exists n :: 0 <= n <= |bytes| && memory' == Patched(memory, address, bytes[..n])
  }

  class Tracee {
    var memory: seq<Byte>
    var heldThreads: nat

    ghost predicate Valid()
      reads this
    {
      |memory| % WORD == 0
    }

    constructor (bytes: seq<Byte>, threads: nat)
      requires |bytes| % WORD == 0
      ensures Valid() && memory == bytes && heldThreads == threads
    {
      memory, heldThreads := bytes, threads;
    }

    /** Splices a part into the word around it. */
    method PokePart(cursor: nat, part: seq<Byte>)
      requires Aligned(cursor) + WORD <= |memory| && cursor - Aligned(cursor) + |part| <= WORD
      modifies this`memory
      ensures cursor + |part| <= |memory| && memory == Patched(old(memory), cursor, part)
    {
      var aligned := Aligned(cursor);
      var word := Spliced(memory[aligned..aligned + WORD], cursor - aligned, part);
      SpliceIsPatch(memory, aligned, cursor - aligned, part);
      memory := Patched(memory, aligned, word);
    }

    /** The part of a range that the word at the cursor takes, after everything before it. */
    method WriteNext(address: nat, bytes: seq<Byte>, cursor: nat, ghost was: seq<Byte>) returns (next: nat)
      requires Valid() && address <= cursor < address + |bytes| <= |memory| == |was|
      requires memory == Patched(was, address, bytes[..cursor - address])
      modifies this`memory
      ensures cursor < next <= address + |bytes| && |memory| == |was|
      ensures memory == Patched(was, address, bytes[..next - address])
    {
      var chunk, done := Chunk(cursor, address + |bytes|), cursor - address;
      ChunkFits(cursor, address + |bytes|, |memory|);
      NextPart(was, address, bytes, done, chunk);
      PokePart(cursor, bytes[done..done + chunk]);
      next := cursor + chunk;
    }

    /**
     * Writes a byte range through whole words. It equals a plain update of the range; if ptrace refuses
     * an access, what was written so far is a prefix of the range.
     */
    method Write(address: nat, bytes: seq<Byte>, peeks: nat -> bool, pokes: nat -> bool) returns (written: bool)
      requires Valid() && address + |bytes| <= |memory|
      modifies this`memory
      ensures Valid()
      ensures written ==> memory == Patched(old(memory), address, bytes)
      ensures !written ==> IsPartial(old(memory), memory, address, bytes)
      ensures heldThreads > 0 && (forall a :: peeks(a) && pokes(a)) ==> written
    {
      PatchNothing(memory, address);
      assert bytes[..0] == [];
      if heldThreads == 0 {
        return false;
      }
      var cursor, end := address, address + |bytes|;
      while cursor < end
        decreases end - cursor
        invariant address <= cursor <= end && |memory| == |old(memory)|
        invariant memory == Patched(old(memory), address, bytes[..cursor - address])
      {
        if !peeks(Aligned(cursor)) || !pokes(Aligned(cursor)) {
          return false;
        }
        cursor := WriteNext(address, bytes, cursor, old(memory));
      }
      assert bytes[..|bytes|] == bytes;
      written := true;
    }

    /** Reads a byte range through whole words. */
    method Read(address: nat, size: nat, peeks: nat -> bool) returns (bytes: seq<Byte>, ok: bool)
      requires Valid() && address + size <= |memory|
      ensures ok ==> bytes == memory[address..address + size]
      ensures heldThreads > 0 && (forall a :: peeks(a)) ==> ok
    {
      bytes := [];
      if heldThreads == 0 {
        return bytes, false;
      }
      var cursor, end := address, address + size;
      while cursor < end
        invariant address <= cursor <= end && bytes == memory[address..cursor]
      {
        var aligned, chunk := Aligned(cursor), Chunk(cursor, end);
        var offset := cursor - aligned;
        ChunkFits(cursor, end, |memory|);
        if !peeks(aligned) {
          return bytes, false;
        }
        var word := memory[aligned..aligned + WORD];
        PartOfWord(memory, aligned, offset, chunk);
        SlicesJoin(memory, address, cursor, chunk);
        bytes := bytes + word[offset..offset + chunk];
        cursor := cursor + chunk;
      }
      ok := true;
    }

    /** A write and the read that verifies it: success means the range holds exactly the bytes. */
    method WriteVerified(address: nat, bytes: seq<Byte>, peeks: nat -> bool, pokes: nat -> bool) returns (ok: bool)
      requires Valid() && address + |bytes| <= |memory|
      modifies this`memory
      ensures Valid()
      ensures ok ==> memory == Patched(old(memory), address, bytes) && memory[address..address + |bytes|] == bytes
      ensures heldThreads > 0 && (forall a :: peeks(a) && pokes(a)) ==> ok
    {
      var written := Write(address, bytes, peeks, pokes);
      if !written {
        return false;
      }
      var actual, read := Read(address, |bytes|, peeks);
      assert memory[address..address + |bytes|] == bytes;
      ok := read && actual == bytes;
    }
  }
}
