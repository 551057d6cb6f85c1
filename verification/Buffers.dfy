/** The growable byte buffer with its cursor, and the writers and readers that move it, in place
    (shared/src/serialization.c:3-139, shared/src/process.c:78-102 and 144-161). */
module Buffers {
  import opened Collections
  import opened Process
  import opened Codec

  const DEFAULT_BUFFER_SIZE := 64

  /** The size change_buffer_size ends with. */
  function Grown(size: nat, need: nat): nat
    decreases need - size
  {
    if size >= need then size else Grown(size + DEFAULT_BUFFER_SIZE, need)
  }

  /** It is the least of size, size + 64, size + 128, ... that fits. */
  lemma {:induction false} GrownIsLeast(size: nat, need: nat, k: nat)
    ensures Grown(size, need) >= need && Grown(size, need) >= size
    ensures (Grown(size, need) - size) % 64 == 0
    ensures size + 64 * k >= need ==> Grown(size, need) <= size + 64 * k
    decreases need - size
  {
    if size >= need {
    } else {
      GrownIsLeast(size + DEFAULT_BUFFER_SIZE, need, if k == 0 then 0 else k - 1);
    }
  }

  lemma HeadLength(p: Pcb)
    requires Sendable(p)
    ensures |HeadBytes(p)| == 16
  {}

  class Buffer {
    var offset: nat
    var bufferSize: nat
    var stream: array<Byte>

    predicate Valid()
      reads this
    {
      bufferSize == stream.Length && offset <= bufferSize
    }

    /** What has been written. */
    ghost function Written(): seq<Byte>
      requires Valid()
      reads this, stream
    {
      stream[..offset]
    }

    constructor (size: nat)
      ensures Valid() && fresh(stream) && offset == 0 && bufferSize == size
    {
      offset, bufferSize := 0, size;
      stream := new Byte[size];
    }

    // ---------- Writing ----------

    method ChangeBufferSize(n: nat)
      requires Valid()
      modifies this`bufferSize, this`stream
      ensures Valid() && (stream == old(stream) || fresh(stream))
      ensures bufferSize == Grown(old(bufferSize), offset + n)
      ensures bufferSize >= old(bufferSize) && stream[..old(bufferSize)] == old(stream[..])
      ensures offset + n <= bufferSize
    {
      while bufferSize < offset + n
        invariant Valid() && (stream == old(stream) || fresh(stream))
        invariant Grown(bufferSize, offset + n) == Grown(old(bufferSize), offset + n)
        invariant bufferSize >= old(bufferSize) && stream[..old(bufferSize)] == old(stream[..])
      {
        bufferSize := bufferSize + DEFAULT_BUFFER_SIZE;
        var moved := new Byte[bufferSize];
        forall i | 0 <= i < stream.Length { moved[i] := stream[i]; }
        assert moved[..old(bufferSize)] == stream[..old(bufferSize)];
        stream := moved;
      }
    }

    /** Growth and copy: earlier bytes stay, the cursor ends behind the new ones. The offset is a 32-bit
        field, hence the bound. */
    method AddToBuffer(information: seq<Byte>)
      requires Valid() && offset + |information| < WORD_LIMIT
      modifies this, stream
      ensures Valid() && (stream == old(stream) || fresh(stream))
      ensures Written() == old(Written()) + information
      ensures bufferSize == Grown(old(bufferSize), old(offset) + |information|)
    {
      ghost var before := Written();
      ChangeBufferSize(|information|);
      assert stream[..offset] == before by { assert stream[..offset] == stream[..old(bufferSize)][..offset]; }
      forall i | offset <= i < offset + |information| { stream[i] := information[i - offset]; }
      assert forall i :: 0 <= i < offset ==> stream[i] == before[i];
      offset := offset + |information|;
      assert Written() == before + information;
    }

    method AddUint32(value: Word)
      requires Valid() && offset + 4 < WORD_LIMIT
      modifies this, stream
      ensures Valid() && (stream == old(stream) || fresh(stream))
      ensures Written() == old(Written()) + WordBytes(value)
    {
      AddToBuffer(WordBytes(value));
    }

    method AddInt32(value: Int32)
      requires Valid() && offset + 4 < WORD_LIMIT
      modifies this, stream
      ensures Valid() && (stream == old(stream) || fresh(stream))
      ensures Written() == old(Written()) + IntBytes(value)
    {
      AddToBuffer(WordBytes(AsWord(value)));
    }

    method AddString(value: Name)
      requires Valid() && Short(value) && offset + |StringBytes(value)| < WORD_LIMIT
      modifies this, stream
      ensures Valid() && (stream == old(stream) || fresh(stream))
      ensures Written() == old(Written()) + StringBytes(value)
    {
      ghost var before := Written();
      AddUint32(|value| + 1);
      AddToBuffer(Terminated(value));
      assert Written() == before + (WordBytes(|value| + 1) + Terminated(value));
    }

    method AddWordList(list: seq<Word>)
      requires Valid() && |list| < WORD_LIMIT && offset + |WordListBytes(list)| < WORD_LIMIT
      modifies this, stream
      ensures Valid() && (stream == old(stream) || fresh(stream))
      ensures Written() == old(Written()) + WordListBytes(list)
    {
      ghost var target := Written() + WordListBytes(list);
      AddUint32(|list|);
      assert Written() + WordsBytes(list) == target;
      var i := 0;
      while i < |list|
        invariant i <= |list| && Valid() && (stream == old(stream) || fresh(stream))
        invariant Written() + WordsBytes(list[i..]) == target
      {
        ghost var written, rest := Written(), WordsBytes(list[i + 1..]);
        assert list[i..][1..] == list[i + 1..];
        assert written + (WordBytes(list[i]) + rest) == (written + WordBytes(list[i])) + rest;
        assert |target| == |written| + 4 + |rest|;
        AddUint32(list[i]);
        i := i + 1;
      }
    }

    method AddStringList(list: seq<Name>)
      requires Valid() && |list| < WORD_LIMIT && AllShort(list) && offset + |StringListBytes(list)| < WORD_LIMIT
      modifies this, stream
      ensures Valid() && (stream == old(stream) || fresh(stream))
      ensures Written() == old(Written()) + StringListBytes(list)
    {
      hide StringBytes;
      ghost var target := Written() + StringListBytes(list);
      AddUint32(|list|);
      assert Written() + StringsBytes(list) == target;
      var i := 0;
      while i < |list|
        invariant i <= |list| && Valid() && (stream == old(stream) || fresh(stream))
        invariant Written() + StringsBytes(list[i..]) == target
      {
        ghost var written, rest := Written(), StringsBytes(list[i + 1..]);
        assert list[i..][1..] == list[i + 1..];
        assert written + (StringBytes(list[i]) + rest) == (written + StringBytes(list[i])) + rest;
        assert |target| == |written| + |StringBytes(list[i])| + |rest|;
        AddString(list[i]);
        i := i + 1;
      }
    }

    /** add_pcb_to_buffer. */
    method AddPcb(pcb: Pcb)
      requires Valid() && Sendable(pcb) && offset + |PcbBytes(pcb)| < WORD_LIMIT
      modifies this, stream
      ensures Valid() && (stream == old(stream) || fresh(stream))
      ensures Written() == old(Written()) + PcbBytes(pcb)
    {
      hide HeadBytes, ListsBytes, TailBytes;
      ghost var before := Written();
      assert |HeadBytes(pcb)| == 16 by { HeadLength(pcb); }
      AddHead(pcb);
      AddLists(pcb);
      AddTail(pcb);
      assert Written() == before + PcbBytes(pcb);
    }

    method AddLists(pcb: Pcb)
      requires Valid() && Sendable(pcb) && offset + |ListsBytes(pcb)| < WORD_LIMIT
      modifies this, stream
      ensures Valid() && (stream == old(stream) || fresh(stream))
      ensures Written() == old(Written()) + ListsBytes(pcb)
    {
      hide WordListBytes, StringListBytes;
      ghost var before := Written();
      AddWordList(pcb.registers);
      AddStringList(pcb.resources);
      assert Written() == before + ListsBytes(pcb);
    }

    method AddHead(pcb: Pcb)
      requires Valid() && Sendable(pcb) && offset + 16 < WORD_LIMIT
      modifies this, stream
      ensures Valid() && (stream == old(stream) || fresh(stream))
      ensures Written() == old(Written()) + HeadBytes(pcb)
    {
      hide IntBytes;
      ghost var before := Written();
      AddInt32(pcb.pid);
      AddInt32(pcb.programCounter);
      AddInt32(pcb.quantum);
      AddInt32(pcb.size);
      assert Written() == before + HeadBytes(pcb);
    }

    method AddTail(pcb: Pcb)
      requires Valid() && Sendable(pcb) && offset + |TailBytes(pcb)| < WORD_LIMIT
      modifies this, stream
      ensures Valid() && (stream == old(stream) || fresh(stream))
      ensures Written() == old(Written()) + TailBytes(pcb)
    {
      hide IntBytes, StringBytes;
      ghost var before := Written();
      AddInt32(pcb.tablePages);
      AddString(pcb.path);
      AddInt32(StateCode(pcb.state));
      AddInt32(pcb.clientSocket);
      assert Written() == before + TailBytes(pcb);
    }

    // ---------- Reading ----------

    /** buffer_take; reading past the end is undefined there. */
    method BufferTake(n: nat) returns (taken: seq<Byte>)
      requires Valid() && offset + n <= bufferSize
      modifies this`offset
      ensures Valid() && offset == old(offset) + n && taken == stream[old(offset)..offset]
    {
      taken := stream[offset..offset + n];
      offset := offset + n;
    }

    method TakeUint32() returns (value: Word)
      requires Valid() && TakeWord(stream[..], offset).Some?
      modifies this`offset
      ensures Valid() && TakeWord(stream[..], old(offset)) == Some(Taken(value, offset))
    {
      ghost var o := offset;
      var bytes := BufferTake(4);
      assert bytes == stream[..][o..o + 4];
      value := WordOf(bytes);
    }

    method TakeInt() returns (value: Int32)
      requires Valid() && TakeInt32(stream[..], offset).Some?
      modifies this`offset
      ensures Valid() && TakeInt32(stream[..], old(offset)) == Some(Taken(value, offset))
    {
      var word := TakeUint32();
      value := AsInt32(word);
    }

    method TakeName() returns (value: Name)
      requires Valid() && TakeString(stream[..], offset).Some?
      modifies this`offset
      ensures Valid() && TakeString(stream[..], old(offset)) == Some(Taken(value, offset))
    {
      var size := TakeUint32();
      ghost var o := offset;
      var raw := BufferTake(size);
      assert raw == stream[..][o..offset];
      value := UpToNul(raw).value;
    }

    method TakeListOfWords() returns (list: seq<Word>)
      requires Valid() && TakeWordList(stream[..], offset).Some?
      modifies this`offset
      ensures Valid() && TakeWordList(stream[..], old(offset)) == Some(Taken(list, offset))
    {
      ghost var all := TakeWordList(stream[..], offset).value;
      var size := TakeUint32();
      list := [];
      for i := 0 to size
        invariant Valid() && TakeWords(stream[..], offset, size - i).Some?
        invariant list + TakeWords(stream[..], offset, size - i).value.value == all.value
        invariant TakeWords(stream[..], offset, size - i).value.offset == all.offset
      {
        ghost var before := list;
        var element := TakeUint32();
        list := list + [element];
        ghost var rest := TakeWords(stream[..], offset, size - i - 1).value.value;
        assert before + ([element] + rest) == (before + [element]) + rest;
      }
      assert list + [] == list;
    }

    method TakeListOfNames() returns (list: seq<Name>)
      requires Valid() && TakeStringList(stream[..], offset).Some?
      modifies this`offset
      ensures Valid() && TakeStringList(stream[..], old(offset)) == Some(Taken(list, offset))
    {
      hide TakeString;
      ghost var all := TakeStringList(stream[..], offset).value;
      var size := TakeUint32();
      list := [];
      for i := 0 to size
        invariant Valid() && TakeStrings(stream[..], offset, size - i).Some?
        invariant list + TakeStrings(stream[..], offset, size - i).value.value == all.value
        invariant TakeStrings(stream[..], offset, size - i).value.offset == all.offset
      {
        ghost var before := list;
        var element := TakeName();
        list := list + [element];
        ghost var rest := TakeStrings(stream[..], offset, size - i - 1).value.value;
        assert before + ([element] + rest) == (before + [element]) + rest;
      }
      assert list + [] == list;
    }

    /** take_pcb_from_buffer. */
    method TakePcbFromBuffer() returns (pcb: Pcb)
      requires Valid() && TakePcb(stream[..], offset).Some?
      modifies this`offset
      ensures Valid() && TakePcb(stream[..], old(offset)) == Some(Taken(pcb, offset))
    {
      hide TakeInt32, TakeString, TakeWordList, TakeStringList;
      var pid := TakeInt();
      var programCounter := TakeInt();
      var quantum := TakeInt();
      var size := TakeInt();
      var registers := TakeListOfWords();
      var resources := TakeListOfNames();
      var tablePages := TakeInt();
      var path := TakeName();
      var state := TakeInt();
      var clientSocket := TakeInt();
      pcb := Pcb(pid, programCounter, quantum, size, registers, resources, tablePages, path, StateOf(state).value, clientSocket);
    }
  }
}
