/** The wire format: what the writers of shared/src/serialization.c and shared/src/process.c put into a
    buffer, and what the readers get out of one. Integers are copied as the host has them, which is
    taken to be little-endian.

    A reader is `None` where the source would read past the end of the stream, or would treat bytes
    without a NUL as a string: there its behaviour is undefined. */
module Codec {
  import opened Collections
  import opened Process

  /** A value and the offset behind it. */
  datatype Taken<+T> = Taken(value: T, offset: nat)

  type Int32 = x: int | -0x8000_0000 <= x < 0x8000_0000

  predicate IsInt32(x: int) { -0x8000_0000 <= x < 0x8000_0000 }

  // ---------- Integers ----------

  function AsWord(x: Int32): Word { if x >= 0 then x else x + WORD_LIMIT }

  function AsInt32(w: Word): Int32 { if w < 0x8000_0000 then w else w - WORD_LIMIT }

  function WordBytes(w: Word): (b: seq<Byte>)
    ensures |b| == 4
  {
    var w1 := w / 0x100;
    var w2 := w1 / 0x100;
    [w % 0x100, w1 % 0x100, w2 % 0x100, w2 / 0x100]
  }

  function WordOf(b: seq<Byte>): Word
    requires |b| == 4
  {
    var b0: int, b1: int, b2: int, b3: int := b[0], b[1], b[2], b[3];
    b0 + 0x100 * b1 + 0x1_0000 * b2 + 0x100_0000 * b3
  }

  lemma WordRoundTrip(w: Word)
    ensures WordOf(WordBytes(w)) == w
  {}

  /** Low byte first: a byte further on counts 256 times as much. */
  lemma LowByteFirst(b: seq<Byte>)
    requires |b| == 4
    ensures b[1] == b[2] == b[3] == 0 ==> WordOf(b) == b[0] as int
    ensures b[0] == 0 ==> WordOf(b) as int == 0x100 * WordOf(b[1..] + [0])
    ensures WordOf(b) as int == b[0] + WordOf([0] + b[1..]) as int
  {}

  /** Negative numbers go out in two's complement. */
  lemma TwosComplement(x: Int32)
    ensures x as int == AsWord(x) as int || x as int == AsWord(x) as int - 0x1_0000_0000
    ensures AsInt32(AsWord(x)) == x
  {}

  // ---------- Writers ----------

  predicate Short(s: Name) { |s| + 1 < WORD_LIMIT }

  predicate AllShort(l: seq<Name>) { forall i :: 0 <= i < |l| ==> Short(l[i]) }

  /** The string with its NUL. */
  function Terminated(s: Name): (b: seq<Byte>)
    ensures |b| == |s| + 1
  {
    var chars: seq<Byte> := s;
    chars + [0]
  }

  function StringBytes(s: Name): seq<Byte>
    requires Short(s)
  {
    WordBytes(|s| + 1) + Terminated(s)
  }

  function WordsBytes(l: seq<Word>): seq<Byte> {
    if l == [] then [] else WordBytes(l[0]) + WordsBytes(l[1..])
  }

  function StringsBytes(l: seq<Name>): seq<Byte>
    requires AllShort(l)
  {
    if l == [] then [] else StringBytes(l[0]) + StringsBytes(l[1..])
  }

  function WordListBytes(l: seq<Word>): seq<Byte>
    requires |l| < WORD_LIMIT
  {
    WordBytes(|l|) + WordsBytes(l)
  }

  function StringListBytes(l: seq<Name>): seq<Byte>
    requires |l| < WORD_LIMIT && AllShort(l)
  {
    WordBytes(|l|) + StringsBytes(l)
  }

  function StateCode(t: ProcessState): Int32 {
    match t
    case New => 0
    case Ready => 1
    case Execution => 2
    case Blocked => 3
    case Exit => 12
  }

  function StateOf(code: Int32): Option<ProcessState> {
    match code
    case 0 => Some(New)
    case 1 => Some(Ready)
    case 2 => Some(Execution)
    case 3 => Some(Blocked)
    case 12 => Some(Exit)
    case _ => None
  }

  /** The four states a queued process can have are numbered in the order of their declaration, and all five differ. */
  lemma StateNumbers(t: ProcessState)
    ensures 0 == StateCode(New) < StateCode(Ready) < StateCode(Execution) < StateCode(Blocked) == 3
    ensures StateOf(StateCode(t)) == Some(t)
  {}

  /** A PCB whose fields fit the widths of the wire. */
  predicate Sendable(p: Pcb) {
    && IsInt32(p.pid) && IsInt32(p.programCounter) && IsInt32(p.quantum) && IsInt32(p.size)
    && IsInt32(p.tablePages) && IsInt32(p.clientSocket)
    && |p.registers| < WORD_LIMIT && |p.resources| < WORD_LIMIT && AllShort(p.resources) && Short(p.path)
  }

  function IntBytes(x: Int32): (b: seq<Byte>)
    ensures |b| == 4
  {
    WordBytes(AsWord(x))
  }

  /** add_pcb_to_buffer, in three parts: what comes before the lists, the lists, what comes after. */
  function HeadBytes(p: Pcb): seq<Byte>
    requires Sendable(p)
  {
    IntBytes(p.pid) + (IntBytes(p.programCounter) + (IntBytes(p.quantum) + IntBytes(p.size)))
  }

  function ListsBytes(p: Pcb): seq<Byte>
    requires Sendable(p)
  {
    WordListBytes(p.registers) + StringListBytes(p.resources)
  }

  function TailBytes(p: Pcb): seq<Byte>
    requires Sendable(p)
  {
    IntBytes(p.tablePages) + (StringBytes(p.path) + (IntBytes(StateCode(p.state)) + IntBytes(p.clientSocket)))
  }

  function PcbBytes(p: Pcb): seq<Byte>
    requires Sendable(p)
  {
    HeadBytes(p) + (ListsBytes(p) + TailBytes(p))
  }

  // ---------- Readers ----------

  function TakeWord(b: seq<Byte>, o: nat): Option<Taken<Word>> {
    if o + 4 <= |b| then Some(Taken(WordOf(b[o..o + 4]), o + 4)) else None
  }

  function TakeInt32(b: seq<Byte>, o: nat): Option<Taken<Int32>> {
    var w := TakeWord(b, o);
    if w.Some? then Some(Taken(AsInt32(w.value.value), w.value.offset)) else None
  }

  /** What a C string is: the bytes before the first NUL. */
  function UpToNul(raw: seq<Byte>): Option<Name> {
    if raw == [] then None
    else if raw[0] == 0 then Some([])
    else
      var rest := UpToNul(raw[1..]);
      if rest.Some? then Some([raw[0]] + rest.value) else None
  }

  function TakeString(b: seq<Byte>, o: nat): Option<Taken<Name>> {
    var n := TakeWord(b, o);
    if n.None? || n.value.offset + n.value.value > |b| then None
    else
      var end := n.value.offset + n.value.value;
      var s := UpToNul(b[n.value.offset..end]);
      if s.Some? then Some(Taken(s.value, end)) else None
  }

  function TakeWords(b: seq<Byte>, o: nat, n: nat): Option<Taken<seq<Word>>>
    decreases n
  {
    if n == 0 then Some(Taken([], o))
    else
      var first := TakeWord(b, o);
      if first.None? then None
      else
        var rest := TakeWords(b, first.value.offset, n - 1);
        if rest.None? then None else Some(Taken([first.value.value] + rest.value.value, rest.value.offset))
  }

  function TakeStrings(b: seq<Byte>, o: nat, n: nat): Option<Taken<seq<Name>>>
    decreases n
  {
    if n == 0 then Some(Taken([], o))
    else
      var first := TakeString(b, o);
      if first.None? then None
      else
        var rest := TakeStrings(b, first.value.offset, n - 1);
        if rest.None? then None else Some(Taken([first.value.value] + rest.value.value, rest.value.offset))
  }

  function TakeWordList(b: seq<Byte>, o: nat): Option<Taken<seq<Word>>> {
    var n := TakeWord(b, o);
    if n.None? then None else TakeWords(b, n.value.offset, n.value.value)
  }

  function TakeStringList(b: seq<Byte>, o: nat): Option<Taken<seq<Name>>> {
    var n := TakeWord(b, o);
    if n.None? then None else TakeStrings(b, n.value.offset, n.value.value)
  }

  /** take_pcb_from_buffer. A state code that names no state is left undefined. */
  function TakePcb(b: seq<Byte>, o: nat): Option<Taken<Pcb>> {
    var pid := TakeInt32(b, o);
    if pid.None? then None else
    var pc := TakeInt32(b, pid.value.offset);
    if pc.None? then None else
    var quantum := TakeInt32(b, pc.value.offset);
    if quantum.None? then None else
    var size := TakeInt32(b, quantum.value.offset);
    if size.None? then None else
    var registers := TakeWordList(b, size.value.offset);
    if registers.None? then None else
    var resources := TakeStringList(b, registers.value.offset);
    if resources.None? then None else
    var tablePages := TakeInt32(b, resources.value.offset);
    if tablePages.None? then None else
    var path := TakeString(b, tablePages.value.offset);
    if path.None? then None else
    var state := TakeInt32(b, path.value.offset);
    if state.None? || StateOf(state.value.value).None? then None else
    var socket := TakeInt32(b, state.value.offset);
    if socket.None? then None else
    Some(Taken(Pcb(pid.value.value, pc.value.value, quantum.value.value, size.value.value, registers.value.value,
                   resources.value.value, tablePages.value.value, path.value.value,
                   StateOf(state.value.value).value, socket.value.value),
               socket.value.offset))
  }

  // ---------- Round trips ----------

  /** The bytes x lie in b at offset o. */
  predicate At(b: seq<Byte>, o: nat, x: seq<Byte>) {
    o + |x| <= |b| && b[o..o + |x|] == x
  }

  lemma AtSplit(b: seq<Byte>, o: nat, x: seq<Byte>, y: seq<Byte>)
    requires At(b, o, x + y)
    ensures At(b, o, x) && At(b, o + |x|, y)
  {
    assert b[o..o + |x|] == (x + y)[..|x|];
    assert b[o + |x|..o + |x| + |y|] == (x + y)[|x|..];
  }

  lemma AtMiddle(before: seq<Byte>, x: seq<Byte>, rest: seq<Byte>)
    ensures At(before + x + rest, |before|, x)
  {}

  lemma WordAt(b: seq<Byte>, o: nat, w: Word)
    requires At(b, o, WordBytes(w))
    ensures TakeWord(b, o) == Some(Taken(w, o + 4))
  {
    WordRoundTrip(w);
  }

  lemma IntAt(b: seq<Byte>, o: nat, x: Int32)
    requires At(b, o, IntBytes(x))
    ensures TakeInt32(b, o) == Some(Taken(x, o + 4))
  {
    WordAt(b, o, AsWord(x));
  }

  lemma {:induction false} UpToNulOf(s: Name)
    ensures UpToNul(Terminated(s)) == Some(s)
  {
    if s == [] {
    } else {
      UpToNulOf(s[1..]);
      assert Terminated(s)[1..] == Terminated(s[1..]);
      assert s == [s[0]] + s[1..];
    }
  }

  lemma StringAt(b: seq<Byte>, o: nat, s: Name)
    requires Short(s) && At(b, o, StringBytes(s))
    ensures TakeString(b, o) == Some(Taken(s, o + |StringBytes(s)|))
  {
    AtSplit(b, o, WordBytes(|s| + 1), Terminated(s));
    WordAt(b, o, |s| + 1);
    UpToNulOf(s);
  }

  lemma {:induction false} WordsAt(b: seq<Byte>, o: nat, l: seq<Word>)
    requires At(b, o, WordsBytes(l))
    ensures TakeWords(b, o, |l|) == Some(Taken(l, o + |WordsBytes(l)|))
    decreases |l|
  {
    if l == [] {
    } else {
      AtSplit(b, o, WordBytes(l[0]), WordsBytes(l[1..]));
      WordAt(b, o, l[0]);
      WordsAt(b, o + 4, l[1..]);
      assert l == [l[0]] + l[1..];
    }
  }

  lemma {:induction false} StringsAt(b: seq<Byte>, o: nat, l: seq<Name>)
    requires AllShort(l) && At(b, o, StringsBytes(l))
    ensures TakeStrings(b, o, |l|) == Some(Taken(l, o + |StringsBytes(l)|))
    decreases |l|
  {
    hide StringBytes, TakeString, At;
    if l == [] {
    } else {
      AtSplit(b, o, StringBytes(l[0]), StringsBytes(l[1..]));
      StringAt(b, o, l[0]);
      StringsAt(b, o + |StringBytes(l[0])|, l[1..]);
      assert l == [l[0]] + l[1..];
    }
  }

  lemma WordListAt(b: seq<Byte>, o: nat, l: seq<Word>)
    requires |l| < WORD_LIMIT && At(b, o, WordListBytes(l))
    ensures TakeWordList(b, o) == Some(Taken(l, o + |WordListBytes(l)|))
  {
    AtSplit(b, o, WordBytes(|l|), WordsBytes(l));
    WordAt(b, o, |l|);
    WordsAt(b, o + 4, l);
  }

  lemma StringListAt(b: seq<Byte>, o: nat, l: seq<Name>)
    requires |l| < WORD_LIMIT && AllShort(l) && At(b, o, StringListBytes(l))
    ensures TakeStringList(b, o) == Some(Taken(l, o + |StringListBytes(l)|))
  {
    AtSplit(b, o, WordBytes(|l|), StringsBytes(l));
    WordAt(b, o, |l|);
    StringsAt(b, o + 4, l);
  }

  lemma HeadAt(b: seq<Byte>, o: nat, p: Pcb)
    requires Sendable(p) && At(b, o, HeadBytes(p))
    ensures TakeInt32(b, o) == Some(Taken(p.pid, o + 4))
    ensures TakeInt32(b, o + 4) == Some(Taken(p.programCounter, o + 8))
    ensures TakeInt32(b, o + 8) == Some(Taken(p.quantum, o + 12))
    ensures TakeInt32(b, o + 12) == Some(Taken(p.size, o + 16))
  {
    AtSplit(b, o, IntBytes(p.pid), IntBytes(p.programCounter) + (IntBytes(p.quantum) + IntBytes(p.size)));
    AtSplit(b, o + 4, IntBytes(p.programCounter), IntBytes(p.quantum) + IntBytes(p.size));
    AtSplit(b, o + 8, IntBytes(p.quantum), IntBytes(p.size));
    IntAt(b, o, p.pid);
    IntAt(b, o + 4, p.programCounter);
    IntAt(b, o + 8, p.quantum);
    IntAt(b, o + 12, p.size);
  }

  lemma TailAt(b: seq<Byte>, o: nat, p: Pcb)
    requires Sendable(p) && At(b, o, TailBytes(p))
    ensures var s := o + 4 + |StringBytes(p.path)|;
      && TakeInt32(b, o) == Some(Taken(p.tablePages, o + 4))
      && TakeString(b, o + 4) == Some(Taken(p.path, s))
      && TakeInt32(b, s) == Some(Taken(StateCode(p.state), s + 4))
      && TakeInt32(b, s + 4) == Some(Taken(p.clientSocket, s + 8))
  {
    hide At, TakeInt32, TakeString, StringBytes, IntBytes;
    var last := IntBytes(StateCode(p.state)) + IntBytes(p.clientSocket);
    var s := o + 4 + |StringBytes(p.path)|;
    AtSplit(b, o, IntBytes(p.tablePages), StringBytes(p.path) + last);
    AtSplit(b, o + 4, StringBytes(p.path), last);
    AtSplit(b, s, IntBytes(StateCode(p.state)), IntBytes(p.clientSocket));
    IntAt(b, o, p.tablePages);
    StringAt(b, o + 4, p.path);
    IntAt(b, s, StateCode(p.state));
    IntAt(b, s + 4, p.clientSocket);
  }

  /** Where each field of a PCB lies on the wire. */
  lemma PcbLayout(b: seq<Byte>, o: nat, p: Pcb)
    requires Sendable(p) && At(b, o, PcbBytes(p))
    ensures TakeInt32(b, o) == Some(Taken(p.pid, o + 4))
    ensures TakeInt32(b, o + 4) == Some(Taken(p.programCounter, o + 8))
    ensures TakeInt32(b, o + 8) == Some(Taken(p.quantum, o + 12))
    ensures TakeInt32(b, o + 12) == Some(Taken(p.size, o + 16))
    ensures var resources := o + 16 + |WordListBytes(p.registers)|;
      var tablePages := resources + |StringListBytes(p.resources)|;
      var state := tablePages + 4 + |StringBytes(p.path)|;
      && TakeWordList(b, o + 16) == Some(Taken(p.registers, resources))
      && TakeStringList(b, resources) == Some(Taken(p.resources, tablePages))
      && TakeInt32(b, tablePages) == Some(Taken(p.tablePages, tablePages + 4))
      && TakeString(b, tablePages + 4) == Some(Taken(p.path, state))
      && TakeInt32(b, state) == Some(Taken(StateCode(p.state), state + 4))
      && TakeInt32(b, state + 4) == Some(Taken(p.clientSocket, state + 8))
      && state + 8 == o + |PcbBytes(p)|
  {
    hide At, TakeInt32, TakeString, TakeWordList, TakeStringList, WordListBytes, StringListBytes, StringBytes, IntBytes;
    AtSplit(b, o, HeadBytes(p), ListsBytes(p) + TailBytes(p));
    AtSplit(b, o + |HeadBytes(p)|, ListsBytes(p), TailBytes(p));
    HeadAt(b, o, p);
    AtSplit(b, o + 16, WordListBytes(p.registers), StringListBytes(p.resources));
    WordListAt(b, o + 16, p.registers);
    StringListAt(b, o + 16 + |WordListBytes(p.registers)|, p.resources);
    TailAt(b, o + |HeadBytes(p)| + |ListsBytes(p)|, p);
  }

  /** PCB round trip: wherever its bytes lie, decoding returns the PCB and consumes exactly them. */
  lemma PcbAt(b: seq<Byte>, o: nat, p: Pcb)
    requires Sendable(p) && At(b, o, PcbBytes(p))
    ensures TakePcb(b, o) == Some(Taken(p, o + |PcbBytes(p)|))
  {
    hide At, TakeInt32, TakeString, TakeWordList, TakeStringList, WordListBytes, StringListBytes, StringBytes, PcbBytes;
    PcbLayout(b, o, p);
  }

  /** What follows the lists, byte by byte, for a ready process with the program "B" and small numbers. */
  lemma ReadyTailBytes(p: Pcb, tablePages: Byte, socket: Byte)
    requires Sendable(p) && p.tablePages == tablePages && p.clientSocket == socket && p.path == [66] && p.state == Ready
    ensures TailBytes(p) == [tablePages, 0, 0, 0] + [2, 0, 0, 0] + [66, 0] + [1, 0, 0, 0] + [socket, 0, 0, 0]
  {
    SmallWord(1);
    SmallWord(2);
    SmallWord(tablePages);
    SmallWord(socket);
    hide WordBytes;
    assert Terminated(p.path) == [66, 0];
  }

  /** The lists, byte by byte, for one small register and one resource named "A". */
  lemma OneEachBytes(p: Pcb, register: Byte)
    requires Sendable(p) && p.registers == [register] && p.resources == [[65]]
    ensures ListsBytes(p) == [1, 0, 0, 0] + [register, 0, 0, 0] + [1, 0, 0, 0] + [2, 0, 0, 0] + [65, 0]
  {
    SmallWord(1);
    SmallWord(2);
    SmallWord(register);
    hide WordBytes;
    assert WordsBytes(p.registers) == WordBytes(register) + WordsBytes(p.registers[1..]);
    assert StringsBytes(p.resources) == StringBytes([65]) + StringsBytes(p.resources[1..]);
    assert Terminated([65]) == [65, 0];
  }

  lemma SmallWord(w: Byte)
    ensures WordBytes(w) == [w, 0, 0, 0]
  {}

  /** It composes: any bytes may come before, and a resource name or a sleep time behind is found where the PCB ends. */
  lemma PcbAndResource(before: seq<Byte>, p: Pcb, resource: Name, rest: seq<Byte>)
    requires Sendable(p) && Short(resource)
    ensures var b := before + PcbBytes(p) + StringBytes(resource) + rest;
      var o := |before| + |PcbBytes(p)|;
      TakePcb(b, |before|) == Some(Taken(p, o))
      && TakeString(b, o) == Some(Taken(resource, o + |StringBytes(resource)|))
  {
    hide PcbBytes, StringBytes, TakePcb, TakeString, At;
    var b := before + PcbBytes(p) + StringBytes(resource) + rest;
    AtMiddle(before, PcbBytes(p), StringBytes(resource) + rest);
    assert before + PcbBytes(p) + (StringBytes(resource) + rest) == b;
    AtMiddle(before + PcbBytes(p), StringBytes(resource), rest);
    PcbAt(b, |before|, p);
    StringAt(b, |before| + |PcbBytes(p)|, resource);
  }

  lemma PcbAndSleepTime(before: seq<Byte>, p: Pcb, time: Int32, rest: seq<Byte>)
    requires Sendable(p)
    ensures var b := before + PcbBytes(p) + IntBytes(time) + rest;
      var o := |before| + |PcbBytes(p)|;
      TakePcb(b, |before|) == Some(Taken(p, o)) && TakeInt32(b, o) == Some(Taken(time, o + 4))
  {
    hide PcbBytes, IntBytes, TakePcb, TakeInt32, At;
    var b := before + PcbBytes(p) + IntBytes(time) + rest;
    AtMiddle(before, PcbBytes(p), IntBytes(time) + rest);
    assert before + PcbBytes(p) + (IntBytes(time) + rest) == b;
    AtMiddle(before + PcbBytes(p), IntBytes(time), rest);
    PcbAt(b, |before|, p);
    IntAt(b, |before| + |PcbBytes(p)|, time);
  }
}
