/** The Telnet codec of telnet.rs: an incremental decoder with a carried-over tail, and the outgoing escaper. */
module Telnet {
  import opened Sequences

  const IAC: bv8 := 0xFF
  const DONT: bv8 := 0xFE
  const DO: bv8 := 0xFD
  const WONT: bv8 := 0xFC
  const WILL: bv8 := 0xFB
  const SB: bv8 := 0xFA
  const SE: bv8 := 0xF0

  // ---- one command block ----------------------------------------------------------------------

  // What `process_iac_block` returns; nothing is consumed when the command is incomplete.
  datatype Block = Block(consumed: nat, reply: Chunk)

  // IAC SE stands at index `k`.
  predicate PairAt(s: Chunk, k: nat) {
    k + 1 < |s| && s[k] == IAC && s[k + 1] == SE
  }

  // First index from `i` on at which IAC SE stands, or |s| when there is none.
  function SubnegotiationEnd(s: Chunk, i: nat): (e: nat)
    requires i <= |s|
    ensures e + 1 < |s| || e == |s|
    decreases |s| - i
  {
    if i + 1 >= |s| then |s|
    else if PairAt(s, i) then i
    else SubnegotiationEnd(s, i + 1)
  }

  lemma {:induction false} EndIsFirstPair(s: Chunk, i: nat)
    requires i <= |s|
    ensures var e := SubnegotiationEnd(s, i);
            && i <= e <= |s|
            && (e < |s| ==> PairAt(s, e))
            && forall k :: i <= k < e ==> !PairAt(s, k)
    decreases |s| - i
  {
    if i + 1 < |s| && !PairAt(s, i) {
      EndIsFirstPair(s, i + 1);
    }
  }

  function Simple3(s: Chunk, verb: bv8): Block {
    if |s| < 3 then Block(0, []) else Block(3, [IAC, verb, s[2]])
  }

  function IacBlock(s: Chunk): (b: Block)
    ensures b.consumed <= |s|
  {
    if |s| < 2 || s[0] != IAC then Block(0, [])
    else if s[1] == IAC then Block(2, [])
    else if s[1] == DO || s[1] == DONT then Simple3(s, WONT)
    else if s[1] == WILL || s[1] == WONT then Simple3(s, DONT)
    else if s[1] == SB then
      var e := SubnegotiationEnd(s, 2);
      if e < |s| then Block(e + 2, []) else Block(0, [])
    else Block(2, [])
  }

  predicate Verb(b: bv8) {
    b == DO || b == DONT || b == WILL || b == WONT
  }

  // No IAC SE pair at or after index `from`.
  predicate NoEnd(s: Chunk, from: nat) {
    forall k :: from <= k < |s| ==> !PairAt(s, k)
  }

  // A command that needs more bytes: a lone IAC, a verb without its option, an unfinished subnegotiation.
  predicate Incomplete(s: Chunk) {
    || s == [IAC]
    || (|s| == 2 && s[0] == IAC && Verb(s[1]))
    || (|s| >= 2 && s[0] == IAC && s[1] == SB && NoEnd(s, 2))
  }

  method ProcessIacBlock(input: Chunk) returns (consumed: nat, reply: Chunk)
    ensures Block(consumed, reply) == IacBlock(input)
    ensures |input| >= 3 && input[0] == 0xFF && (input[1] == 0xFD || input[1] == 0xFE) ==>
              consumed == 3 && reply == [0xFF, 0xFC, input[2]]
    ensures |input| >= 3 && input[0] == 0xFF && (input[1] == 0xFB || input[1] == 0xFC) ==>
              consumed == 3 && reply == [0xFF, 0xFE, input[2]]
    ensures reply == [] || (|input| >= 3 && input[0] == 0xFF && 0xFB <= input[1] <= 0xFE)
  {
    if |input| < 2 || input[0] != IAC {
      return 0, [];
    }
    if input[1] == IAC {
      return 2, [];
    } else if Verb(input[1]) {
      var verb := if input[1] == DO || input[1] == DONT then WONT else DONT;
      if |input| < 3 {
        return 0, [];
      }
      return 3, [IAC, verb, input[2]];
    } else if input[1] == SB {
      var i := 2;
      while i + 1 < |input|
        invariant 2 <= i <= |input|
        invariant SubnegotiationEnd(input, 2) == SubnegotiationEnd(input, i)
      {
        if input[i] == IAC && input[i + 1] == SE {
          return i + 2, [];
        }
        i := i + 1;
      }
      return 0, [];
    } else {
      return 2, [];
    }
  }

  // ---- the decoder ----------------------------------------------------------------------------

  // Data bytes, concatenated replies, undecoded rest.
  datatype Decoded = Decoded(data: Chunk, replies: Chunk, tail: Chunk)

  function Prepend(data: Chunk, replies: Chunk, d: Decoded): Decoded {
    Decoded(data + d.data, replies + d.replies, d.tail)
  }

  // One turn of the decode loop on the bytes from its index on: how many it steps over, the data and the
  // reply they yield. It steps over nothing where the loop breaks.
  datatype Turn = Turn(consumed: nat, data: Chunk, reply: Chunk)

  function Front(s: Chunk): (t: Turn)
    requires s != []
    ensures t.consumed <= |s|
  {
    if s[0] != IAC then Turn(1, [s[0]], [])
    else
      var b := IacBlock(s);
      Turn(b.consumed, if b.consumed == 2 && s[1] == IAC then [IAC] else [], b.reply)
  }

  // Decoding a buffer that holds the old tail and the bytes just read.
  function Decode(s: Chunk): Decoded
    decreases |s|
  {
    if s == [] then Decoded([], [], [])
    else
      var t := Front(s);
      if t.consumed == 0 then Decoded([], [], s) else Prepend(t.data, t.reply, Decode(s[t.consumed..]))
  }

  // What the loop ends with when `rest` lies ahead and it has collected `data` and `replies`.
  function DecodeOn(rest: Chunk, data: Chunk, replies: Chunk): Decoded
    decreases |rest|
  {
    if rest == [] then Decoded(data, replies, [])
    else
      var t := Front(rest);
      if t.consumed == 0 then Decoded(data, replies, rest)
      else DecodeOn(rest[t.consumed..], data + t.data, replies + t.reply)
  }

  lemma {:induction false} DecodeOnIsDecode(rest: Chunk, data: Chunk, replies: Chunk)
    ensures DecodeOn(rest, data, replies) == Prepend(data, replies, Decode(rest))
    decreases |rest|
  {
    if rest != [] && Front(rest).consumed > 0 {
      var t := Front(rest);
      var next := rest[t.consumed..];
      DecodeOnIsDecode(next, data + t.data, replies + t.reply);
      PrependTwice(data, replies, t.data, t.reply, Decode(next));
    }
  }

  // One turn, by the branch the loop takes.
  lemma DataTurn(rest: Chunk, data: Chunk, replies: Chunk)
    requires rest != [] && rest[0] != IAC
    ensures DecodeOn(rest, data, replies) == DecodeOn(rest[1..], data + [rest[0]], replies)
  {
    assert replies + [] == replies;
  }

  lemma CommandTurn(rest: Chunk, data: Chunk, b: Block, replies: Chunk)
    requires rest != [] && rest[0] == IAC && b == IacBlock(rest) && b.consumed > 0
    ensures 2 <= b.consumed <= |rest|
    ensures DecodeOn(rest, data, replies) ==
            DecodeOn(rest[b.consumed..], if b.consumed == 2 && rest[1] == IAC then data + [IAC] else data,
                     replies + b.reply)
  {
    BlockStuckIffIncomplete(rest);
    assert data + [] == data;
  }

  lemma LoopEnd(rest: Chunk, data: Chunk, replies: Chunk)
    requires rest == [] || (rest[0] == IAC && IacBlock(rest).consumed == 0)
    ensures DecodeOn(rest, data, replies) == Decoded(data, replies, rest)
  {
  }

  // The decode loop of the read arm: bytes for the hub, bytes for the peer, bytes kept for the next read.
  method DecodeBuffer(buffer: Chunk) returns (dataOut: Chunk, replies: Chunk, leftover: Chunk)
    ensures Decoded(dataOut, replies, leftover) == Decode(buffer)
  {
    dataOut, replies := [], [];
    ghost var whole, rest := Decode(buffer), buffer;
    DecodeOnIsDecode(buffer, [], []);
    var i := 0;
    while i < |buffer|
      invariant 0 <= i <= |buffer| && rest == buffer[i..]
      invariant DecodeOn(rest, dataOut, replies) == whole
      decreases |buffer| - i
    {
      if buffer[i] == IAC {
        var consumed, reply := ProcessIacBlock(buffer[i..]);
        if consumed == 0 {
          break;
        }
        CommandTurn(rest, dataOut, Block(consumed, reply), replies);
        rest := rest[consumed..];
        replies := replies + reply;
        if consumed == 2 && buffer[i + 1] == IAC {
          dataOut := dataOut + [0xFF];
        }
        i := i + consumed;
      } else {
        DataTurn(rest, dataOut, replies);
        rest := rest[1..];
        dataOut := dataOut + [buffer[i]];
        i := i + 1;
      }
    }
    leftover := buffer[i..];
    LoopEnd(rest, dataOut, replies);
  }

  // The whole stream read so far, decoded at once, is what the separate reads have produced.
  predicate Faithful(received: Chunk, outputs: seq<Chunk>, replies: Chunk, tail: Chunk) {
    && Decode(received) == Decoded(Flatten(outputs), replies, tail)
    && (tail == [] || Incomplete(tail))
    && forall k :: 0 <= k < |outputs| ==> outputs[k] != []
  }

  // The driver's state between two arms of its select.
  class TelnetDriver {
    var tail: Chunk
    var outputs: seq<Chunk>  // the Output events sent
    var wire: Chunk          // everything written to the peer
    ghost var received: Chunk
    ghost var replies: Chunk

    ghost predicate Valid()
      reads this
    {
      Faithful(received, outputs, replies, tail)
    }

    constructor ()
      ensures Valid() && tail == [] && outputs == [] && wire == [] && received == []
    {
      tail, outputs, wire, received, replies := [], [], [], [], [];
    }

    // The read arm of `run`.
    method Read(bytes: Chunk)
      requires Valid()
      modifies this
      ensures Valid() && received == old(received) + bytes
      ensures var d := Decode(old(tail) + bytes);
              && tail == d.tail
              && wire == old(wire) + d.replies
              && outputs == old(outputs) + (if d.data == [] then [] else [d.data])
    {
      var dataOut, reply, leftover := DecodeBuffer(tail + bytes);
      ReadExtends(received, outputs, replies, tail, bytes, Decoded(dataOut, reply, leftover));
      tail := leftover;
      wire := wire + reply;
      received, replies := received + bytes, replies + reply;
      if dataOut != [] {
        outputs := outputs + [dataOut];
      }
    }

    // The input arm of `run`.
    method Send(b: Chunk)
      requires Valid()
      modifies this`wire
      ensures Valid() && wire == old(wire) + Escape(b)
    {
      var escaped := EscapeOutgoing(b);
      wire := wire + escaped;
    }
  }

  // ---- progress and residue -------------------------------------------------------------------

  lemma BlockStuckIffIncomplete(s: Chunk)
    requires s != [] && s[0] == IAC
    ensures IacBlock(s).consumed == 0 <==> Incomplete(s)
    ensures IacBlock(s).consumed > 0 ==> 2 <= IacBlock(s).consumed <= |s|
  {
    if |s| >= 2 && s[1] == SB {
      EndIsFirstPair(s, 2);
      if SubnegotiationEnd(s, 2) < |s| {
        assert !NoEnd(s, 2);
      }
    }
  }

  lemma FrontStuckIffIncomplete(s: Chunk)
    requires s != []
    ensures Front(s).consumed == 0 <==> Incomplete(s)
  {
    if s[0] == IAC {
      BlockStuckIffIncomplete(s);
    }
  }

  // What is left is empty or exactly an incomplete command, and it is the end of the buffer.
  lemma {:induction false} DecodeResidue(s: Chunk)
    ensures var t := Decode(s).tail;
            && (t == [] || Incomplete(t))
            && |t| <= |s| && t == s[|s| - |t|..]
    decreases |s|
  {
    if s != [] {
      FrontStuckIffIncomplete(s);
      if Front(s).consumed > 0 {
        DecodeResidue(s[Front(s).consumed..]);
      }
    }
  }

  // ---- chunking invariance --------------------------------------------------------------------

  lemma {:induction false} SubnegotiationEndStable(s: Chunk, t: Chunk, i: nat)
    requires i <= |s| && SubnegotiationEnd(s, i) < |s|
    ensures SubnegotiationEnd(s + t, i) == SubnegotiationEnd(s, i)
    decreases |s| - i
  {
    EndIsFirstPair(s, i);
    if !PairAt(s, i) {
      SubnegotiationEndStable(s, t, i + 1);
    }
  }

  // A block accepted once is accepted, with the same result, on every extension.
  lemma BlockStable(s: Chunk, t: Chunk)
    requires IacBlock(s).consumed > 0
    ensures IacBlock(s + t) == IacBlock(s)
  {
    if s[1] == SB {
      SubnegotiationEndStable(s, t, 2);
    }
  }

  lemma FrontStable(s: Chunk, t: Chunk)
    requires s != [] && Front(s).consumed > 0
    ensures Front(s + t) == Front(s)
    ensures (s + t)[Front(s).consumed..] == s[Front(s).consumed..] + t
  {
    if s[0] == IAC {
      BlockStable(s, t);
    }
  }

  // Decoding in two parts, carrying the tail over, is decoding at once.
  lemma {:induction false} DecodeSplit(s: Chunk, t: Chunk)
    ensures Decode(s + t) == Prepend(Decode(s).data, Decode(s).replies, Decode(Decode(s).tail + t))
    decreases |s|
  {
    if s == [] {
      assert s + t == t;
    } else if Front(s).consumed > 0 {
      var f := Front(s);
      var rest := s[f.consumed..];
      FrontStable(s, t);
      DecodeSplit(rest, t);
      var d := Decode(rest);
      PrependTwice(f.data, f.reply, d.data, d.replies, Decode(d.tail + t));
    }
  }

  lemma PrependTwice(a: Chunk, b: Chunk, data: Chunk, replies: Chunk, d: Decoded)
    ensures Prepend(a, b, Prepend(data, replies, d)) == Prepend(a + data, b + replies, d)
  {
    Associative(a, data, d.data);
    Associative(b, replies, d.replies);
  }

  // The driver fed with one read after the other.
  function DecodeReads(tail: Chunk, parts: seq<Chunk>): Decoded
    decreases |parts|
  {
    if parts == [] then Decoded([], [], tail)
    else
      var d := Decode(tail + parts[0]);
      Prepend(d.data, d.replies, DecodeReads(d.tail, parts[1..]))
  }

  lemma {:induction false} DecodeReadsFrom(tail: Chunk, parts: seq<Chunk>)
    requires tail == [] || Incomplete(tail)
    ensures DecodeReads(tail, parts) == Decode(tail + Flatten(parts))
    decreases |parts|
  {
    if parts == [] {
      assert tail + Flatten(parts) == tail;
      DecodeTail(tail);
    } else {
      DecodeResidue(tail + parts[0]);
      DecodeReadsFrom(Decode(tail + parts[0]).tail, parts[1..]);
      DecodeSplit(tail + parts[0], Flatten(parts[1..]));
      Associative(tail, parts[0], Flatten(parts[1..]));
    }
  }

  // A tail on its own stays what it is.
  lemma DecodeTail(tail: Chunk)
    requires tail == [] || Incomplete(tail)
    ensures Decode(tail) == Decoded([], [], tail)
  {
    if tail != [] {
      FrontStuckIffIncomplete(tail);
    }
  }

  // However a stream is cut into parts: same data, same replies, same final tail.
  lemma ChunkingInvariance(parts: seq<Chunk>, others: seq<Chunk>)
    requires Flatten(parts) == Flatten(others)
    ensures DecodeReads([], parts) == DecodeReads([], others) == Decode(Flatten(parts))
  {
    DecodeReadsFrom([], parts);
    DecodeReadsFrom([], others);
    assert [] + Flatten(parts) == Flatten(parts);
  }

  // One more read: the Output events and replies so far, extended by this read's, are those of the
  // longer stream.
  lemma ReadExtends(received: Chunk, outputs: seq<Chunk>, replies: Chunk, tail: Chunk, bytes: Chunk, d: Decoded)
    requires Faithful(received, outputs, replies, tail) && d == Decode(tail + bytes)
    ensures Faithful(received + bytes, if d.data == [] then outputs else outputs + [d.data],
                     replies + d.replies, d.tail)
  {
    DecodeSplit(received, bytes);
    DecodeResidue(tail + bytes);
    if d.data != [] {
      FlattenSnoc(outputs, d.data);
    }
  }

  // ---- the outgoing escaper -------------------------------------------------------------------

  function Escape(s: Chunk): Chunk {
    if s == [] then [] else (if s[0] == IAC then [IAC, IAC] else [s[0]]) + Escape(s[1..])
  }

  lemma {:induction false} EscapeConcat(s: Chunk, t: Chunk)
    ensures Escape(s + t) == Escape(s) + Escape(t)
  {
    if s == [] {
      assert s + t == t;
    } else {
      assert (s + t)[1..] == s[1..] + t;
      EscapeConcat(s[1..], t);
    }
  }

  method EscapeOutgoing(b: Chunk) returns (escaped: Chunk)
    ensures escaped == Escape(b)
    ensures Decode(escaped) == Decoded(b, [], [])
  {
    escaped := [];
    for i := 0 to |b|
      invariant escaped == Escape(b[..i])
    {
      assert b[..i + 1] == b[..i] + [b[i]];
      EscapeConcat(b[..i], [b[i]]);
      assert Escape([b[i]]) == (if b[i] == IAC then [IAC, IAC] else [b[i]]) + Escape([]);
      if b[i] == IAC {
        escaped := escaped + [IAC, IAC];
      } else {
        escaped := escaped + [b[i]];
      }
    }
    assert b[..|b|] == b;
    EscapeInverse(b);
  }

  // A peer running the same decoder gets back exactly the bytes sent, asks nothing and keeps nothing.
  lemma {:induction false} EscapeInverse(s: Chunk)
    ensures Decode(Escape(s)) == Decoded(s, [], [])
  {
    if s != [] {
      EscapeInverse(s[1..]);
      var e := Escape(s);
      if s[0] == IAC {
        assert e[2..] == Escape(s[1..]);
        assert IacBlock(e) == Block(2, []);
      } else {
        assert e[1..] == Escape(s[1..]);
      }
    }
  }

  // Several writes, cut into parts anywhere: the peer still gets their concatenation.
  lemma EscapedStreamDecodes(writes: seq<Chunk>, parts: seq<Chunk>)
    requires Flatten(parts) == Flatten(EscapeAll(writes))
    ensures DecodeReads([], parts) == Decoded(Flatten(writes), [], [])
  {
    EscapeFlatten(writes);
    EscapeInverse(Flatten(writes));
    ChunkingInvariance(parts, parts);
  }

  function EscapeAll(writes: seq<Chunk>): seq<Chunk> {
    if writes == [] then [] else [Escape(writes[0])] + EscapeAll(writes[1..])
  }

  lemma {:induction false} EscapeFlatten(writes: seq<Chunk>)
    ensures Flatten(EscapeAll(writes)) == Escape(Flatten(writes))
  {
    if writes != [] {
      EscapeFlatten(writes[1..]);
      EscapeConcat(writes[0], Flatten(writes[1..]));
      assert EscapeAll(writes)[1..] == EscapeAll(writes[1..]);
    }
  }

  // ---- the command grammar --------------------------------------------------------------------

  // The structure of a Telnet stream, RFC 854, "TELNET COMMAND STRUCTURE": a byte of data, a two-byte
  // command, a negotiation with its option, or a subnegotiation closed by IAC SE.
  datatype Item =
    | Data(byte: bv8)
    | Command(code: bv8)
    | Negotiate(verb: bv8, option: bv8)
    | Subnegotiation(payload: Chunk)

  // A subnegotiation payload contains no IAC SE pair of its own.
  predicate WellFormed(x: Item) {
    match x
    case Data(_) => true
    case Command(code) => code != IAC && code != SB && !Verb(code)
    case Negotiate(verb, _) => Verb(verb)
    case Subnegotiation(payload) => NoEnd(payload, 0)
  }

  predicate AllWellFormed(items: seq<Item>) {
    forall k :: 0 <= k < |items| ==> WellFormed(items[k])
  }

  function PrintItem(x: Item): Chunk {
    match x
    case Data(byte) => if byte == IAC then [IAC, IAC] else [byte]
    case Command(code) => [IAC, code]
    case Negotiate(verb, option) => [IAC, verb, option]
    case Subnegotiation(payload) => [IAC, SB] + payload + [IAC, SE]
  }

  function Print(items: seq<Item>): Chunk {
    if items == [] then [] else PrintItem(items[0]) + Print(items[1..])
  }

  function DataOf(items: seq<Item>): Chunk {
    if items == [] then [] else (if items[0].Data? then [items[0].byte] else []) + DataOf(items[1..])
  }

  // The refusal each negotiation gets: WONT for DO and DONT, DONT for WILL and WONT, same option.
  function Refusal(x: Item): Chunk {
    if !x.Negotiate? then [] else [IAC, RefusalVerb(x.verb), x.option]
  }

  function RefusalVerb(verb: bv8): bv8 {
    if verb == DO || verb == DONT then WONT else DONT
  }

  function RefusalsOf(items: seq<Item>): Chunk {
    if items == [] then [] else Refusal(items[0]) + RefusalsOf(items[1..])
  }

  lemma {:induction false} EndAfterPayload(s: Chunk, i: nat, e: nat)
    requires i <= e && PairAt(s, e)
    requires forall k :: i <= k < e ==> !PairAt(s, k)
    ensures SubnegotiationEnd(s, i) == e
    decreases e - i
  {
    if i < e {
      EndAfterPayload(s, i + 1, e);
    }
  }

  // The first block of a printed subnegotiation is the whole of it exactly when its payload has no
  // IAC SE pair; otherwise it stops short, inside the payload.
  lemma SubnegotiationBlock(payload: Chunk, rest: Chunk)
    ensures var b := IacBlock(PrintItem(Subnegotiation(payload)) + rest);
            && b.reply == [] && 0 < b.consumed <= |payload| + 4
            && (b.consumed == |payload| + 4 <==> NoEnd(payload, 0))
  {
    var s := PrintItem(Subnegotiation(payload)) + rest;
    var n := |payload|;
    assert PairAt(s, 2 + n);
    EndIsFirstPair(s, 2);
    forall k | 0 <= k < n ensures PairAt(payload, k) ==> PairAt(s, k + 2) {
      assert s[2 + k] == payload[k];
    }
    if NoEnd(payload, 0) {
      forall k | 2 <= k < 2 + n ensures !PairAt(s, k) {
        assert s[k] == payload[k - 2] && !PairAt(payload, k - 2);
      }
      EndAfterPayload(s, 2, 2 + n);
    }
  }

  lemma DecodeItem(x: Item, rest: Chunk)
    requires WellFormed(x)
    ensures Decode(PrintItem(x) + rest) == Prepend(if x.Data? then [x.byte] else [], Refusal(x), Decode(rest))
  {
    var p := PrintItem(x);
    var s := p + rest;
    assert s[|p|..] == rest;
    match x
    case Data(byte) =>
    case Command(code) =>
    case Negotiate(verb, option) =>
    case Subnegotiation(payload) => SubnegotiationBlock(payload, rest);
  }

  // Printing and then decoding gives back the data, one refusal per negotiation in order, and no tail.
  lemma {:induction false} PrintThenDecode(items: seq<Item>)
    requires AllWellFormed(items)
    ensures Decode(Print(items)) == Decoded(DataOf(items), RefusalsOf(items), [])
    decreases |items|
  {
    if items != [] {
      DecodeItem(items[0], Print(items[1..]));
      PrintThenDecode(items[1..]);
    }
  }

  lemma PrintThenDecodeChunked(items: seq<Item>, parts: seq<Chunk>)
    requires AllWellFormed(items) && Flatten(parts) == Print(items)
    ensures DecodeReads([], parts) == Decoded(DataOf(items), RefusalsOf(items), [])
  {
    ChunkingInvariance(parts, parts);
    PrintThenDecode(items);
  }

  // The item at the front of a stream.
  function FirstItem(s: Chunk): Item
    requires s != [] && Front(s).consumed > 0
  {
    if s[0] != IAC || s[1] == IAC then Data(s[0])
    else if Verb(s[1]) then Negotiate(s[1], s[2])
    else if s[1] == SB then EndIsFirstPair(s, 2); Subnegotiation(s[2..Front(s).consumed - 2])
    else Command(s[1])
  }

  // The items a stream consists of, up to its incomplete end.
  function Parse(s: Chunk): seq<Item>
    decreases |s|
  {
    if s == [] || Front(s).consumed == 0 then []
    else [FirstItem(s)] + Parse(s[Front(s).consumed..])
  }

  lemma FirstItemPrints(s: Chunk)
    requires s != [] && Front(s).consumed > 0
    ensures WellFormed(FirstItem(s)) && PrintItem(FirstItem(s)) == s[..Front(s).consumed]
  {
    if s[0] == IAC && s[1] == SB {
      var n := Front(s).consumed;
      EndIsFirstPair(s, 2);
      var payload := s[2..n - 2];
      assert s[n - 2] == IAC && s[n - 1] == SE;
      assert s[..n] == s[..2] + payload + s[n - 2..n];
      assert s[..n] == [IAC, SB] + payload + [IAC, SE];
      forall k | 0 <= k < |payload| ensures !PairAt(payload, k) {
        assert !PairAt(s, k + 2) && payload[k] == s[k + 2];
      }
    }
  }

  lemma ConsItem(x: Item, items: seq<Item>, tail: Chunk)
    requires WellFormed(x) && AllWellFormed(items)
    ensures AllWellFormed([x] + items)
    ensures Print([x] + items) + tail == PrintItem(x) + (Print(items) + tail)
    ensures DataOf([x] + items) == (if x.Data? then [x.byte] else []) + DataOf(items)
    ensures RefusalsOf([x] + items) == Refusal(x) + RefusalsOf(items)
  {
    assert ([x] + items)[1..] == items;
  }

  // What a stream decodes to is accounted for by `items` and the tail.
  predicate AccountsFor(items: seq<Item>, s: Chunk) {
    var d := Decode(s);
    && AllWellFormed(items)
    && s == Print(items) + d.tail
    && d.data == DataOf(items)
    && d.replies == RefusalsOf(items)
  }

  // Items that account for a suffix, preceded by an item that prints to what comes before it.
  lemma ParseStep(first: Chunk, rest: Chunk, x: Item, items: seq<Item>)
    requires WellFormed(x) && PrintItem(x) == first && AccountsFor(items, rest)
    ensures AccountsFor([x] + items, first + rest)
  {
    DecodeItem(x, rest);
    ConsItem(x, items, Decode(rest).tail);
  }

  lemma Halves(s: Chunk, n: nat)
    requires n <= |s|
    ensures s[..n] + s[n..] == s
  {
  }

  // The decoder is complete: every byte stream is the print of well-formed items followed by the tail,
  // and what the decoder reported is the data and the refusals of those items.
  lemma {:induction false} EveryStreamParses(s: Chunk)
    ensures AccountsFor(Parse(s), s)
    decreases |s|
  {
    if s != [] && Front(s).consumed > 0 {
      var n := Front(s).consumed;
      var rest := s[n..];
      FirstItemPrints(s);
      EveryStreamParses(rest);
      ParseStep(s[..n], rest, FirstItem(s), Parse(rest));
      Halves(s, n);
    }
  }

  // ---- byte by byte ---------------------------------------------------------------------------

  // The stream decodes to `data` and draws `reply`, and then goes on as `rest`.
  predicate GoesOn(s: Chunk, data: Chunk, reply: Chunk, rest: Chunk) {
    && Decode(s).data == data + Decode(rest).data
    && Decode(s).replies == reply + Decode(rest).replies
    && Decode(s).tail == Decode(rest).tail
  }

  // DO and DONT (253, 254) are answered WONT (252), WILL and WONT (251, 252) are answered DONT (254), for
  // every option and whatever follows.
  lemma NegotiationBytes(option: bv8, rest: Chunk)
    ensures GoesOn([0xFF, 0xFD, option] + rest, [], [0xFF, 0xFC, option], rest)
    ensures GoesOn([0xFF, 0xFE, option] + rest, [], [0xFF, 0xFC, option], rest)
    ensures GoesOn([0xFF, 0xFB, option] + rest, [], [0xFF, 0xFE, option], rest)
    ensures GoesOn([0xFF, 0xFC, option] + rest, [], [0xFF, 0xFE, option], rest)
  {
    DecodeItem(Negotiate(0xFD, option), rest);
    DecodeItem(Negotiate(0xFE, option), rest);
    DecodeItem(Negotiate(0xFB, option), rest);
    DecodeItem(Negotiate(0xFC, option), rest);
  }

  // From FF FA on, everything up to the first FF F0 is skipped.
  lemma SubnegotiationBytes(payload: Chunk, rest: Chunk)
    requires forall k :: 0 <= k < |payload| - 1 ==> payload[k] != 0xFF || payload[k + 1] != 0xF0
    ensures GoesOn([0xFF, 0xFA] + payload + [0xFF, 0xF0] + rest, [], [], rest)
  {
    DecodeItem(Subnegotiation(payload), rest);
  }

  // Any other command is skipped; a doubled FF is one byte of data, and so is every other byte.
  lemma CommandBytes(code: bv8, rest: Chunk)
    ensures code < 0xFA ==> GoesOn([0xFF, code] + rest, [], [], rest)
    ensures GoesOn([0xFF, 0xFF] + rest, [0xFF], [], rest)
    ensures code != 0xFF ==> GoesOn([code] + rest, [code], [], rest)
  {
    if code < 0xFA {
      DecodeItem(Command(code), rest);
    }
    DecodeItem(Data(0xFF), rest);
    if code != 0xFF {
      DecodeItem(Data(code), rest);
    }
  }

  // What waits for more bytes: a lone FF, a verb without its option, and FF FA without FF F0 after it.
  lemma PendingVerb(verb: bv8)
    requires verb == 0xFB || verb == 0xFC || verb == 0xFD || verb == 0xFE
    ensures Decode([0xFF]) == Decoded([], [], [0xFF])
    ensures Decode([0xFF, verb]) == Decoded([], [], [0xFF, verb])
  {
    DecodeTail([0xFF]);
    DecodeTail([0xFF, verb]);
  }

  lemma PendingSubnegotiation(s: Chunk)
    requires |s| >= 2 && s[0] == 0xFF && s[1] == 0xFA
    requires forall k :: 2 <= k < |s| - 1 ==> s[k] != 0xFF || s[k + 1] != 0xF0
    ensures Decode(s) == Decoded([], [], s)
  {
    assert NoEnd(s, 2);
    DecodeTail(s);
  }

  function Count(b: bv8, s: Chunk): nat {
    if s == [] then 0 else (if s[0] == b then 1 else 0) + Count(b, s[1..])
  }

  // Escaping costs one byte for every FF, and nothing else.
  lemma {:induction false} EscapeLength(s: Chunk)
    ensures |Escape(s)| == |s| + Count(0xFF, s)
  {
    if s != [] {
      EscapeLength(s[1..]);
    }
  }

  // ---- refusals answer refusals ---------------------------------------------------------------

  // Two such drivers facing each other: the answer to a stream, the answer to that answer, and so on.
  function Answers(s: Chunk, rounds: nat): Chunk
    decreases rounds
  {
    if rounds == 0 then s else Answers(Decode(s).replies, rounds - 1)
  }

  predicate NoNegotiation(items: seq<Item>) {
    forall k :: 0 <= k < |items| ==> !items[k].Negotiate?
  }

  // A stream draws no answer exactly when it contains no negotiation.
  lemma QuietIffNoNegotiation(s: Chunk)
    ensures Decode(s).replies == [] <==> NoNegotiation(Parse(s))
  {
    EveryStreamParses(s);
    QuietItems(Parse(s));
  }

  lemma {:induction false} QuietItems(items: seq<Item>)
    ensures RefusalsOf(items) == [] <==> NoNegotiation(items)
  {
    if items != [] {
      QuietItems(items[1..]);
      assert forall k :: 0 < k < |items| ==> items[k] == items[1..][k - 1];
    }
  }

  predicate AllNegotiate(items: seq<Item>) {
    forall k :: 0 <= k < |items| ==> items[k].Negotiate?
  }

  // The refusals the items draw, as items of their own.
  function RefusalItems(items: seq<Item>): seq<Item> {
    if items == [] then []
    else
      (if items[0].Negotiate? then [Negotiate(RefusalVerb(items[0].verb), items[0].option)] else [])
      + RefusalItems(items[1..])
  }

  lemma {:induction false} RefusalsAreItems(items: seq<Item>)
    ensures RefusalsOf(items) == Print(RefusalItems(items))
    ensures AllWellFormed(RefusalItems(items)) && AllNegotiate(RefusalItems(items))
  {
    if items != [] {
      RefusalsAreItems(items[1..]);
      if items[0].Negotiate? {
        ConsNegotiation(Negotiate(RefusalVerb(items[0].verb), items[0].option), RefusalItems(items[1..]));
      } else {
        assert [] + RefusalItems(items[1..]) == RefusalItems(items[1..]);
        assert [] + RefusalsOf(items[1..]) == RefusalsOf(items[1..]);
      }
    }
  }

  lemma ConsNegotiation(x: Item, items: seq<Item>)
    requires x.Negotiate? && WellFormed(x) && AllWellFormed(items) && AllNegotiate(items)
    ensures AllWellFormed([x] + items) && AllNegotiate([x] + items)
    ensures Print([x] + items) == PrintItem(x) + Print(items)
  {
    assert ([x] + items)[1..] == items;
  }

  lemma {:induction false} RefusalCount(items: seq<Item>)
    ensures RefusalItems(items) == [] <==> NoNegotiation(items)
    ensures AllNegotiate(items) ==> |RefusalItems(items)| == |items|
  {
    if items != [] {
      RefusalCount(items[1..]);
      assert forall k :: 0 < k < |items| ==> items[k] == items[1..][k - 1];
    }
  }

  // The items exchanged in round after round.
  function Exchanged(items: seq<Item>, rounds: nat): seq<Item>
    decreases rounds
  {
    if rounds == 0 then items else Exchanged(RefusalItems(items), rounds - 1)
  }

  lemma {:induction false} AnswersArePrinted(items: seq<Item>, rounds: nat)
    requires AllWellFormed(items)
    ensures Answers(Print(items), rounds) == Print(Exchanged(items, rounds))
    decreases rounds
  {
    if rounds > 0 {
      PrintThenDecode(items);
      RefusalsAreItems(items);
      AnswersArePrinted(RefusalItems(items), rounds - 1);
    }
  }

  // The refusal that `verb` has become after some rounds: DONT and WONT alternate.
  function Alternating(verb: bv8, rounds: nat): bv8 {
    if rounds % 2 == 0 then verb else RefusalVerb(verb)
  }

  lemma {:induction false} RefusalAlternates(verb: bv8, option: bv8, rounds: nat)
    requires verb == DONT || verb == WONT
    ensures Exchanged([Negotiate(verb, option)], rounds) == [Negotiate(Alternating(verb, rounds), option)]
    decreases rounds
  {
    if rounds > 0 {
      var items := [Negotiate(verb, option)];
      assert items[1..] == [] && RefusalItems(items) == [Negotiate(RefusalVerb(verb), option)];
      RefusalAlternates(RefusalVerb(verb), option, rounds - 1);
    }
  }

  // RFC 854, "GENERAL CONSIDERATIONS", asks for rules under which negotiation cannot loop for ever. The
  // driver answers DONT with WONT and WONT with DONT, so one refusal is answered for ever.
  lemma RefusalsNeverEnd(verb: bv8, option: bv8, rounds: nat)
    requires verb == DONT || verb == WONT
    ensures Answers([IAC, verb, option], rounds) == [IAC, Alternating(verb, rounds), option]
  {
    RefusalAlternates(verb, option, rounds);
    AnswersArePrinted([Negotiate(verb, option)], rounds);
    PrintSingle(Negotiate(verb, option));
    PrintSingle(Negotiate(Alternating(verb, rounds), option));
  }

  lemma PrintSingle(x: Item)
    ensures Print([x]) == PrintItem(x)
  {
    assert Print([x]) == PrintItem(x) + Print([]);
  }

  lemma {:induction false} ExchangeKeepsCount(items: seq<Item>, rounds: nat)
    requires AllNegotiate(items)
    ensures AllNegotiate(Exchanged(items, rounds)) && |Exchanged(items, rounds)| == |items|
    decreases rounds
  {
    if rounds > 0 {
      RefusalsAreItems(items);
      RefusalCount(items);
      ExchangeKeepsCount(RefusalItems(items), rounds - 1);
    }
  }

  lemma {:induction false} PrintedNegotiations(items: seq<Item>)
    requires AllNegotiate(items)
    ensures |Print(items)| == 3 * |items|
  {
    if items != [] {
      PrintedNegotiations(items[1..]);
    }
  }

  // Which streams start an exchange that never ends: exactly those that contain a negotiation. Every round
  // carries one refusal for each negotiation of the stream.
  lemma ExchangeEndsIffNoNegotiation(s: Chunk, rounds: nat)
    requires rounds > 0
    ensures Answers(s, rounds) == Print(Exchanged(RefusalItems(Parse(s)), rounds - 1))
    ensures |Answers(s, rounds)| == 3 * |RefusalItems(Parse(s))|
    ensures Answers(s, rounds) == [] <==> NoNegotiation(Parse(s))
  {
    var answers := RefusalItems(Parse(s));
    EveryStreamParses(s);
    RefusalsAreItems(Parse(s));
    RefusalCount(Parse(s));
    AnswersArePrinted(answers, rounds - 1);
    ExchangeKeepsCount(answers, rounds - 1);
    PrintedNegotiations(Exchanged(answers, rounds - 1));
  }

  // ---- subnegotiations with doubled IAC -------------------------------------------------------

  // RFC 855 has IAC doubled inside a subnegotiation; the scan of the driver does not undo it. The
  // doubled payload is skipped as one block exactly when the plain payload has no IAC SE pair.
  lemma DoubledSubnegotiation(payload: Chunk, rest: Chunk)
    ensures var b := IacBlock(PrintItem(Subnegotiation(Escape(payload))) + rest);
            b.consumed == |Escape(payload)| + 4 <==> NoEnd(payload, 0)
  {
    SubnegotiationBlock(Escape(payload), rest);
    EscapeKeepsPairs(payload);
  }

  lemma {:induction false} EscapeKeepsPairs(s: Chunk)
    ensures NoEnd(Escape(s), 0) <==> NoEnd(s, 0)
    ensures s != [] ==> Escape(s) != [] && Escape(s)[0] == s[0]
  {
    if s != [] {
      var e, r := Escape(s), Escape(s[1..]);
      EscapeKeepsPairs(s[1..]);
      assert forall k :: 0 <= k < |s| - 1 ==> s[k + 1] == s[1..][k];
      var d := if s[0] == IAC then 2 else 1;
      assert e[d..] == r;
      assert |s| > 1 ==> e[d] == r[0] == s[1];
      assert PairAt(e, d - 1) <==> PairAt(s, 0);
      PairsOfTail(s, 1);
      PairsOfTail(e, d);
    }
  }

  // Pairs of a sequence are those of a suffix plus those that begin before it.
  lemma PairsOfTail(s: Chunk, d: nat)
    requires d <= |s|
    ensures NoEnd(s, 0) <==> NoEnd(s[d..], 0) && (forall k :: 0 <= k < d ==> !PairAt(s, k))
  {
    forall k | 0 <= k < |s[d..]| ensures PairAt(s[d..], k) <==> PairAt(s, d + k) {
    }
    forall k | d <= k < |s| ensures PairAt(s, k) <==> PairAt(s[d..], k - d) {
    }
  }
}
