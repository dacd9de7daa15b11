/** End-of-line rewriting (eol.rs), and its use on the two streams of the serial driver (serial.rs). */
module Eol {
  import opened Sequences

  const CR: bv8 := 0x0D
  const LF: bv8 := 0x0A
  const CRLF: Chunk := [CR, LF]

  datatype EolMode = AsIs | Lf | Crlf | Cr

  // A CRLF pair stands at the front.
  predicate CrlfAhead(s: Chunk) {
    |s| >= 2 && s[0] == CR && s[1] == LF
  }

  // What the loop writes for the byte at the front of `s`, and how many bytes it steps over.
  function Unit(mode: EolMode, s: Chunk): Chunk
    requires s != []
  {
    match mode
    case AsIs => [s[0]]
    case Lf => if s[0] == CR then (if CrlfAhead(s) then CRLF else [LF]) else [s[0]]
    case Crlf => if s[0] == CR || s[0] == LF then CRLF else [s[0]]
    case Cr => if s[0] == LF then [CR] else [s[0]]
  }

  function Stride(mode: EolMode, s: Chunk): (n: nat)
    requires s != []
    ensures 1 <= n <= |s|
  {
    if (mode == Lf || mode == Crlf) && CrlfAhead(s) then 2 else 1
  }

  function Transform(mode: EolMode, s: Chunk): Chunk
    decreases |s|
  {
    if s == [] then [] else Unit(mode, s) + Transform(mode, s[Stride(mode, s)..])
  }

  method TransformBytes(mode: EolMode, input: Chunk) returns (out: Chunk)
    ensures out == Transform(mode, input)
  {
    if mode == AsIs || input == [] {
      AsIsIdentity(input);
      return input;
    }
    out := [];
    ghost var whole, rest := Transform(mode, input), input;
    var i := 0;
    while i < |input|
      invariant 0 <= i <= |input| && rest == input[i..]
      invariant whole == out + Transform(mode, rest)
    {
      var b := input[i];
      TransformUnroll(mode, rest, out);
      rest := rest[Stride(mode, rest)..];
      if mode == Lf && b == CR {
        if i + 1 < |input| && input[i + 1] == LF {
          out := out + [CR, LF];
          i := i + 2;
          continue;
        }
        out := out + [LF];
      } else if mode == Crlf && b == CR {
        if i + 1 < |input| && input[i + 1] == LF {
          out := out + [CR, LF];
          i := i + 2;
          continue;
        }
        out := out + [CR, LF];
      } else if mode == Crlf && b == LF {
        out := out + [CR, LF];
      } else if mode == Cr && b == LF {
        out := out + [CR];
      } else {
        out := out + [b];
      }
      i := i + 1;
    }
  }

  // One turn of the loop, seen from the specification.
  lemma TransformUnroll(mode: EolMode, rest: Chunk, out: Chunk)
    requires rest != []
    ensures out + Transform(mode, rest) == out + Unit(mode, rest) + Transform(mode, rest[Stride(mode, rest)..])
  {
    Associative(out, Unit(mode, rest), Transform(mode, rest[Stride(mode, rest)..]));
  }

  lemma {:induction false} AsIsIdentity(s: Chunk)
    ensures Transform(AsIs, s) == s
  {
    if s != [] {
      AsIsIdentity(s[1..]);
    }
  }

  // ---- byte by byte ---------------------------------------------------------------------------

  // The transform writes `unit`, and then goes on as `rest`.
  predicate GoesOn(mode: EolMode, s: Chunk, unit: Chunk, rest: Chunk) {
    Transform(mode, s) == unit + Transform(mode, rest)
  }

  // CR is 13 and LF is 10; CR LF stays in the modes that look for it, and is two bytes to Cr mode.
  lemma BreakBytes(rest: Chunk)
    ensures GoesOn(Lf, [13, 10] + rest, [13, 10], rest) && GoesOn(Crlf, [13, 10] + rest, [13, 10], rest)
    ensures GoesOn(Cr, [13, 10] + rest, [13, 13], rest)
    ensures rest == [] || rest[0] != 10 ==>
              GoesOn(Lf, [13] + rest, [10], rest) && GoesOn(Crlf, [13] + rest, [13, 10], rest)
    ensures GoesOn(Cr, [13] + rest, [13], rest)
    ensures GoesOn(Lf, [10] + rest, [10], rest) && GoesOn(Crlf, [10] + rest, [13, 10], rest)
    ensures GoesOn(Cr, [10] + rest, [13], rest)
  {
    assert ([13, 10] + rest)[1..] == [10] + rest && ([13, 10] + rest)[2..] == rest;
    assert ([13] + rest)[1..] == rest && ([10] + rest)[1..] == rest;
  }

  lemma OtherBytes(mode: EolMode, b: bv8, rest: Chunk)
    requires b != 13 && b != 10
    ensures GoesOn(mode, [b] + rest, [b], rest)
  {
    assert ([b] + rest)[1..] == rest;
  }

  // ---- lines ----------------------------------------------------------------------------------

  // The lines of a text: split at CRLF, CR and LF, the longest terminator first. Never empty.
  function Lines(s: Chunk): (lines: seq<Chunk>)
    ensures lines != []
    decreases |s|
  {
    if s == [] then [[]]
    else if CrlfAhead(s) then [[]] + Lines(s[2..])
    else if s[0] == CR || s[0] == LF then [[]] + Lines(s[1..])
    else Glue(s[0], Lines(s[1..]))
  }

  // The first line grows by a byte at its front.
  function Glue(b: bv8, lines: seq<Chunk>): (r: seq<Chunk>)
    requires lines != []
    ensures |r| == |lines|
  {
    [[b] + lines[0]] + lines[1..]
  }

  function JoinCrlf(lines: seq<Chunk>): Chunk
    requires lines != []
  {
    if |lines| == 1 then lines[0] else lines[0] + CRLF + JoinCrlf(lines[1..])
  }

  // Crlf mode is: split into lines, join with CRLF.
  lemma {:induction false} CrlfIsJoin(s: Chunk)
    ensures Transform(Crlf, s) == JoinCrlf(Lines(s))
    decreases |s|
  {
    if s != [] {
      var rest := s[Stride(Crlf, s)..];
      CrlfIsJoin(rest);
      if s[0] == CR || s[0] == LF {
        assert Lines(s) == [[]] + Lines(rest);
        assert Lines(s)[1..] == Lines(rest);
      } else {
        var r := Lines(rest);
        assert Glue(s[0], r)[1..] == r[1..];
        if |r| > 1 {
          assert [s[0]] + (r[0] + CRLF + JoinCrlf(r[1..])) == [s[0]] + r[0] + CRLF + JoinCrlf(r[1..]);
        }
      }
    }
  }

  lemma {:induction false} LfKeepsLines(s: Chunk)
    ensures Lines(Transform(Lf, s)) == Lines(s)
    decreases |s|
  {
    if s != [] {
      var rest := s[Stride(Lf, s)..];
      var t := Transform(Lf, s);
      LfKeepsLines(rest);
      assert t[|Unit(Lf, s)|..] == Transform(Lf, rest);
    }
  }

  lemma {:induction false} CrlfKeepsLines(s: Chunk)
    ensures Lines(Transform(Crlf, s)) == Lines(s)
    decreases |s|
  {
    if s != [] {
      var rest := s[Stride(Crlf, s)..];
      var t := Transform(Crlf, s);
      CrlfKeepsLines(rest);
      assert t[|Unit(Crlf, s)|..] == Transform(Crlf, rest);
    }
  }

  // Crlf after anything that keeps the lines is Crlf: idempotence and one half of absorption.
  lemma {:induction false} CrlfAbsorbs(s: Chunk)
    ensures Transform(Crlf, Transform(Crlf, s)) == Transform(Crlf, s)
    ensures Transform(Crlf, Transform(Lf, s)) == Transform(Crlf, s)
  {
    CrlfIsJoin(s);
    CrlfIsJoin(Transform(Crlf, s));
    CrlfIsJoin(Transform(Lf, s));
    CrlfKeepsLines(s);
    LfKeepsLines(s);
  }

  // Every CR is followed by an LF.
  predicate NoLoneCr(s: Chunk) {
    forall k :: 0 <= k < |s| && s[k] == CR ==> k + 1 < |s| && s[k + 1] == LF
  }

  // Lf mode, byte by byte: a CR not followed by LF becomes LF, everything else stays in place.
  function LfByte(s: Chunk, k: nat): bv8
    requires k < |s|
  {
    if s[k] == CR && !(k + 1 < |s| && s[k + 1] == LF) then LF else s[k]
  }

  lemma {:induction false} LfAt(s: Chunk, k: nat)
    ensures |Transform(Lf, s)| == |s|
    ensures k < |s| ==> Transform(Lf, s)[k] == LfByte(s, k)
    decreases |s|
  {
    if s != [] {
      var n := Stride(Lf, s);
      LfAt(s[n..], if k >= n then k - n else 0);
    }
  }

  lemma {:induction false} LfPointwise(s: Chunk)
    ensures |Transform(Lf, s)| == |s|
    ensures forall k :: 0 <= k < |s| ==> Transform(Lf, s)[k] == LfByte(s, k)
  {
    LfAt(s, 0);
    forall k | 0 <= k < |s| ensures Transform(Lf, s)[k] == LfByte(s, k) {
      LfAt(s, k);
    }
  }

  // The fixed points of Lf mode are exactly the texts without a lone CR.
  lemma {:induction false} LfFixedPoints(s: Chunk)
    ensures Transform(Lf, s) == s <==> NoLoneCr(s)
  {
    LfPointwise(s);
    if NoLoneCr(s) {
      assert Transform(Lf, s) == s;
    }
  }

  lemma {:induction false} CrlfLeavesNoLoneCr(s: Chunk)
    ensures NoLoneCr(Transform(Crlf, s))
    decreases |s|
  {
    if s != [] {
      var rest := s[Stride(Crlf, s)..];
      CrlfLeavesNoLoneCr(rest);
      var u, t := Unit(Crlf, s), Transform(Crlf, rest);
      forall k | 0 <= k < |u + t| && (u + t)[k] == CR ensures k + 1 < |u + t| && (u + t)[k + 1] == LF {
        if k >= |u| {
          assert t[k - |u|] == CR;
          assert (u + t)[k + 1] == t[k - |u| + 1];
        }
      }
    }
  }

  lemma {:induction false} LfLeavesNoLoneCr(s: Chunk)
    ensures NoLoneCr(Transform(Lf, s))
  {
    LfPointwise(s);
  }

  // Lf is idempotent, and does nothing after Crlf.
  lemma {:induction false} LfAbsorbed(s: Chunk)
    ensures Transform(Lf, Transform(Lf, s)) == Transform(Lf, s)
    ensures Transform(Lf, Transform(Crlf, s)) == Transform(Crlf, s)
  {
    LfLeavesNoLoneCr(s);
    LfFixedPoints(Transform(Lf, s));
    CrlfLeavesNoLoneCr(s);
    LfFixedPoints(Transform(Crlf, s));
  }

  // ---- lengths --------------------------------------------------------------------------------

  // CRLF pairs, and the CRs and LFs outside such pairs.
  function Pairs(s: Chunk): nat
    decreases |s|
  {
    if s == [] then 0 else if CrlfAhead(s) then 1 + Pairs(s[2..]) else Pairs(s[1..])
  }

  function LoneBreaks(s: Chunk): nat
    decreases |s|
  {
    if s == [] then 0
    else if CrlfAhead(s) then LoneBreaks(s[2..])
    else (if s[0] == CR || s[0] == LF then 1 else 0) + LoneBreaks(s[1..])
  }

  lemma {:induction false} CrlfLength(s: Chunk)
    ensures |Transform(Crlf, s)| == |s| + LoneBreaks(s)
    ensures |Lines(s)| == 1 + Pairs(s) + LoneBreaks(s)
    decreases |s|
  {
    if s != [] {
      CrlfLength(s[Stride(Crlf, s)..]);
    }
  }

  // ---- Cr mode --------------------------------------------------------------------------------

  // Cr mode turns every LF into CR, also the one of a CRLF.
  lemma {:induction false} CrPointwise(s: Chunk)
    ensures |Transform(Cr, s)| == |s|
    ensures forall k :: 0 <= k < |s| ==> Transform(Cr, s)[k] == if s[k] == LF then CR else s[k]
  {
    if s != [] {
      CrPointwise(s[1..]);
    }
  }

  lemma {:induction false} NoLfLineCount(s: Chunk)
    requires LF !in s
    ensures Pairs(s) == 0 && |Lines(s)| == 1 + |Breaks(s)|
  {
    if s != [] {
      NoLfLineCount(s[1..]);
    }
  }

  // The CRs and LFs of a text.
  function Breaks(s: Chunk): Chunk {
    if s == [] then [] else (if s[0] == CR || s[0] == LF then [s[0]] else []) + Breaks(s[1..])
  }

  lemma {:induction false} BreaksSplit(s: Chunk)
    ensures |Breaks(s)| == 2 * Pairs(s) + LoneBreaks(s)
    decreases |s|
  {
    if s != [] {
      if CrlfAhead(s) {
        BreaksSplit(s[2..]);
        assert s[1..][0] == LF && s[1..][1..] == s[2..];
      } else {
        BreaksSplit(s[1..]);
      }
    }
  }

  lemma {:induction false} CrKeepsBreaks(s: Chunk)
    ensures LF !in Transform(Cr, s) && |Breaks(Transform(Cr, s))| == |Breaks(s)|
  {
    if s != [] {
      CrKeepsBreaks(s[1..]);
      assert Transform(Cr, s)[1..] == Transform(Cr, s[1..]);
    }
  }

  // Every CRLF becomes two breaks.
  lemma {:induction false} CrLineCount(s: Chunk)
    ensures |Lines(Transform(Cr, s))| == |Lines(s)| + Pairs(s)
  {
    CrKeepsBreaks(s);
    NoLfLineCount(Transform(Cr, s));
    BreaksSplit(s);
    CrlfLength(s);
  }

  lemma {:induction false} CrWithoutPairs(s: Chunk)
    requires Pairs(s) == 0
    ensures Lines(Transform(Cr, s)) == Lines(s)
  {
    if s != [] {
      CrWithoutPairs(s[1..]);
      CrKeepsBreaks(s);
      assert Transform(Cr, s)[1..] == Transform(Cr, s[1..]);
    }
  }

  // CR LF stands somewhere in the text.
  predicate HasCrlf(s: Chunk) {
    exists k :: 0 <= k < |s| && CrlfAhead(s[k..])
  }

  lemma {:induction false} NoPairsIffNoCrlf(s: Chunk)
    ensures Pairs(s) == 0 <==> !HasCrlf(s)
    decreases |s|
  {
    if s != [] {
      assert s[0..] == s;
      if !CrlfAhead(s) {
        NoPairsIffNoCrlf(s[1..]);
        forall k | 0 <= k < |s| - 1 ensures s[1..][k..] == s[k + 1..] {
        }
        forall k | 0 < k < |s| ensures s[k..] == s[1..][k - 1..] {
        }
      }
    }
  }

  // The comment on the mode promises to keep CRLF; the code does not. It keeps the lines of a text
  // exactly when the text has no CRLF.
  lemma CrKeepsLinesIffNoCrlf(s: Chunk)
    ensures Lines(Transform(Cr, s)) == Lines(s) <==> !HasCrlf(s)
  {
    CrLineCount(s);
    NoPairsIffNoCrlf(s);
    if Pairs(s) == 0 {
      CrWithoutPairs(s);
    }
  }

  lemma CrlfBecomesTwoCrs()
    ensures Transform(Cr, CRLF) == [CR, CR]
    ensures Lines(CRLF) == [[], []] && Lines(Transform(Cr, CRLF)) == [[], [], []]
  {
    assert CRLF[1..] == [LF] && [LF][1..] == [];
    assert Transform(Cr, [LF]) == [CR];
    assert CRLF[2..] == [];
    assert [CR, CR][1..] == [CR] && [CR][1..] == [];
    assert Lines([CR]) == [[], []];
  }

  // ---- chunks ---------------------------------------------------------------------------------

  // The cut between `a` and `b` splits a CRLF.
  predicate SplitsPair(a: Chunk, b: Chunk) {
    a != [] && b != [] && a[|a| - 1] == CR && b[0] == LF
  }

  lemma FrontOfConcat(mode: EolMode, a: Chunk, b: Chunk)
    requires a != [] && (mode == AsIs || mode == Cr || !SplitsPair(a, b))
    ensures var n := Stride(mode, a);
            && Stride(mode, a + b) == n && Unit(mode, a + b) == Unit(mode, a)
            && (a + b)[n..] == a[n..] + b
            && (mode == AsIs || mode == Cr || !SplitsPair(a[n..], b))
  {
    assert (a + b)[..|a|] == a;
  }

  lemma {:induction false} TransformConcat(mode: EolMode, a: Chunk, b: Chunk)
    requires mode == AsIs || mode == Cr || !SplitsPair(a, b)
    ensures Transform(mode, a + b) == Transform(mode, a) + Transform(mode, b)
    decreases |a|
  {
    if a == [] {
      assert a + b == b;
    } else {
      var rest := a[Stride(mode, a)..];
      FrontOfConcat(mode, a, b);
      TransformConcat(mode, rest, b);
      Associative(Unit(mode, a), Transform(mode, rest), Transform(mode, b));
    }
  }

  lemma FrontOfSplit(a: Chunk, b: Chunk)
    requires SplitsPair(a, b) && |a| > 1
    ensures var n := Stride(Crlf, a);
            && n < |a| && Stride(Crlf, a + b) == n && Unit(Crlf, a + b) == Unit(Crlf, a)
            && (a + b)[n..] == a[n..] + b
            && SplitsPair(a[n..], b)
  {
    assert (a + b)[0] == a[0] && (a + b)[1] == a[1];
  }

  // A CR at the end of `a`, with the LF at the front of `b`.
  lemma CrMeetsLf(a: Chunk, b: Chunk)
    requires SplitsPair(a, b) && |a| == 1
    ensures Transform(Crlf, a) == CRLF && Transform(Crlf, a + b) == CRLF + Transform(Crlf, b[1..])
  {
    assert (a + b)[2..] == b[1..];
    assert a[1..] == [];
  }

  // Across a split pair the CR still becomes what it becomes alone, and the LF is skipped.
  lemma {:induction false} CrlfAcrossSplit(a: Chunk, b: Chunk)
    requires SplitsPair(a, b)
    ensures Transform(Crlf, a + b) == Transform(Crlf, a) + Transform(Crlf, b[1..])
    decreases |a|
  {
    if |a| == 1 {
      CrMeetsLf(a, b);
    } else {
      var rest := a[Stride(Crlf, a)..];
      FrontOfSplit(a, b);
      CrlfAcrossSplit(rest, b);
      Associative(Unit(Crlf, a), Transform(Crlf, rest), Transform(Crlf, b[1..]));
    }
  }

  lemma SplitBreaksConcat(mode: EolMode, a: Chunk, b: Chunk)
    requires (mode == Lf || mode == Crlf) && SplitsPair(a, b)
    ensures Transform(mode, a + b) != Transform(mode, a) + Transform(mode, b)
    ensures mode == Lf ==> |Transform(mode, a)| == |a| && |Transform(mode, a + b)| == |a + b|
    ensures mode == Lf ==> Transform(mode, a + b)[|a| - 1] != Transform(mode, a)[|a| - 1]
  {
    if mode == Lf {
      LfAt(a + b, |a| - 1);
      LfAt(a, |a| - 1);
    } else {
      CrlfAcrossSplit(a, b);
      assert Transform(Crlf, b) == CRLF + Transform(Crlf, b[1..]);
    }
  }

  // Exactly when a transform distributes over a cut.
  lemma DistributesIff(mode: EolMode, a: Chunk, b: Chunk)
    ensures Transform(mode, a + b) == Transform(mode, a) + Transform(mode, b)
            <==> (mode == AsIs || mode == Cr || !SplitsPair(a, b))
  {
    if mode == AsIs || mode == Cr || !SplitsPair(a, b) {
      TransformConcat(mode, a, b);
    } else {
      SplitBreaksConcat(mode, a, b);
    }
  }

  // Some boundary between consecutive chunks splits a CRLF of the stream.
  predicate SplitsSomewhere(chunks: seq<Chunk>) {
    chunks != [] && (SplitsPair(chunks[0], Flatten(chunks[1..])) || SplitsSomewhere(chunks[1..]))
  }

  function TransformEach(mode: EolMode, chunks: seq<Chunk>): seq<Chunk> {
    if chunks == [] then [] else [Transform(mode, chunks[0])] + TransformEach(mode, chunks[1..])
  }

  // Chunk by chunk, Crlf mode never writes less than it would for the whole stream.
  lemma {:induction false} ChunkedAtLeast(chunks: seq<Chunk>)
    ensures |Flatten(TransformEach(Crlf, chunks))| >= |Transform(Crlf, Flatten(chunks))|
  {
    if chunks != [] {
      var a, b := chunks[0], Flatten(chunks[1..]);
      ChunkedAtLeast(chunks[1..]);
      assert TransformEach(Crlf, chunks)[1..] == TransformEach(Crlf, chunks[1..]);
      if SplitsPair(a, b) {
        CrlfAcrossSplit(a, b);
        assert Transform(Crlf, b) == CRLF + Transform(Crlf, b[1..]);
      } else {
        TransformConcat(Crlf, a, b);
      }
    }
  }

  lemma FirstSplitShows(mode: EolMode, chunks: seq<Chunk>)
    requires (mode == Lf || mode == Crlf) && chunks != [] && SplitsPair(chunks[0], Flatten(chunks[1..]))
    ensures Flatten(TransformEach(mode, chunks)) != Transform(mode, Flatten(chunks))
  {
    var a, b := chunks[0], Flatten(chunks[1..]);
    var each := TransformEach(mode, chunks);
    assert each[1..] == TransformEach(mode, chunks[1..]);
    if mode == Lf {
      SplitBreaksConcat(Lf, a, b);
      LfAt(a, 0);
      LfAt(a + b, 0);
      assert Flatten(each)[|a| - 1] == Transform(Lf, a)[|a| - 1];
    } else {
      CrlfAcrossSplit(a, b);
      ChunkedAtLeast(chunks[1..]);
      assert Transform(Crlf, b) == CRLF + Transform(Crlf, b[1..]);
    }
  }

  // Transforming chunk by chunk yields the transform of the whole stream exactly when no boundary
  // splits a CRLF; in AsIs and Cr modes it always does.
  lemma {:induction false} ChunkedIff(mode: EolMode, chunks: seq<Chunk>)
    ensures Flatten(TransformEach(mode, chunks)) == Transform(mode, Flatten(chunks))
            <==> (mode == AsIs || mode == Cr || !SplitsSomewhere(chunks))
    decreases |chunks|
  {
    if chunks != [] {
      var a, b := chunks[0], Flatten(chunks[1..]);
      var each := TransformEach(mode, chunks);
      assert each[1..] == TransformEach(mode, chunks[1..]);
      ChunkedIff(mode, chunks[1..]);
      if (mode == Lf || mode == Crlf) && SplitsPair(a, b) {
        FirstSplitShows(mode, chunks);
      } else {
        TransformConcat(mode, a, b);
        var t := Transform(mode, a);
        assert t + Flatten(each[1..]) == t + Transform(mode, b) ==> Flatten(each[1..]) == Transform(mode, b) by {
          assert (t + Flatten(each[1..]))[|t|..] == Flatten(each[1..]);
          assert (t + Transform(mode, b))[|t|..] == Transform(mode, b);
        }
      }
    }
  }

  // ---- the serial driver ----------------------------------------------------------------------

  // The two arms of `SerialDriver::run` that move bytes; each transforms the chunk at hand.
  class SerialDriver {
    const inputEol: EolMode
    const outputEol: EolMode
    var outputs: seq<Chunk>  // the Output events sent
    var wire: Chunk          // everything written to the port
    ghost var received: seq<Chunk>
    ghost var sent: seq<Chunk>

    ghost predicate Valid()
      reads this
    {
      outputs == TransformEach(outputEol, received) && wire == Flatten(TransformEach(inputEol, sent))
    }

    constructor (inputEol: EolMode, outputEol: EolMode)
      ensures Valid() && received == [] && sent == []
      ensures this.inputEol == inputEol && this.outputEol == outputEol
    {
      this.inputEol, this.outputEol := inputEol, outputEol;
      outputs, wire, received, sent := [], [], [], [];
    }

    method Read(chunk: Chunk)
      requires Valid()
      modifies this`outputs, this`received
      ensures Valid() && received == old(received) + [chunk]
      ensures Flatten(outputs) == Transform(outputEol, Flatten(received))
              <==> (outputEol == AsIs || outputEol == Cr || !SplitsSomewhere(received))
    {
      var out := TransformBytes(outputEol, chunk);
      EachSnoc(outputEol, received, chunk);
      outputs := outputs + [out];
      received := received + [chunk];
      ChunkedIff(outputEol, received);
    }

    method Write(b: Chunk)
      requires Valid()
      modifies this`wire, this`sent
      ensures Valid() && sent == old(sent) + [b]
      ensures wire == Transform(inputEol, Flatten(sent))
              <==> (inputEol == AsIs || inputEol == Cr || !SplitsSomewhere(sent))
    {
      var out := TransformBytes(inputEol, b);
      EachSnoc(inputEol, sent, b);
      FlattenSnoc(TransformEach(inputEol, sent), out);
      wire := wire + out;
      sent := sent + [b];
      ChunkedIff(inputEol, sent);
    }
  }

  lemma {:induction false} EachSnoc(mode: EolMode, chunks: seq<Chunk>, x: Chunk)
    ensures TransformEach(mode, chunks + [x]) == TransformEach(mode, chunks) + [Transform(mode, x)]
  {
    if chunks == [] {
      assert chunks + [x] == [x] && [x][1..] == [];
    } else {
      assert (chunks + [x])[1..] == chunks[1..] + [x];
      EachSnoc(mode, chunks[1..], x);
    }
  }
}
