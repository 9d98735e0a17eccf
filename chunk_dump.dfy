/**
 * A dumper for the parts of a prototype, written the way the reference Lua 5.4 dumper lays
 * them out, and the round trips that tie it to the loader of ChunkFormat: the upvalue and
 * local-variable records, every count-prefixed table, a whole prototype without nested
 * prototypes, and a whole chunk around such a prototype.
 */
module ChunkDump {
  import opened Outcomes
  import opened BinchunkConst
  import opened BinchunkTypes
  import opened ChunkFormat
  import opened ChunkCodec
  import ChunkTree

  /** Reading a + b at p is reading a at p and then b right after it. */
  lemma {:induction false} Peel(d: seq<byte>, p: nat, a: seq<byte>, b: seq<byte>)
    requires p + |a + b| <= |d| && d[p..p + |a + b|] == a + b
    ensures d[p..p + |a|] == a && d[p + |a|..p + |a| + |b|] == b
  {
    SubSlice(d, p, p + |a + b|, 0, |a|);
    assert (a + b)[..|a|] == a;
    SubSlice(d, p, p + |a + b|, |a|, |a + b|);
    assert (a + b)[|a|..] == b;
  }

  // ---------------------------------------------------------------------------------------
  // Records (binchunk/reader.go:120-164)
  // ---------------------------------------------------------------------------------------

  /** An upvalue as three bytes: Instack, Idx, Kind. */
  function EncodeUpvalue(u: Upvalue): seq<byte>
  {
    [u.instack, u.idx, u.kind]
  }

  /** `loadUpvalue` reads the three bytes back in the order Instack, Idx, Kind. */
  lemma {:induction false} UpvalueRoundTrip(u: Upvalue, d: seq<byte>, p: nat)
    requires p + 3 <= |d| && d[p..p + 3] == EncodeUpvalue(u)
    ensures UpvalueAt(d, p) == Ok(Parsed(u, p + 3))
  {
    assert d[p] == d[p..p + 3][0] && d[p + 1] == d[p..p + 3][1] && d[p + 2] == d[p..p + 3][2];
  }

  /** The local variables the dumper can write: a name and a live range the reader accepts. */
  predicate LocVarEncodable(v: LocVar)
  {
    |v.varName| + 1 < INT_READ_LIMIT && 0 <= v.startPC < INT_READ_LIMIT && 0 <= v.endPC < INT_READ_LIMIT
  }

  /** A local variable as its name, then StartPC, then EndPC. */
  function EncodeLocVar(v: LocVar): seq<byte>
    requires LocVarEncodable(v)
  {
    EncodeString(v.varName) + EncodeUnsigned(v.startPC) + EncodeUnsigned(v.endPC)
  }

  /** `loadLocVar` reads the name, then StartPC, then EndPC, each right after the one before. */
  lemma {:induction false} LocVarFields(d: seq<byte>, p: nat, v: LocVar, q1: nat, q2: nat, q3: nat)
    requires p <= |d|
    requires StringAt(d, p) == Ok(Parsed(v.varName, q1))
    requires q1 <= |d| && IntAt(d, q1) == Ok(Parsed(v.startPC, q2))
    requires q2 <= |d| && IntAt(d, q2) == Ok(Parsed(v.endPC, q3))
    ensures LocVarAt(d, p) == Ok(Parsed(v, q3))
  {
  }

  /** The three fields of a written local variable lie one after another. */
  lemma {:induction false} LocVarPieces3(v: LocVar, d: seq<byte>, p: nat)
    requires LocVarEncodable(v)
    requires p + |EncodeLocVar(v)| <= |d| && d[p..p + |EncodeLocVar(v)|] == EncodeLocVar(v)
    ensures var a, b, c := EncodeString(v.varName), EncodeUnsigned(v.startPC), EncodeUnsigned(v.endPC);
      |EncodeLocVar(v)| == |a| + |b| + |c| &&
      d[p..p + |a|] == a && d[p + |a|..p + |a| + |b|] == b && d[p + |a| + |b|..p + |a| + |b| + |c|] == c
  {
    var a, b, c := EncodeString(v.varName), EncodeUnsigned(v.startPC), EncodeUnsigned(v.endPC);
    assert EncodeLocVar(v) == a + b + c;
    Peel(d, p, a + b, c);
    Peel(d, p, a, b);
  }

  /** The name of a written local variable is read back first. */
  lemma {:induction false} LocVarNameRead(v: LocVar, d: seq<byte>, p: nat)
    requires LocVarEncodable(v)
    requires p + |EncodeLocVar(v)| <= |d| && d[p..p + |EncodeLocVar(v)|] == EncodeLocVar(v)
    ensures StringAt(d, p) == Ok(Parsed(v.varName, p + |EncodeString(v.varName)|))
  {
    LocVarPieces3(v, d, p);
    StringRoundTrip(v.varName, d, p);
  }

  /** StartPC is read back after the name, and EndPC after StartPC. */
  lemma {:induction false} LocVarRangeRead(v: LocVar, d: seq<byte>, p: nat)
    requires LocVarEncodable(v)
    requires p + |EncodeLocVar(v)| <= |d| && d[p..p + |EncodeLocVar(v)|] == EncodeLocVar(v)
    ensures var q1 := p + |EncodeString(v.varName)|; var q2 := q1 + |EncodeUnsigned(v.startPC)|;
      q2 <= |d| && IntAt(d, q1) == Ok(Parsed(v.startPC, q2)) &&
      IntAt(d, q2) == Ok(Parsed(v.endPC, q2 + |EncodeUnsigned(v.endPC)|))
  {
    var a, b := EncodeString(v.varName), EncodeUnsigned(v.startPC);
    LocVarPieces3(v, d, p);
    IntRoundTrip(v.startPC, d, p + |a|);
    IntRoundTrip(v.endPC, d, p + |a| + |b|);
  }

  /** `loadLocVar` reads a written local variable back, name first. */
  lemma {:induction false} LocVarRoundTrip(v: LocVar, d: seq<byte>, p: nat)
    requires LocVarEncodable(v)
    requires p + |EncodeLocVar(v)| <= |d| && d[p..p + |EncodeLocVar(v)|] == EncodeLocVar(v)
    ensures LocVarAt(d, p) == Ok(Parsed(v, p + |EncodeLocVar(v)|))
  {
    var a, b, c := EncodeString(v.varName), EncodeUnsigned(v.startPC), EncodeUnsigned(v.endPC);
    assert EncodeLocVar(v) == a + b + c;
    LocVarNameRead(v, d, p);
    LocVarRangeRead(v, d, p);
    LocVarFields(d, p, v, p + |a|, p + |a| + |b|, p + |a| + |b| + |c|);
  }

  /** An absolute line-info entry as the dumper writes it: line, then pc. */
  function EncodeAbsLineInfo(a: AbsLineInfo): seq<byte>
    requires 0 <= a.pc < INT_READ_LIMIT && 0 <= a.line < INT_READ_LIMIT
  {
    EncodeUnsigned(a.line) + EncodeUnsigned(a.pc)
  }

  // ---------------------------------------------------------------------------------------
  // Pieces laid one after another
  // ---------------------------------------------------------------------------------------

  /** The bytes bs lie in the chunk d from position p on, one byte after another. */
  ghost predicate Written(d: seq<byte>, p: nat, bs: seq<byte>)
    decreases |bs|
  {
    p + |bs| <= |d| && (bs == [] || (d[p] == bs[0] && Written(d, p + 1, bs[1..])))
  }

  /** Written bytes are the slice of the chunk they occupy. */
  lemma {:induction false} WrittenSlice(d: seq<byte>, p: nat, bs: seq<byte>)
    ensures Written(d, p, bs) <==> p + |bs| <= |d| && d[p..p + |bs|] == bs
    decreases |bs|
  {
    if bs != [] && p + |bs| <= |d| {
      WrittenSlice(d, p + 1, bs[1..]);
      assert d[p..p + |bs|] == [d[p]] + d[p + 1..p + |bs|];
      assert bs == [bs[0]] + bs[1..];
    }
  }

  /** The pieces one after another, the way the dumper writes the entries of a table. */
  function Flatten(bss: seq<seq<byte>>): seq<byte>
  {
    if bss == [] then [] else bss[0] + Flatten(bss[1..])
  }

  /** ps holds where each piece begins when the pieces are laid from p on, and where the last one ends. */
  predicate Spaced(ps: seq<nat>, p: nat, bss: seq<seq<byte>>)
  {
    |ps| == |bss| + 1 && ps[0] == p && forall k | 0 <= k < |bss| :: ps[k] + |bss[k]| == ps[k + 1]
  }

  /** The positions of the pieces laid from p on. */
  function Positions(bss: seq<seq<byte>>, p: nat): (ps: seq<nat>)
    ensures Spaced(ps, p, bss)
  {
    if bss == [] then [p]
    else
      var rest := Positions(bss[1..], p + |bss[0]|);
      assert forall k | 1 <= k < |bss| :: ([p] + rest)[k] == rest[k - 1];
      [p] + rest
  }

  /** Dropping the first piece keeps the positions spaced. */
  lemma {:induction false} SpacedTail(ps: seq<nat>, p: nat, bss: seq<seq<byte>>)
    requires Spaced(ps, p, bss) && bss != []
    ensures Spaced(ps[1..], p + |bss[0]|, bss[1..])
  {
    forall k | 0 <= k < |bss| - 1 ensures ps[1..][k] + |bss[1..][k]| == ps[1..][k + 1] {
      assert ps[k + 1] + |bss[k + 1]| == ps[k + 2];
    }
  }

  /** The last position is where the flattened pieces end. */
  lemma {:induction false} SpacedEnd(ps: seq<nat>, p: nat, bss: seq<seq<byte>>)
    requires Spaced(ps, p, bss)
    ensures ps[|bss|] == p + |Flatten(bss)|
    decreases |bss|
  {
    if bss != [] {
      SpacedTail(ps, p, bss);
      SpacedEnd(ps[1..], p + |bss[0]|, bss[1..]);
    }
  }

  /** Piece k of the flattened pieces lies between positions k and k + 1. */
  lemma {:induction false} PiecesLaid(bss: seq<seq<byte>>, ps: seq<nat>, d: seq<byte>, p: nat)
    requires Spaced(ps, p, bss)
    requires p + |Flatten(bss)| <= |d| && d[p..p + |Flatten(bss)|] == Flatten(bss)
    ensures forall k | 0 <= k < |bss| :: ps[k] + |bss[k]| <= |d| && d[ps[k]..ps[k] + |bss[k]|] == bss[k]
    decreases |bss|
  {
    if bss != [] {
      Peel(d, p, bss[0], Flatten(bss[1..]));
      SpacedTail(ps, p, bss);
      PiecesLaid(bss[1..], ps[1..], d, p + |bss[0]|);
      forall k | 0 <= k < |bss| ensures ps[k] + |bss[k]| <= |d| && d[ps[k]..ps[k] + |bss[k]|] == bss[k] {
        if k > 0 {
          assert ps[1..][k - 1] == ps[k] && bss[1..][k - 1] == bss[k];
        }
      }
    }
  }

  /** Where each of the pieces lies once they are written one after another from p. */
  lemma {:induction false} Layout(bss: seq<seq<byte>>, d: seq<byte>, p: nat) returns (ps: seq<nat>)
    requires p + |Flatten(bss)| <= |d| && d[p..p + |Flatten(bss)|] == Flatten(bss)
    ensures |ps| == |bss| + 1 && ps[0] == p && ps[|bss|] == p + |Flatten(bss)|
    ensures forall k | 0 <= k < |bss| :: ps[k] + |bss[k]| == ps[k + 1]
    ensures forall k | 0 <= k < |bss| :: ps[k] + |bss[k]| <= |d| && d[ps[k]..ps[k] + |bss[k]|] == bss[k]
  {
    ps := Positions(bss, p);
    SpacedEnd(ps, p, bss);
    PiecesLaid(bss, ps, d, p);
  }

  // ---------------------------------------------------------------------------------------
  // The entries of a table, one after another (binchunk/reader.go:90-174)
  // ---------------------------------------------------------------------------------------

  /** Instruction words, four little-endian bytes each. */
  function WordPieces(ws: seq<nat>): (bss: seq<seq<byte>>)
    ensures |bss| == |ws| && forall k | 0 <= k < |ws| :: bss[k] == LittleEndianBytes(ws[k], 4)
  {
    if ws == [] then [] else [LittleEndianBytes(ws[0], 4)] + WordPieces(ws[1..])
  }

  function ConstantPieces(ks: seq<Constant>): (bss: seq<seq<byte>>)
    requires forall k | 0 <= k < |ks| :: Encodable(ks[k])
    ensures |bss| == |ks| && forall k | 0 <= k < |ks| :: bss[k] == EncodeConstant(ks[k])
  {
    if ks == [] then [] else [EncodeConstant(ks[0])] + ConstantPieces(ks[1..])
  }

  function UpvaluePieces(us: seq<Upvalue>): (bss: seq<seq<byte>>)
    ensures |bss| == |us| && forall k | 0 <= k < |us| :: bss[k] == EncodeUpvalue(us[k])
  {
    if us == [] then [] else [EncodeUpvalue(us[0])] + UpvaluePieces(us[1..])
  }

  /** The entries of an absolute line-info table whose numbers the reader accepts. */
  predicate AbsLineInfosEncodable(xs: seq<AbsLineInfo>)
  {
    forall k | 0 <= k < |xs| :: 0 <= xs[k].pc < INT_READ_LIMIT && 0 <= xs[k].line < INT_READ_LIMIT
  }

  function AbsLineInfoPieces(xs: seq<AbsLineInfo>): (bss: seq<seq<byte>>)
    requires AbsLineInfosEncodable(xs)
    ensures |bss| == |xs| && forall k | 0 <= k < |xs| :: bss[k] == EncodeAbsLineInfo(xs[k])
  {
    if xs == [] then [] else [EncodeAbsLineInfo(xs[0])] + AbsLineInfoPieces(xs[1..])
  }

  function LocVarPieces(vs: seq<LocVar>): (bss: seq<seq<byte>>)
    requires forall k | 0 <= k < |vs| :: LocVarEncodable(vs[k])
    ensures |bss| == |vs| && forall k | 0 <= k < |vs| :: bss[k] == EncodeLocVar(vs[k])
  {
    if vs == [] then [] else [EncodeLocVar(vs[0])] + LocVarPieces(vs[1..])
  }

  /** The strings of a table whose sizes the reader accepts. */
  predicate StringsEncodable(ss: seq<seq<byte>>)
  {
    forall k | 0 <= k < |ss| :: |ss[k]| + 1 < INT_READ_LIMIT
  }

  function StringPieces(ss: seq<seq<byte>>): (bss: seq<seq<byte>>)
    ensures |bss| == |ss| && forall k | 0 <= k < |ss| :: bss[k] == EncodeString(ss[k])
  {
    if ss == [] then [] else [EncodeString(ss[0])] + StringPieces(ss[1..])
  }

  /** The words one after another, as the dumper writes them. */
  function WordsBytes(xs: seq<nat>): seq<byte>
  {
    Flatten(WordPieces(xs))
  }

  /** Each written word is read back at its position. */
  lemma {:induction false} WordsLaid(xs: seq<nat>, bss: seq<seq<byte>>, ps: seq<nat>, d: seq<byte>)
    requires forall k | 0 <= k < |xs| :: xs[k] < 0x1_0000_0000
    requires |bss| == |xs| && forall k | 0 <= k < |xs| :: bss[k] == LittleEndianBytes(xs[k], 4)
    requires |ps| == |xs| + 1
    requires forall k | 0 <= k < |xs| :: ps[k] + |bss[k]| == ps[k + 1]
    requires forall k | 0 <= k < |xs| :: ps[k] + |bss[k]| <= |d| && d[ps[k]..ps[k] + |bss[k]|] == bss[k]
    ensures forall k | 0 <= k < |xs| :: ps[k] <= |d| && Uint32At(d, ps[k]) == Ok(Parsed(xs[k], ps[k + 1]))
  {
    forall k | 0 <= k < |xs| ensures ps[k] <= |d| && Uint32At(d, ps[k]) == Ok(Parsed(xs[k], ps[k + 1])) {
      Uint32RoundTrip(xs[k], d, ps[k]);
    }
  }

  /** Reading from each position of ps gives the matching one of the words and ends at the next position. */
  ghost predicate WordsRead(d: seq<byte>, xs: seq<nat>, ps: seq<nat>)
  {
    |ps| == |xs| + 1 && ps[|xs|] <= |d| &&
    forall k | 0 <= k < |xs| :: ps[k] <= |d| && Uint32At(d, ps[k]) == Ok(Parsed(xs[k], ps[k + 1]))
  }

  /** A word followed by n more is read as n + 1 of them. */
  lemma {:induction false} WordsStep(d: seq<byte>, p: nat, x: nat, q: nat, xs: seq<nat>, r: nat)
    requires p <= |d| && Uint32At(d, p) == Ok(Parsed(x, q))
    requires q <= |d| && Uint32sFrom(d, q, |xs|) == Ok(Parsed(xs, r))
    ensures Uint32sFrom(d, p, |xs| + 1) == Ok(Parsed([x] + xs, r))
  {
  }

  /** Instruction words read one after another, each where the one before ended. */
  lemma {:induction false} WordsChain(d: seq<byte>, p: nat, q: nat, xs: seq<nat>, ps: seq<nat>)
    requires WordsRead(d, xs, ps) && ps[0] == p && ps[|xs|] == q
    ensures Uint32sFrom(d, p, |xs|) == Ok(Parsed(xs, q))
    decreases |xs|
  {
    if xs != [] {
      assert Uint32At(d, ps[0]) == Ok(Parsed(xs[0], ps[1]));
      WordsChain(d, ps[1], q, xs[1..], ps[1..]);
      WordsStep(d, p, xs[0], ps[1], xs[1..], q);
      assert [xs[0]] + xs[1..] == xs;
    }
  }

  /** Where each of the written words is read back. */
  lemma {:induction false} WordsPlaced(xs: seq<nat>, d: seq<byte>, p: nat) returns (ps: seq<nat>)
    requires forall k | 0 <= k < |xs| :: xs[k] < 0x1_0000_0000
    requires Written(d, p, WordsBytes(xs))
    ensures WordsRead(d, xs, ps) && ps[0] == p && ps[|xs|] == p + |WordsBytes(xs)|
  {
    var bss := WordPieces(xs);
    assert WordsBytes(xs) == Flatten(bss);
    WrittenSlice(d, p, WordsBytes(xs));
    ps := Layout(bss, d, p);
    WordsLaid(xs, bss, ps, d);
  }

  /** n written words are read back as the n words. */
  lemma {:induction false} WordsRoundTrip(xs: seq<nat>, d: seq<byte>, p: nat)
    requires forall k | 0 <= k < |xs| :: xs[k] < 0x1_0000_0000
    requires Written(d, p, WordsBytes(xs))
    ensures Uint32sFrom(d, p, |xs|) == Ok(Parsed(xs, p + |WordsBytes(xs)|))
  {
    var ps := WordsPlaced(xs, d, p);
    WordsChain(d, p, p + |WordsBytes(xs)|, xs, ps);
  }

  /** The constants one after another, as the dumper writes them. */
  function ConstantsBytes(xs: seq<Constant>): seq<byte>
    requires forall k | 0 <= k < |xs| :: Encodable(xs[k])
  {
    Flatten(ConstantPieces(xs))
  }

  /** Each written constant is read back at its position. */
  lemma {:induction false} ConstantsLaid(xs: seq<Constant>, bss: seq<seq<byte>>, ps: seq<nat>, d: seq<byte>)
    requires forall k | 0 <= k < |xs| :: Encodable(xs[k])
    requires |bss| == |xs| && forall k | 0 <= k < |xs| :: bss[k] == EncodeConstant(xs[k])
    requires |ps| == |xs| + 1
    requires forall k | 0 <= k < |xs| :: ps[k] + |bss[k]| == ps[k + 1]
    requires forall k | 0 <= k < |xs| :: ps[k] + |bss[k]| <= |d| && d[ps[k]..ps[k] + |bss[k]|] == bss[k]
    ensures forall k | 0 <= k < |xs| :: ps[k] <= |d| && ConstantAt(d, ps[k]) == Ok(Parsed(xs[k], ps[k + 1]))
  {
    forall k | 0 <= k < |xs| ensures ps[k] <= |d| && ConstantAt(d, ps[k]) == Ok(Parsed(xs[k], ps[k + 1])) {
      ConstantRoundTrip(xs[k], d, ps[k]);
    }
  }

  /** Reading from each position of ps gives the matching one of the constants and ends at the next position. */
  ghost predicate ConstantsRead(d: seq<byte>, xs: seq<Constant>, ps: seq<nat>)
  {
    |ps| == |xs| + 1 && ps[|xs|] <= |d| &&
    forall k | 0 <= k < |xs| :: ps[k] <= |d| && ConstantAt(d, ps[k]) == Ok(Parsed(xs[k], ps[k + 1]))
  }

  /** A constant followed by n more is read as n + 1 of them. */
  lemma {:induction false} ConstantsStep(d: seq<byte>, p: nat, x: Constant, q: nat, xs: seq<Constant>, r: nat)
    requires p <= |d| && ConstantAt(d, p) == Ok(Parsed(x, q))
    requires q <= |d| && ConstantsFrom(d, q, |xs|) == Ok(Parsed(xs, r))
    ensures ConstantsFrom(d, p, |xs| + 1) == Ok(Parsed([x] + xs, r))
  {
  }

  /** Constants read one after another, each where the one before ended. */
  lemma {:induction false} ConstantsChain(d: seq<byte>, p: nat, q: nat, xs: seq<Constant>, ps: seq<nat>)
    requires ConstantsRead(d, xs, ps) && ps[0] == p && ps[|xs|] == q
    ensures ConstantsFrom(d, p, |xs|) == Ok(Parsed(xs, q))
    decreases |xs|
  {
    if xs != [] {
      assert ConstantAt(d, ps[0]) == Ok(Parsed(xs[0], ps[1]));
      ConstantsChain(d, ps[1], q, xs[1..], ps[1..]);
      ConstantsStep(d, p, xs[0], ps[1], xs[1..], q);
      assert [xs[0]] + xs[1..] == xs;
    }
  }

  /** Where each of the written constants is read back. */
  lemma {:induction false} ConstantsPlaced(xs: seq<Constant>, d: seq<byte>, p: nat) returns (ps: seq<nat>)
    requires forall k | 0 <= k < |xs| :: Encodable(xs[k])
    requires Written(d, p, ConstantsBytes(xs))
    ensures ConstantsRead(d, xs, ps) && ps[0] == p && ps[|xs|] == p + |ConstantsBytes(xs)|
  {
    var bss := ConstantPieces(xs);
    assert ConstantsBytes(xs) == Flatten(bss);
    WrittenSlice(d, p, ConstantsBytes(xs));
    ps := Layout(bss, d, p);
    ConstantsLaid(xs, bss, ps, d);
  }

  /** n written constants are read back as the n constants. */
  lemma {:induction false} ConstantsRoundTrip(xs: seq<Constant>, d: seq<byte>, p: nat)
    requires forall k | 0 <= k < |xs| :: Encodable(xs[k])
    requires Written(d, p, ConstantsBytes(xs))
    ensures ConstantsFrom(d, p, |xs|) == Ok(Parsed(xs, p + |ConstantsBytes(xs)|))
  {
    var ps := ConstantsPlaced(xs, d, p);
    ConstantsChain(d, p, p + |ConstantsBytes(xs)|, xs, ps);
  }

  /** The upvalues one after another, as the dumper writes them. */
  function UpvaluesBytes(xs: seq<Upvalue>): seq<byte>
  {
    Flatten(UpvaluePieces(xs))
  }

  /** Each written upvalue is read back at its position. */
  lemma {:induction false} UpvaluesLaid(xs: seq<Upvalue>, bss: seq<seq<byte>>, ps: seq<nat>, d: seq<byte>)
    requires |bss| == |xs| && forall k | 0 <= k < |xs| :: bss[k] == EncodeUpvalue(xs[k])
    requires |ps| == |xs| + 1
    requires forall k | 0 <= k < |xs| :: ps[k] + |bss[k]| == ps[k + 1]
    requires forall k | 0 <= k < |xs| :: ps[k] + |bss[k]| <= |d| && d[ps[k]..ps[k] + |bss[k]|] == bss[k]
    ensures forall k | 0 <= k < |xs| :: ps[k] <= |d| && UpvalueAt(d, ps[k]) == Ok(Parsed(xs[k], ps[k + 1]))
  {
    forall k | 0 <= k < |xs| ensures ps[k] <= |d| && UpvalueAt(d, ps[k]) == Ok(Parsed(xs[k], ps[k + 1])) {
      UpvalueRoundTrip(xs[k], d, ps[k]);
    }
  }

  /** Reading from each position of ps gives the matching one of the upvalues and ends at the next position. */
  ghost predicate UpvaluesRead(d: seq<byte>, xs: seq<Upvalue>, ps: seq<nat>)
  {
    |ps| == |xs| + 1 && ps[|xs|] <= |d| &&
    forall k | 0 <= k < |xs| :: ps[k] <= |d| && UpvalueAt(d, ps[k]) == Ok(Parsed(xs[k], ps[k + 1]))
  }

  /** A upvalue followed by n more is read as n + 1 of them. */
  lemma {:induction false} UpvaluesStep(d: seq<byte>, p: nat, x: Upvalue, q: nat, xs: seq<Upvalue>, r: nat)
    requires p <= |d| && UpvalueAt(d, p) == Ok(Parsed(x, q))
    requires q <= |d| && UpvaluesFrom(d, q, |xs|) == Ok(Parsed(xs, r))
    ensures UpvaluesFrom(d, p, |xs| + 1) == Ok(Parsed([x] + xs, r))
  {
  }

  /** Upvalues read one after another, each where the one before ended. */
  lemma {:induction false} UpvaluesChain(d: seq<byte>, p: nat, q: nat, xs: seq<Upvalue>, ps: seq<nat>)
    requires UpvaluesRead(d, xs, ps) && ps[0] == p && ps[|xs|] == q
    ensures UpvaluesFrom(d, p, |xs|) == Ok(Parsed(xs, q))
    decreases |xs|
  {
    if xs != [] {
      assert UpvalueAt(d, ps[0]) == Ok(Parsed(xs[0], ps[1]));
      UpvaluesChain(d, ps[1], q, xs[1..], ps[1..]);
      UpvaluesStep(d, p, xs[0], ps[1], xs[1..], q);
      assert [xs[0]] + xs[1..] == xs;
    }
  }

  /** Where each of the written upvalues is read back. */
  lemma {:induction false} UpvaluesPlaced(xs: seq<Upvalue>, d: seq<byte>, p: nat) returns (ps: seq<nat>)
    requires Written(d, p, UpvaluesBytes(xs))
    ensures UpvaluesRead(d, xs, ps) && ps[0] == p && ps[|xs|] == p + |UpvaluesBytes(xs)|
  {
    var bss := UpvaluePieces(xs);
    assert UpvaluesBytes(xs) == Flatten(bss);
    WrittenSlice(d, p, UpvaluesBytes(xs));
    ps := Layout(bss, d, p);
    UpvaluesLaid(xs, bss, ps, d);
  }

  /** n written upvalues are read back as the n upvalues. */
  lemma {:induction false} UpvaluesRoundTrip(xs: seq<Upvalue>, d: seq<byte>, p: nat)
    requires Written(d, p, UpvaluesBytes(xs))
    ensures UpvaluesFrom(d, p, |xs|) == Ok(Parsed(xs, p + |UpvaluesBytes(xs)|))
  {
    var ps := UpvaluesPlaced(xs, d, p);
    UpvaluesChain(d, p, p + |UpvaluesBytes(xs)|, xs, ps);
  }

  /** The entries one after another, as the dumper writes them. */
  function AbsLineInfosBytes(xs: seq<AbsLineInfo>): seq<byte>
    requires AbsLineInfosEncodable(xs)
  {
    Flatten(AbsLineInfoPieces(xs))
  }

  /** Each written entry is read back at its position. */
  lemma {:induction false} AbsLineInfosLaid(xs: seq<AbsLineInfo>, bss: seq<seq<byte>>, ps: seq<nat>, d: seq<byte>)
    requires AbsLineInfosEncodable(xs)
    requires |bss| == |xs| && forall k | 0 <= k < |xs| :: bss[k] == EncodeAbsLineInfo(xs[k])
    requires |ps| == |xs| + 1
    requires forall k | 0 <= k < |xs| :: ps[k] + |bss[k]| == ps[k + 1]
    requires forall k | 0 <= k < |xs| :: ps[k] + |bss[k]| <= |d| && d[ps[k]..ps[k] + |bss[k]|] == bss[k]
    ensures forall k | 0 <= k < |xs| :: ps[k] <= |d| && AbsLineInfoEntryAt(d, ps[k]) == Ok(Parsed(xs[k], ps[k + 1]))
  {
    forall k | 0 <= k < |xs| ensures ps[k] <= |d| && AbsLineInfoEntryAt(d, ps[k]) == Ok(Parsed(xs[k], ps[k + 1])) {
      AbsLineInfoRoundTrip(xs[k].pc, xs[k].line, d, ps[k]);
    }
  }

  /** Reading from each position of ps gives the matching one of the entries and ends at the next position. */
  ghost predicate AbsLineInfosRead(d: seq<byte>, xs: seq<AbsLineInfo>, ps: seq<nat>)
  {
    |ps| == |xs| + 1 && ps[|xs|] <= |d| &&
    forall k | 0 <= k < |xs| :: ps[k] <= |d| && AbsLineInfoEntryAt(d, ps[k]) == Ok(Parsed(xs[k], ps[k + 1]))
  }

  /** A entry followed by n more is read as n + 1 of them. */
  lemma {:induction false} AbsLineInfosStep(d: seq<byte>, p: nat, x: AbsLineInfo, q: nat, xs: seq<AbsLineInfo>, r: nat)
    requires p <= |d| && AbsLineInfoEntryAt(d, p) == Ok(Parsed(x, q))
    requires q <= |d| && AbsLineInfosFrom(d, q, |xs|) == Ok(Parsed(xs, r))
    ensures AbsLineInfosFrom(d, p, |xs| + 1) == Ok(Parsed([x] + xs, r))
  {
  }

  /** Absolute line-info entries read one after another, each where the one before ended. */
  lemma {:induction false} AbsLineInfosChain(d: seq<byte>, p: nat, q: nat, xs: seq<AbsLineInfo>, ps: seq<nat>)
    requires AbsLineInfosRead(d, xs, ps) && ps[0] == p && ps[|xs|] == q
    ensures AbsLineInfosFrom(d, p, |xs|) == Ok(Parsed(xs, q))
    decreases |xs|
  {
    if xs != [] {
      assert AbsLineInfoEntryAt(d, ps[0]) == Ok(Parsed(xs[0], ps[1]));
      AbsLineInfosChain(d, ps[1], q, xs[1..], ps[1..]);
      AbsLineInfosStep(d, p, xs[0], ps[1], xs[1..], q);
      assert [xs[0]] + xs[1..] == xs;
    }
  }

  /** Where each of the written entries is read back. */
  lemma {:induction false} AbsLineInfosPlaced(xs: seq<AbsLineInfo>, d: seq<byte>, p: nat) returns (ps: seq<nat>)
    requires AbsLineInfosEncodable(xs)
    requires Written(d, p, AbsLineInfosBytes(xs))
    ensures AbsLineInfosRead(d, xs, ps) && ps[0] == p && ps[|xs|] == p + |AbsLineInfosBytes(xs)|
  {
    var bss := AbsLineInfoPieces(xs);
    assert AbsLineInfosBytes(xs) == Flatten(bss);
    WrittenSlice(d, p, AbsLineInfosBytes(xs));
    ps := Layout(bss, d, p);
    AbsLineInfosLaid(xs, bss, ps, d);
  }

  /** n written entries are read back as the n entries. */
  lemma {:induction false} AbsLineInfosRoundTrip(xs: seq<AbsLineInfo>, d: seq<byte>, p: nat)
    requires AbsLineInfosEncodable(xs)
    requires Written(d, p, AbsLineInfosBytes(xs))
    ensures AbsLineInfosFrom(d, p, |xs|) == Ok(Parsed(xs, p + |AbsLineInfosBytes(xs)|))
  {
    var ps := AbsLineInfosPlaced(xs, d, p);
    AbsLineInfosChain(d, p, p + |AbsLineInfosBytes(xs)|, xs, ps);
  }

  /** The records one after another, as the dumper writes them. */
  function LocVarsBytes(xs: seq<LocVar>): seq<byte>
    requires forall k | 0 <= k < |xs| :: LocVarEncodable(xs[k])
  {
    Flatten(LocVarPieces(xs))
  }

  /** Each written record is read back at its position. */
  lemma {:induction false} LocVarsLaid(xs: seq<LocVar>, bss: seq<seq<byte>>, ps: seq<nat>, d: seq<byte>)
    requires forall k | 0 <= k < |xs| :: LocVarEncodable(xs[k])
    requires |bss| == |xs| && forall k | 0 <= k < |xs| :: bss[k] == EncodeLocVar(xs[k])
    requires |ps| == |xs| + 1
    requires forall k | 0 <= k < |xs| :: ps[k] + |bss[k]| == ps[k + 1]
    requires forall k | 0 <= k < |xs| :: ps[k] + |bss[k]| <= |d| && d[ps[k]..ps[k] + |bss[k]|] == bss[k]
    ensures forall k | 0 <= k < |xs| :: ps[k] <= |d| && LocVarAt(d, ps[k]) == Ok(Parsed(xs[k], ps[k + 1]))
  {
    forall k | 0 <= k < |xs| ensures ps[k] <= |d| && LocVarAt(d, ps[k]) == Ok(Parsed(xs[k], ps[k + 1])) {
      LocVarRoundTrip(xs[k], d, ps[k]);
    }
  }

  /** Reading from each position of ps gives the matching one of the records and ends at the next position. */
  ghost predicate LocVarsRead(d: seq<byte>, xs: seq<LocVar>, ps: seq<nat>)
  {
    |ps| == |xs| + 1 && ps[|xs|] <= |d| &&
    forall k | 0 <= k < |xs| :: ps[k] <= |d| && LocVarAt(d, ps[k]) == Ok(Parsed(xs[k], ps[k + 1]))
  }

  /** A local variable followed by n more is read as n + 1 of them. */
  lemma {:induction false} LocVarsStep(d: seq<byte>, p: nat, x: LocVar, q: nat, xs: seq<LocVar>, r: nat)
    requires p <= |d| && LocVarAt(d, p) == Ok(Parsed(x, q))
    requires q <= |d| && LocVarsFrom(d, q, |xs|) == Ok(Parsed(xs, r))
    ensures LocVarsFrom(d, p, |xs| + 1) == Ok(Parsed([x] + xs, r))
  {
  }

  /** Local variables read one after another, each where the one before ended. */
  lemma {:induction false} LocVarsChain(d: seq<byte>, p: nat, q: nat, xs: seq<LocVar>, ps: seq<nat>)
    requires LocVarsRead(d, xs, ps) && ps[0] == p && ps[|xs|] == q
    ensures LocVarsFrom(d, p, |xs|) == Ok(Parsed(xs, q))
    decreases |xs|
  {
    if xs != [] {
      assert LocVarAt(d, ps[0]) == Ok(Parsed(xs[0], ps[1]));
      LocVarsChain(d, ps[1], q, xs[1..], ps[1..]);
      LocVarsStep(d, p, xs[0], ps[1], xs[1..], q);
      assert [xs[0]] + xs[1..] == xs;
    }
  }

  /** Where each of the written local variables is read back. */
  lemma {:induction false} LocVarsPlaced(xs: seq<LocVar>, d: seq<byte>, p: nat) returns (ps: seq<nat>)
    requires forall k | 0 <= k < |xs| :: LocVarEncodable(xs[k])
    requires Written(d, p, LocVarsBytes(xs))
    ensures LocVarsRead(d, xs, ps) && ps[0] == p && ps[|xs|] == p + |LocVarsBytes(xs)|
  {
    var bss := LocVarPieces(xs);
    assert LocVarsBytes(xs) == Flatten(bss);
    WrittenSlice(d, p, LocVarsBytes(xs));
    ps := Layout(bss, d, p);
    LocVarsLaid(xs, bss, ps, d);
  }

  /** n written records are read back as the n records. */
  lemma {:induction false} LocVarsRoundTrip(xs: seq<LocVar>, d: seq<byte>, p: nat)
    requires forall k | 0 <= k < |xs| :: LocVarEncodable(xs[k])
    requires Written(d, p, LocVarsBytes(xs))
    ensures LocVarsFrom(d, p, |xs|) == Ok(Parsed(xs, p + |LocVarsBytes(xs)|))
  {
    var ps := LocVarsPlaced(xs, d, p);
    LocVarsChain(d, p, p + |LocVarsBytes(xs)|, xs, ps);
  }

  /** The strings one after another, as the dumper writes them. */
  function StringsBytes(xs: seq<seq<byte>>): seq<byte>
  {
    Flatten(StringPieces(xs))
  }

  /** Each written string is read back at its position. */
  lemma {:induction false} StringsLaid(xs: seq<seq<byte>>, bss: seq<seq<byte>>, ps: seq<nat>, d: seq<byte>)
    requires StringsEncodable(xs)
    requires |bss| == |xs| && forall k | 0 <= k < |xs| :: bss[k] == EncodeString(xs[k])
    requires |ps| == |xs| + 1
    requires forall k | 0 <= k < |xs| :: ps[k] + |bss[k]| == ps[k + 1]
    requires forall k | 0 <= k < |xs| :: ps[k] + |bss[k]| <= |d| && d[ps[k]..ps[k] + |bss[k]|] == bss[k]
    ensures forall k | 0 <= k < |xs| :: ps[k] <= |d| && StringAt(d, ps[k]) == Ok(Parsed(xs[k], ps[k + 1]))
  {
    forall k | 0 <= k < |xs| ensures ps[k] <= |d| && StringAt(d, ps[k]) == Ok(Parsed(xs[k], ps[k + 1])) {
      StringRoundTrip(xs[k], d, ps[k]);
    }
  }

  /** Reading from each position of ps gives the matching one of the strings and ends at the next position. */
  ghost predicate StringsRead(d: seq<byte>, xs: seq<seq<byte>>, ps: seq<nat>)
  {
    |ps| == |xs| + 1 && ps[|xs|] <= |d| &&
    forall k | 0 <= k < |xs| :: ps[k] <= |d| && StringAt(d, ps[k]) == Ok(Parsed(xs[k], ps[k + 1]))
  }

  /** A string followed by n more is read as n + 1 of them. */
  lemma {:induction false} StringsStep(d: seq<byte>, p: nat, x: seq<byte>, q: nat, xs: seq<seq<byte>>, r: nat)
    requires p <= |d| && StringAt(d, p) == Ok(Parsed(x, q))
    requires q <= |d| && StringsFrom(d, q, |xs|) == Ok(Parsed(xs, r))
    ensures StringsFrom(d, p, |xs| + 1) == Ok(Parsed([x] + xs, r))
  {
  }

  /** Strings read one after another, each where the one before ended. */
  lemma {:induction false} StringsChain(d: seq<byte>, p: nat, q: nat, xs: seq<seq<byte>>, ps: seq<nat>)
    requires StringsRead(d, xs, ps) && ps[0] == p && ps[|xs|] == q
    ensures StringsFrom(d, p, |xs|) == Ok(Parsed(xs, q))
    decreases |xs|
  {
    if xs != [] {
      assert StringAt(d, ps[0]) == Ok(Parsed(xs[0], ps[1]));
      StringsChain(d, ps[1], q, xs[1..], ps[1..]);
      StringsStep(d, p, xs[0], ps[1], xs[1..], q);
      assert [xs[0]] + xs[1..] == xs;
    }
  }

  /** Where each of the written strings is read back. */
  lemma {:induction false} StringsPlaced(xs: seq<seq<byte>>, d: seq<byte>, p: nat) returns (ps: seq<nat>)
    requires StringsEncodable(xs)
    requires Written(d, p, StringsBytes(xs))
    ensures StringsRead(d, xs, ps) && ps[0] == p && ps[|xs|] == p + |StringsBytes(xs)|
  {
    var bss := StringPieces(xs);
    assert StringsBytes(xs) == Flatten(bss);
    WrittenSlice(d, p, StringsBytes(xs));
    ps := Layout(bss, d, p);
    StringsLaid(xs, bss, ps, d);
  }

  /** n written strings are read back as the n strings. */
  lemma {:induction false} StringsRoundTrip(xs: seq<seq<byte>>, d: seq<byte>, p: nat)
    requires StringsEncodable(xs)
    requires Written(d, p, StringsBytes(xs))
    ensures StringsFrom(d, p, |xs|) == Ok(Parsed(xs, p + |StringsBytes(xs)|))
  {
    var ps := StringsPlaced(xs, d, p);
    StringsChain(d, p, p + |StringsBytes(xs)|, xs, ps);
  }

  // ---------------------------------------------------------------------------------------
  // Count-prefixed tables (binchunk/reader.go:90-174)
  // ---------------------------------------------------------------------------------------

  /** A table as the dumper writes it: the number of entries as a varint, then the entries. */
  function Counted(n: nat, body: seq<byte>): seq<byte>
  {
    EncodeUnsigned(n) + body
  }

  /** The count of a written table is read first, and the entries start right after it. */
  lemma {:induction false} CountedParts(n: nat, body: seq<byte>, d: seq<byte>, p: nat)
    requires n < INT_READ_LIMIT
    requires Written(d, p, Counted(n, body))
    ensures IntAt(d, p) == Ok(Parsed(n, p + |EncodeUnsigned(n)|))
    ensures Written(d, p + |EncodeUnsigned(n)|, body)
  {
    WrittenSlice(d, p, Counted(n, body));
    Peel(d, p, EncodeUnsigned(n), body);
    IntRoundTrip(n, d, p);
    WrittenSlice(d, p + |EncodeUnsigned(n)|, body);
  }

  /** `CodeAt` reads the count, then that many entries right after it. */
  lemma {:induction false} CodeCount(d: seq<byte>, p: nat, q: nat, ws: seq<nat>, r: nat)
    requires p <= |d| && IntAt(d, p) == Ok(Parsed(|ws|, q))
    requires q <= |d| && Uint32sFrom(d, q, |ws|) == Ok(Parsed(ws, r))
    ensures CodeAt(d, p) == Ok(Parsed(ws, r))
  {
  }

  /** The entries of a written table are read back after its count. */
  lemma {:induction false} CodeEntries(ws: seq<nat>, d: seq<byte>, p: nat, q: nat, r: nat)
    requires forall k | 0 <= k < |ws| :: ws[k] < 0x1_0000_0000
    requires p <= |d| && IntAt(d, p) == Ok(Parsed(|ws|, q))
    requires Written(d, q, WordsBytes(ws)) && r == q + |WordsBytes(ws)|
    ensures CodeAt(d, p) == Ok(Parsed(ws, r))
  {
    var ps := WordsPlaced(ws, d, q);
    WordsChain(d, q, r, ws, ps);
    CodeCount(d, p, q, ws, r);
  }

  /** `CodeAt` reads a written table of instruction words back, count first. */
  lemma {:induction false} CodeRoundTrip(ws: seq<nat>, d: seq<byte>, p: nat)
    requires |ws| < INT_READ_LIMIT
    requires forall k | 0 <= k < |ws| :: ws[k] < 0x1_0000_0000
    requires Written(d, p, Counted(|ws|, WordsBytes(ws)))
    ensures CodeAt(d, p) == Ok(Parsed(ws, p + |Counted(|ws|, WordsBytes(ws))|))
  {
    CountedParts(|ws|, WordsBytes(ws), d, p);
    assert |Counted(|ws|, WordsBytes(ws))| == |EncodeUnsigned(|ws|)| + |WordsBytes(ws)|;
    CodeEntries(ws, d, p, p + |EncodeUnsigned(|ws|)|, p + |Counted(|ws|, WordsBytes(ws))|);
  }

  /** `ConstantsAt` reads the count, then that many entries right after it. */
  lemma {:induction false} ConstantTableCount(d: seq<byte>, p: nat, q: nat, ks: seq<Constant>, r: nat)
    requires p <= |d| && IntAt(d, p) == Ok(Parsed(|ks|, q))
    requires q <= |d| && ConstantsFrom(d, q, |ks|) == Ok(Parsed(ks, r))
    ensures ConstantsAt(d, p) == Ok(Parsed(ks, r))
  {
  }

  /** The entries of a written table are read back after its count. */
  lemma {:induction false} ConstantTableEntries(ks: seq<Constant>, d: seq<byte>, p: nat, q: nat, r: nat)
    requires forall k | 0 <= k < |ks| :: Encodable(ks[k])
    requires p <= |d| && IntAt(d, p) == Ok(Parsed(|ks|, q))
    requires Written(d, q, ConstantsBytes(ks)) && r == q + |ConstantsBytes(ks)|
    ensures ConstantsAt(d, p) == Ok(Parsed(ks, r))
  {
    var ps := ConstantsPlaced(ks, d, q);
    ConstantsChain(d, q, r, ks, ps);
    ConstantTableCount(d, p, q, ks, r);
  }

  /** `ConstantsAt` reads a written table of constants back, count first. */
  lemma {:induction false} ConstantTableRoundTrip(ks: seq<Constant>, d: seq<byte>, p: nat)
    requires |ks| < INT_READ_LIMIT
    requires forall k | 0 <= k < |ks| :: Encodable(ks[k])
    requires Written(d, p, Counted(|ks|, ConstantsBytes(ks)))
    ensures ConstantsAt(d, p) == Ok(Parsed(ks, p + |Counted(|ks|, ConstantsBytes(ks))|))
  {
    CountedParts(|ks|, ConstantsBytes(ks), d, p);
    assert |Counted(|ks|, ConstantsBytes(ks))| == |EncodeUnsigned(|ks|)| + |ConstantsBytes(ks)|;
    ConstantTableEntries(ks, d, p, p + |EncodeUnsigned(|ks|)|, p + |Counted(|ks|, ConstantsBytes(ks))|);
  }

  /** `UpvaluesAt` reads the count, then that many entries right after it. */
  lemma {:induction false} UpvalueTableCount(d: seq<byte>, p: nat, q: nat, us: seq<Upvalue>, r: nat)
    requires p <= |d| && IntAt(d, p) == Ok(Parsed(|us|, q))
    requires q <= |d| && UpvaluesFrom(d, q, |us|) == Ok(Parsed(us, r))
    ensures UpvaluesAt(d, p) == Ok(Parsed(us, r))
  {
  }

  /** The entries of a written table are read back after its count. */
  lemma {:induction false} UpvalueTableEntries(us: seq<Upvalue>, d: seq<byte>, p: nat, q: nat, r: nat)
    requires p <= |d| && IntAt(d, p) == Ok(Parsed(|us|, q))
    requires Written(d, q, UpvaluesBytes(us)) && r == q + |UpvaluesBytes(us)|
    ensures UpvaluesAt(d, p) == Ok(Parsed(us, r))
  {
    var ps := UpvaluesPlaced(us, d, q);
    UpvaluesChain(d, q, r, us, ps);
    UpvalueTableCount(d, p, q, us, r);
  }

  /** `UpvaluesAt` reads a written table of upvalues back, count first. */
  lemma {:induction false} UpvalueTableRoundTrip(us: seq<Upvalue>, d: seq<byte>, p: nat)
    requires |us| < INT_READ_LIMIT
    requires Written(d, p, Counted(|us|, UpvaluesBytes(us)))
    ensures UpvaluesAt(d, p) == Ok(Parsed(us, p + |Counted(|us|, UpvaluesBytes(us))|))
  {
    CountedParts(|us|, UpvaluesBytes(us), d, p);
    assert |Counted(|us|, UpvaluesBytes(us))| == |EncodeUnsigned(|us|)| + |UpvaluesBytes(us)|;
    UpvalueTableEntries(us, d, p, p + |EncodeUnsigned(|us|)|, p + |Counted(|us|, UpvaluesBytes(us))|);
  }

  /** `AbsLineInfoAt` reads the count, then that many entries right after it. */
  lemma {:induction false} AbsLineInfoTableCount(d: seq<byte>, p: nat, q: nat, es: seq<AbsLineInfo>, r: nat)
    requires p <= |d| && IntAt(d, p) == Ok(Parsed(|es|, q))
    requires q <= |d| && AbsLineInfosFrom(d, q, |es|) == Ok(Parsed(es, r))
    ensures AbsLineInfoAt(d, p) == Ok(Parsed(es, r))
  {
  }

  /** The entries of a written table are read back after its count. */
  lemma {:induction false} AbsLineInfoTableEntries(es: seq<AbsLineInfo>, d: seq<byte>, p: nat, q: nat, r: nat)
    requires AbsLineInfosEncodable(es)
    requires p <= |d| && IntAt(d, p) == Ok(Parsed(|es|, q))
    requires Written(d, q, AbsLineInfosBytes(es)) && r == q + |AbsLineInfosBytes(es)|
    ensures AbsLineInfoAt(d, p) == Ok(Parsed(es, r))
  {
    var ps := AbsLineInfosPlaced(es, d, q);
    AbsLineInfosChain(d, q, r, es, ps);
    AbsLineInfoTableCount(d, p, q, es, r);
  }

  /** `AbsLineInfoAt` reads a written table of absolute line-info entries back, count first. */
  lemma {:induction false} AbsLineInfoTableRoundTrip(es: seq<AbsLineInfo>, d: seq<byte>, p: nat)
    requires |es| < INT_READ_LIMIT
    requires AbsLineInfosEncodable(es)
    requires Written(d, p, Counted(|es|, AbsLineInfosBytes(es)))
    ensures AbsLineInfoAt(d, p) == Ok(Parsed(es, p + |Counted(|es|, AbsLineInfosBytes(es))|))
  {
    CountedParts(|es|, AbsLineInfosBytes(es), d, p);
    assert |Counted(|es|, AbsLineInfosBytes(es))| == |EncodeUnsigned(|es|)| + |AbsLineInfosBytes(es)|;
    AbsLineInfoTableEntries(es, d, p, p + |EncodeUnsigned(|es|)|, p + |Counted(|es|, AbsLineInfosBytes(es))|);
  }

  /** `LocVarsAt` reads the count, then that many entries right after it. */
  lemma {:induction false} LocVarTableCount(d: seq<byte>, p: nat, q: nat, vs: seq<LocVar>, r: nat)
    requires p <= |d| && IntAt(d, p) == Ok(Parsed(|vs|, q))
    requires q <= |d| && LocVarsFrom(d, q, |vs|) == Ok(Parsed(vs, r))
    ensures LocVarsAt(d, p) == Ok(Parsed(vs, r))
  {
  }

  /** The entries of a written table are read back after its count. */
  lemma {:induction false} LocVarTableEntries(vs: seq<LocVar>, d: seq<byte>, p: nat, q: nat, r: nat)
    requires forall k | 0 <= k < |vs| :: LocVarEncodable(vs[k])
    requires p <= |d| && IntAt(d, p) == Ok(Parsed(|vs|, q))
    requires Written(d, q, LocVarsBytes(vs)) && r == q + |LocVarsBytes(vs)|
    ensures LocVarsAt(d, p) == Ok(Parsed(vs, r))
  {
    var ps := LocVarsPlaced(vs, d, q);
    LocVarsChain(d, q, r, vs, ps);
    LocVarTableCount(d, p, q, vs, r);
  }

  /** `LocVarsAt` reads a written table of local variables back, count first. */
  lemma {:induction false} LocVarTableRoundTrip(vs: seq<LocVar>, d: seq<byte>, p: nat)
    requires |vs| < INT_READ_LIMIT
    requires forall k | 0 <= k < |vs| :: LocVarEncodable(vs[k])
    requires Written(d, p, Counted(|vs|, LocVarsBytes(vs)))
    ensures LocVarsAt(d, p) == Ok(Parsed(vs, p + |Counted(|vs|, LocVarsBytes(vs))|))
  {
    CountedParts(|vs|, LocVarsBytes(vs), d, p);
    assert |Counted(|vs|, LocVarsBytes(vs))| == |EncodeUnsigned(|vs|)| + |LocVarsBytes(vs)|;
    LocVarTableEntries(vs, d, p, p + |EncodeUnsigned(|vs|)|, p + |Counted(|vs|, LocVarsBytes(vs))|);
  }

  /** `UpvalueNamesAt` reads the count, then that many entries right after it. */
  lemma {:induction false} UpvalueNameTableCount(d: seq<byte>, p: nat, q: nat, ns: seq<seq<byte>>, r: nat)
    requires p <= |d| && IntAt(d, p) == Ok(Parsed(|ns|, q))
    requires q <= |d| && StringsFrom(d, q, |ns|) == Ok(Parsed(ns, r))
    ensures UpvalueNamesAt(d, p) == Ok(Parsed(ns, r))
  {
  }

  /** The entries of a written table are read back after its count. */
  lemma {:induction false} UpvalueNameTableEntries(ns: seq<seq<byte>>, d: seq<byte>, p: nat, q: nat, r: nat)
    requires StringsEncodable(ns)
    requires p <= |d| && IntAt(d, p) == Ok(Parsed(|ns|, q))
    requires Written(d, q, StringsBytes(ns)) && r == q + |StringsBytes(ns)|
    ensures UpvalueNamesAt(d, p) == Ok(Parsed(ns, r))
  {
    var ps := StringsPlaced(ns, d, q);
    StringsChain(d, q, r, ns, ps);
    UpvalueNameTableCount(d, p, q, ns, r);
  }

  /** `UpvalueNamesAt` reads a written table of upvalue names back, count first. */
  lemma {:induction false} UpvalueNameTableRoundTrip(ns: seq<seq<byte>>, d: seq<byte>, p: nat)
    requires |ns| < INT_READ_LIMIT
    requires StringsEncodable(ns)
    requires Written(d, p, Counted(|ns|, StringsBytes(ns)))
    ensures UpvalueNamesAt(d, p) == Ok(Parsed(ns, p + |Counted(|ns|, StringsBytes(ns))|))
  {
    CountedParts(|ns|, StringsBytes(ns), d, p);
    assert |Counted(|ns|, StringsBytes(ns))| == |EncodeUnsigned(|ns|)| + |StringsBytes(ns)|;
    UpvalueNameTableEntries(ns, d, p, p + |EncodeUnsigned(|ns|)|, p + |Counted(|ns|, StringsBytes(ns))|);
  }

  /** `loadLineInfo` reads a written table of line-info deltas back, count first. */
  lemma {:induction false} LineInfoTableRoundTrip(bs: seq<byte>, d: seq<byte>, p: nat)
    requires |bs| < INT_READ_LIMIT
    requires Written(d, p, Counted(|bs|, bs))
    ensures LineInfoAt(d, p) == Ok(Parsed(bs, p + |Counted(|bs|, bs)|))
  {
    CountedParts(|bs|, bs, d, p);
    WrittenSlice(d, p + |EncodeUnsigned(|bs|)|, bs);
    LineInfoIsBytes(d, p + |EncodeUnsigned(|bs|)|, |bs|);
  }

  // ---------------------------------------------------------------------------------------
  // Prototypes without nested prototypes (binchunk/utils.go:41-63)
  // ---------------------------------------------------------------------------------------

  /** The prototypes without children that the dumper writes and every reader accepts back. */
  ghost predicate ProtoEncodable(f: Prototype)
  {
    && |f.source| + 1 < INT_READ_LIMIT
    && 0 <= f.lineDefined < INT_READ_LIMIT && 0 <= f.lastLineDefined < INT_READ_LIMIT
    && |f.code| < INT_READ_LIMIT && (forall k | 0 <= k < |f.code| :: f.code[k] < 0x1_0000_0000)
    && |f.constants| < INT_READ_LIMIT && (forall k | 0 <= k < |f.constants| :: Encodable(f.constants[k]))
    && |f.upvalues| < INT_READ_LIMIT
    && f.protos == []
    && |f.lineInfo| < INT_READ_LIMIT
    && |f.absLineInfo| < INT_READ_LIMIT && AbsLineInfosEncodable(f.absLineInfo)
    && |f.locVars| < INT_READ_LIMIT && (forall k | 0 <= k < |f.locVars| :: LocVarEncodable(f.locVars[k]))
    && |f.upvalueNames| < INT_READ_LIMIT && StringsEncodable(f.upvalueNames)
  }

  /**
   * The twelve parts of a prototype in the order `loadProto` reads them: source, the two line
   * numbers, the three raw bytes, then the tables, with a count of 0 for the nested prototypes.
   */
  function ProtoPieces(f: Prototype): (bss: seq<seq<byte>>)
    requires ProtoEncodable(f)
    ensures |bss| == 12
  {
    [EncodeString(f.source), EncodeUnsigned(f.lineDefined as nat), EncodeUnsigned(f.lastLineDefined as nat),
     [f.numParams, f.isVararg, f.maxStackSize],
     Counted(|f.code|, WordsBytes(f.code)), Counted(|f.constants|, ConstantsBytes(f.constants)),
     Counted(|f.upvalues|, UpvaluesBytes(f.upvalues)), EncodeUnsigned(0),
     Counted(|f.lineInfo|, f.lineInfo), Counted(|f.absLineInfo|, AbsLineInfosBytes(f.absLineInfo)),
     Counted(|f.locVars|, LocVarsBytes(f.locVars)), Counted(|f.upvalueNames|, StringsBytes(f.upvalueNames))]
  }

  /** A prototype without children as the dumper writes it. */
  function EncodeProto(f: Prototype): seq<byte>
    requires ProtoEncodable(f)
  {
    Flatten(ProtoPieces(f))
  }

  /** Each piece is written at its position, and the next position is right after it. */
  ghost predicate PiecesWritten(d: seq<byte>, ps: seq<nat>, bss: seq<seq<byte>>)
  {
    |ps| == |bss| + 1 &&
    forall k | 0 <= k < |bss| :: ps[k] + |bss[k]| == ps[k + 1] && Written(d, ps[k], bss[k])
  }

  /** Pieces written one after another from p each lie at their own position. */
  lemma {:induction false} WrittenLayout(bss: seq<seq<byte>>, d: seq<byte>, p: nat) returns (ps: seq<nat>)
    requires Written(d, p, Flatten(bss))
    ensures PiecesWritten(d, ps, bss) && ps[0] == p && ps[|bss|] == p + |Flatten(bss)| <= |d|
  {
    WrittenSlice(d, p, Flatten(bss));
    ps := Layout(bss, d, p);
    forall k | 0 <= k < |bss| ensures Written(d, ps[k], bss[k]) {
      WrittenSlice(d, ps[k], bss[k]);
    }
  }

  /** Every position of written pieces lies within the chunk. */
  lemma {:induction false} PiecesWrittenBounds(d: seq<byte>, ps: seq<nat>, bss: seq<seq<byte>>)
    requires PiecesWritten(d, ps, bss) && ps[|bss|] <= |d|
    ensures forall k | 0 <= k < |ps| :: ps[k] <= |d|
  {
    forall k | 0 <= k < |ps| ensures ps[k] <= |d| {
      if k < |bss| {
        assert Written(d, ps[k], bss[k]);
      }
    }
  }

  /** A piece known by its value is written at its position. */
  lemma {:induction false} PieceWritten(d: seq<byte>, ps: seq<nat>, bss: seq<seq<byte>>, k: nat, bs: seq<byte>)
    requires PiecesWritten(d, ps, bss) && k < |bss| && bss[k] == bs
    ensures ps[k + 1] == ps[k] + |bs| && Written(d, ps[k], bs)
  {
  }

  /** The twelve entries of a display of twelve pieces. */
  lemma {:induction false} TwelvePieces(b0: seq<byte>, b1: seq<byte>, b2: seq<byte>, b3: seq<byte>,
                                        b4: seq<byte>, b5: seq<byte>, b6: seq<byte>, b7: seq<byte>,
                                        b8: seq<byte>, b9: seq<byte>, b10: seq<byte>, b11: seq<byte>)
    ensures var bss := [b0, b1, b2, b3, b4, b5, b6, b7, b8, b9, b10, b11];
      && |bss| == 12 && bss[0] == b0 && bss[1] == b1 && bss[2] == b2 && bss[3] == b3
      && bss[4] == b4 && bss[5] == b5 && bss[6] == b6 && bss[7] == b7
      && bss[8] == b8 && bss[9] == b9 && bss[10] == b10 && bss[11] == b11
  {
  }

  /** The parts of a prototype, one by one. */
  lemma {:induction false} ProtoPiecesValues(f: Prototype)
    requires ProtoEncodable(f)
    ensures var bss := ProtoPieces(f);
      && bss[0] == EncodeString(f.source)
      && bss[1] == EncodeUnsigned(f.lineDefined as nat)
      && bss[2] == EncodeUnsigned(f.lastLineDefined as nat)
      && bss[3] == [f.numParams, f.isVararg, f.maxStackSize]
      && bss[4] == Counted(|f.code|, WordsBytes(f.code))
      && bss[5] == Counted(|f.constants|, ConstantsBytes(f.constants))
      && bss[6] == Counted(|f.upvalues|, UpvaluesBytes(f.upvalues))
      && bss[7] == EncodeUnsigned(0)
      && bss[8] == Counted(|f.lineInfo|, f.lineInfo)
      && bss[9] == Counted(|f.absLineInfo|, AbsLineInfosBytes(f.absLineInfo))
      && bss[10] == Counted(|f.locVars|, LocVarsBytes(f.locVars))
      && bss[11] == Counted(|f.upvalueNames|, StringsBytes(f.upvalueNames))
  {
    TwelvePieces(EncodeString(f.source), EncodeUnsigned(f.lineDefined as nat), EncodeUnsigned(f.lastLineDefined as nat),
                 [f.numParams, f.isVararg, f.maxStackSize],
                 Counted(|f.code|, WordsBytes(f.code)), Counted(|f.constants|, ConstantsBytes(f.constants)),
                 Counted(|f.upvalues|, UpvaluesBytes(f.upvalues)), EncodeUnsigned(0),
                 Counted(|f.lineInfo|, f.lineInfo), Counted(|f.absLineInfo|, AbsLineInfosBytes(f.absLineInfo)),
                 Counted(|f.locVars|, LocVarsBytes(f.locVars)), Counted(|f.upvalueNames|, StringsBytes(f.upvalueNames)));
  }

  /** The source is read back from where it lies. */
  lemma {:induction false} ProtoSourceRead(f: Prototype, bss: seq<seq<byte>>, d: seq<byte>, qs: seq<nat>)
    requires |f.source| + 1 < INT_READ_LIMIT
    requires PiecesWritten(d, qs, bss) && |bss| == 12 && bss[0] == EncodeString(f.source)
    ensures StringAt(d, qs[0]) == Ok(Parsed(f.source, qs[1]))
  {
    PieceWritten(d, qs, bss, 0, EncodeString(f.source));
    WrittenSlice(d, qs[0], EncodeString(f.source));
    StringRoundTrip(f.source, d, qs[0]);
  }

  /** A line number is read back from where it lies. */
  lemma {:induction false} ProtoLineRead(n: nat, k: nat, bss: seq<seq<byte>>, d: seq<byte>, qs: seq<nat>)
    requires n < INT_READ_LIMIT
    requires PiecesWritten(d, qs, bss) && k < |bss| && bss[k] == EncodeUnsigned(n)
    ensures IntAt(d, qs[k]) == Ok(Parsed(n, qs[k + 1]))
  {
    PieceWritten(d, qs, bss, k, EncodeUnsigned(n));
    WrittenSlice(d, qs[k], EncodeUnsigned(n));
    IntRoundTrip(n, d, qs[k]);
  }

  /** The three raw bytes lie where they were written. */
  lemma {:induction false} ProtoBytesRead(f: Prototype, bss: seq<seq<byte>>, d: seq<byte>, qs: seq<nat>)
    requires PiecesWritten(d, qs, bss) && |bss| == 12 && bss[3] == [f.numParams, f.isVararg, f.maxStackSize]
    ensures qs[3] + 3 == qs[4] <= |d|
    ensures d[qs[3]] == f.numParams && d[qs[3] + 1] == f.isVararg && d[qs[3] + 2] == f.maxStackSize
  {
    PieceWritten(d, qs, bss, 3, [f.numParams, f.isVararg, f.maxStackSize]);
    WrittenSlice(d, qs[3], [f.numParams, f.isVararg, f.maxStackSize]);
    assert d[qs[3]] == d[qs[3]..qs[4]][0] && d[qs[3] + 1] == d[qs[3]..qs[4]][1] && d[qs[3] + 2] == d[qs[3]..qs[4]][2];
  }

  /** The table of instruction words is read back from where it lies. */
  lemma {:induction false} ProtoCodeRead(f: Prototype, bss: seq<seq<byte>>, d: seq<byte>, qs: seq<nat>)
    requires |f.code| < INT_READ_LIMIT
    requires forall k | 0 <= k < |f.code| :: f.code[k] < 0x1_0000_0000
    requires PiecesWritten(d, qs, bss) && |bss| == 12 && bss[4] == Counted(|f.code|, WordsBytes(f.code))
    ensures CodeAt(d, qs[4]) == Ok(Parsed(f.code, qs[5]))
  {
    PieceWritten(d, qs, bss, 4, Counted(|f.code|, WordsBytes(f.code)));
    CodeRoundTrip(f.code, d, qs[4]);
  }

  /** The table of constants is read back from where it lies. */
  lemma {:induction false} ProtoConstantsRead(f: Prototype, bss: seq<seq<byte>>, d: seq<byte>, qs: seq<nat>)
    requires |f.constants| < INT_READ_LIMIT
    requires forall k | 0 <= k < |f.constants| :: Encodable(f.constants[k])
    requires PiecesWritten(d, qs, bss) && |bss| == 12 && bss[5] == Counted(|f.constants|, ConstantsBytes(f.constants))
    ensures ConstantsAt(d, qs[5]) == Ok(Parsed(f.constants, qs[6]))
  {
    PieceWritten(d, qs, bss, 5, Counted(|f.constants|, ConstantsBytes(f.constants)));
    ConstantTableRoundTrip(f.constants, d, qs[5]);
  }

  /** The table of upvalues is read back from where it lies. */
  lemma {:induction false} ProtoUpvaluesRead(f: Prototype, bss: seq<seq<byte>>, d: seq<byte>, qs: seq<nat>)
    requires |f.upvalues| < INT_READ_LIMIT
    requires PiecesWritten(d, qs, bss) && |bss| == 12 && bss[6] == Counted(|f.upvalues|, UpvaluesBytes(f.upvalues))
    ensures UpvaluesAt(d, qs[6]) == Ok(Parsed(f.upvalues, qs[7]))
  {
    PieceWritten(d, qs, bss, 6, Counted(|f.upvalues|, UpvaluesBytes(f.upvalues)));
    UpvalueTableRoundTrip(f.upvalues, d, qs[6]);
  }

  /** The table of line-info deltas is read back from where it lies. */
  lemma {:induction false} ProtoLineInfoRead(f: Prototype, bss: seq<seq<byte>>, d: seq<byte>, qs: seq<nat>)
    requires |f.lineInfo| < INT_READ_LIMIT
    requires PiecesWritten(d, qs, bss) && |bss| == 12 && bss[8] == Counted(|f.lineInfo|, f.lineInfo)
    ensures LineInfoAt(d, qs[8]) == Ok(Parsed(f.lineInfo, qs[9]))
  {
    PieceWritten(d, qs, bss, 8, Counted(|f.lineInfo|, f.lineInfo));
    LineInfoTableRoundTrip(f.lineInfo, d, qs[8]);
  }

  /** The table of absolute line-info entries is read back from where it lies. */
  lemma {:induction false} ProtoAbsLineInfoRead(f: Prototype, bss: seq<seq<byte>>, d: seq<byte>, qs: seq<nat>)
    requires |f.absLineInfo| < INT_READ_LIMIT
    requires AbsLineInfosEncodable(f.absLineInfo)
    requires PiecesWritten(d, qs, bss) && |bss| == 12 && bss[9] == Counted(|f.absLineInfo|, AbsLineInfosBytes(f.absLineInfo))
    ensures AbsLineInfoAt(d, qs[9]) == Ok(Parsed(f.absLineInfo, qs[10]))
  {
    PieceWritten(d, qs, bss, 9, Counted(|f.absLineInfo|, AbsLineInfosBytes(f.absLineInfo)));
    AbsLineInfoTableRoundTrip(f.absLineInfo, d, qs[9]);
  }

  /** The table of local variables is read back from where it lies. */
  lemma {:induction false} ProtoLocVarsRead(f: Prototype, bss: seq<seq<byte>>, d: seq<byte>, qs: seq<nat>)
    requires |f.locVars| < INT_READ_LIMIT
    requires forall k | 0 <= k < |f.locVars| :: LocVarEncodable(f.locVars[k])
    requires PiecesWritten(d, qs, bss) && |bss| == 12 && bss[10] == Counted(|f.locVars|, LocVarsBytes(f.locVars))
    ensures LocVarsAt(d, qs[10]) == Ok(Parsed(f.locVars, qs[11]))
  {
    PieceWritten(d, qs, bss, 10, Counted(|f.locVars|, LocVarsBytes(f.locVars)));
    LocVarTableRoundTrip(f.locVars, d, qs[10]);
  }

  /** The table of upvalue names is read back from where it lies. */
  lemma {:induction false} ProtoUpvalueNamesRead(f: Prototype, bss: seq<seq<byte>>, d: seq<byte>, qs: seq<nat>)
    requires |f.upvalueNames| < INT_READ_LIMIT
    requires StringsEncodable(f.upvalueNames)
    requires PiecesWritten(d, qs, bss) && |bss| == 12 && bss[11] == Counted(|f.upvalueNames|, StringsBytes(f.upvalueNames))
    ensures UpvalueNamesAt(d, qs[11]) == Ok(Parsed(f.upvalueNames, qs[12]))
  {
    PieceWritten(d, qs, bss, 11, Counted(|f.upvalueNames|, StringsBytes(f.upvalueNames)));
    UpvalueNameTableRoundTrip(f.upvalueNames, d, qs[11]);
  }

  /** The count of nested prototypes is read back as 0. */
  lemma {:induction false} ProtoChildCountRead(bss: seq<seq<byte>>, d: seq<byte>, qs: seq<nat>)
    requires PiecesWritten(d, qs, bss) && |bss| == 12 && bss[7] == EncodeUnsigned(0)
    ensures IntAt(d, qs[7]) == Ok(Parsed(0, qs[8]))
  {
    PieceWritten(d, qs, bss, 7, EncodeUnsigned(0));
    WrittenSlice(d, qs[7], EncodeUnsigned(0));
    IntRoundTrip(0, d, qs[7]);
  }

  /** A prototype as `loadProto` returns it: an empty source is replaced by the parent's. */
  function Inherited(f: Prototype, parent: seq<byte>): (g: Prototype)
    ensures g.source == (if f.source == [] then parent else f.source)
    ensures g.(source := f.source) == f
  {
    f.(source := if f.source == [] then parent else f.source)
  }

  /** A child count of 0 is an empty list of nested prototypes, whatever the parent. */
  lemma {:induction false} NoChildren(d: seq<byte>, q: nat, q': nat, parent: seq<byte>)
    requires q <= |d| && IntAt(d, q) == Ok(Parsed(0, q'))
    ensures ProtosAt(d, q, parent) == Ok(Parsed([], q'))
  {
  }

  /**
   * `loadProto` reads the fields one after another: given each field where the one before
   * ended, it returns the prototype, with an empty source replaced by the parent's.
   */
  lemma {:induction false} ProtoFields(f: Prototype, d: seq<byte>, qs: seq<nat>, parent: seq<byte>)
    requires 0 <= f.lineDefined && 0 <= f.lastLineDefined && f.protos == []
    requires |qs| == 13 && forall i | 0 <= i < 13 :: qs[i] <= |d|
    requires StringAt(d, qs[0]) == Ok(Parsed(f.source, qs[1]))
    requires IntAt(d, qs[1]) == Ok(Parsed(f.lineDefined as nat, qs[2]))
    requires IntAt(d, qs[2]) == Ok(Parsed(f.lastLineDefined as nat, qs[3]))
    requires qs[4] == qs[3] + 3
    requires d[qs[3]] == f.numParams && d[qs[3] + 1] == f.isVararg && d[qs[3] + 2] == f.maxStackSize
    requires CodeAt(d, qs[4]) == Ok(Parsed(f.code, qs[5]))
    requires ConstantsAt(d, qs[5]) == Ok(Parsed(f.constants, qs[6]))
    requires UpvaluesAt(d, qs[6]) == Ok(Parsed(f.upvalues, qs[7]))
    requires IntAt(d, qs[7]) == Ok(Parsed(0, qs[8]))
    requires LineInfoAt(d, qs[8]) == Ok(Parsed(f.lineInfo, qs[9]))
    requires AbsLineInfoAt(d, qs[9]) == Ok(Parsed(f.absLineInfo, qs[10]))
    requires LocVarsAt(d, qs[10]) == Ok(Parsed(f.locVars, qs[11]))
    requires UpvalueNamesAt(d, qs[11]) == Ok(Parsed(f.upvalueNames, qs[12]))
    ensures ProtoAt(d, qs[0], parent) ==
      Ok(Parsed(Inherited(f, parent), qs[12]))
  {
    NoChildren(d, qs[7], qs[8], if f.source == [] then parent else f.source);
  }

  /** `loadProto` reads the twelve parts of a prototype, each lying where the one before ends. */
  lemma {:induction false} ProtoPiecesRead(f: Prototype, bss: seq<seq<byte>>, d: seq<byte>, qs: seq<nat>, p: nat, q: nat,
                                           parent: seq<byte>)
    requires ProtoEncodable(f)
    requires PiecesWritten(d, qs, bss) && |bss| == 12 && qs[0] == p && qs[12] == q <= |d|
    requires && bss[0] == EncodeString(f.source)
             && bss[1] == EncodeUnsigned(f.lineDefined as nat)
             && bss[2] == EncodeUnsigned(f.lastLineDefined as nat)
             && bss[3] == [f.numParams, f.isVararg, f.maxStackSize]
             && bss[4] == Counted(|f.code|, WordsBytes(f.code))
             && bss[5] == Counted(|f.constants|, ConstantsBytes(f.constants))
             && bss[6] == Counted(|f.upvalues|, UpvaluesBytes(f.upvalues))
             && bss[7] == EncodeUnsigned(0)
             && bss[8] == Counted(|f.lineInfo|, f.lineInfo)
             && bss[9] == Counted(|f.absLineInfo|, AbsLineInfosBytes(f.absLineInfo))
             && bss[10] == Counted(|f.locVars|, LocVarsBytes(f.locVars))
             && bss[11] == Counted(|f.upvalueNames|, StringsBytes(f.upvalueNames))
    ensures ProtoAt(d, p, parent) == Ok(Parsed(Inherited(f, parent), q))
  {
    PiecesWrittenBounds(d, qs, bss);
    ProtoSourceRead(f, bss, d, qs);
    ProtoLineRead(f.lineDefined as nat, 1, bss, d, qs);
    ProtoLineRead(f.lastLineDefined as nat, 2, bss, d, qs);
    ProtoBytesRead(f, bss, d, qs);
    ProtoCodeRead(f, bss, d, qs);
    ProtoConstantsRead(f, bss, d, qs);
    ProtoUpvaluesRead(f, bss, d, qs);
    ProtoChildCountRead(bss, d, qs);
    ProtoLineInfoRead(f, bss, d, qs);
    ProtoAbsLineInfoRead(f, bss, d, qs);
    ProtoLocVarsRead(f, bss, d, qs);
    ProtoUpvalueNamesRead(f, bss, d, qs);
    ProtoFields(f, d, qs, parent);
  }

  /** `loadProto` reads the twelve parts of a prototype written one after another. */
  lemma {:induction false} ProtoReads(f: Prototype, bss: seq<seq<byte>>, d: seq<byte>, p: nat, q: nat, parent: seq<byte>)
    requires ProtoEncodable(f)
    requires |bss| == 12 && Written(d, p, Flatten(bss)) && q == p + |Flatten(bss)|
    requires && bss[0] == EncodeString(f.source)
             && bss[1] == EncodeUnsigned(f.lineDefined as nat)
             && bss[2] == EncodeUnsigned(f.lastLineDefined as nat)
             && bss[3] == [f.numParams, f.isVararg, f.maxStackSize]
             && bss[4] == Counted(|f.code|, WordsBytes(f.code))
             && bss[5] == Counted(|f.constants|, ConstantsBytes(f.constants))
             && bss[6] == Counted(|f.upvalues|, UpvaluesBytes(f.upvalues))
             && bss[7] == EncodeUnsigned(0)
             && bss[8] == Counted(|f.lineInfo|, f.lineInfo)
             && bss[9] == Counted(|f.absLineInfo|, AbsLineInfosBytes(f.absLineInfo))
             && bss[10] == Counted(|f.locVars|, LocVarsBytes(f.locVars))
             && bss[11] == Counted(|f.upvalueNames|, StringsBytes(f.upvalueNames))
    ensures ProtoAt(d, p, parent) == Ok(Parsed(Inherited(f, parent), q))
  {
    var qs := WrittenLayout(bss, d, p);
    ProtoPiecesRead(f, bss, d, qs, p, q, parent);
  }

  /**
   * `loadProto` reads a written prototype without children back field for field; only an
   * empty source comes back as the parent's.
   */
  lemma {:induction false} ProtoRoundTrip(f: Prototype, d: seq<byte>, p: nat, q: nat, parent: seq<byte>)
    requires ProtoEncodable(f)
    requires Written(d, p, EncodeProto(f)) && q == p + |EncodeProto(f)|
    ensures ProtoAt(d, p, parent) == Ok(Parsed(Inherited(f, parent), q))
  {
    var bss := ProtoPieces(f);
    ProtoPiecesValues(f);
    ProtoReads(f, bss, d, p, q, parent);
  }

  // ---------------------------------------------------------------------------------------
  // Whole chunks (binchunk/binary_chunk.go:57-67)
  // ---------------------------------------------------------------------------------------

  /** A chunk whose main function has no children: header, upvalue count, main prototype. */
  function EncodeChunk(f: Prototype): seq<byte>
    requires ProtoEncodable(f) && |f.upvalues| < 0x100
  {
    VALID_HEADER + [|f.upvalues| as byte] + EncodeProto(f)
  }

  /** Where the header, the count byte and the main prototype lie in a chunk. */
  lemma {:induction false} ChunkParts(h: seq<byte>, c: byte, e: seq<byte>)
    requires |h| == 31
    ensures var d := h + [c] + e;
      |d| == 32 + |e| && d[..31] == h && d[31] == c && d[32..32 + |e|] == e
  {
    var d := h + [c] + e;
    assert d[..31] == h;
    assert d[32..32 + |e|] == e;
  }

  /** `Undump` gives back the main function exactly as it was written. */
  lemma {:induction false} UndumpRoundTrip(f: Prototype)
    requires ProtoEncodable(f) && |f.upvalues| < 0x100
    ensures UndumpSpec(EncodeChunk(f)) == Ok(f)
  {
    var d := EncodeChunk(f);
    HeaderBytes();
    ChunkParts(VALID_HEADER, |f.upvalues| as byte, EncodeProto(f));
    WrittenSlice(d, 32, EncodeProto(f));
    ProtoRoundTrip(f, d, 32, |d|, []);
    ChunkTree.UndumpShape(d);
  }
}
