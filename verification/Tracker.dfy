/** The request tracker: a bounded buffer flushed to a file of length-prefixed
    frames. Compression and serialisation are a codec parameter. */
module Tracker {
  import opened Wrappers

  type Byte = n: int | 0 <= n < 256

  datatype Entry = Entry(code: nat, timestamp: nat, provider: string, model: string,
    tier: string, latency: nat, success: bool)

  /** `decode` fails on bytes that hold no batch. */
  datatype Codec = Codec(encode: seq<Entry> -> seq<Byte>, decode: seq<Byte> -> Option<seq<Entry>>)

  ghost predicate Invertible(codec: Codec) {
    forall es :: codec.decode(codec.encode(es)) == Some(es)
  }

  const U32 := 0x1_0000_0000

  function Low(n: nat): Byte {
    n % 256
  }

  /** The four bytes of a 32-bit number, least significant first. */
  function LittleEndian(n: nat): seq<Byte> {
    [Low(n), Low(n / 256), Low(n / 256 / 256), Low(n / 256 / 256 / 256)]
  }

  function FromLittleEndian(bs: seq<Byte>): nat
    requires |bs| == 4
  {
    bs[0] as nat + 256 * (bs[1] as nat + 256 * (bs[2] as nat + 256 * bs[3] as nat))
  }

  /** A frame; the length is cut to 32 bits. */
  function Frame(codec: Codec, batch: seq<Entry>): seq<Byte> {
    LittleEndian(|codec.encode(batch)| % U32) + codec.encode(batch)
  }

  function File(codec: Codec, batches: seq<seq<Entry>>): seq<Byte> {
    if batches == [] then [] else Frame(codec, batches[0]) + File(codec, batches[1..])
  }

  /** Reading: whole frames from the front, up to the first torn one. A frame
      that does not decode is passed over. */
  function Parse(codec: Codec, data: seq<Byte>): seq<Entry>
    decreases |data|
  {
    if |data| < 4 then []
    else
      var len := FromLittleEndian(data[..4]);
      if 4 + len > |data| then []
      else codec.decode(data[4..4 + len]).GetOr([]) + Parse(codec, data[4 + len..])
  }

  datatype State = State(enabled: bool, buffer: seq<Entry>, file: seq<Byte>)

  datatype Op = RecordOp(entry: Entry) | FlushOp

  function Record(codec: Codec, st: State, e: Entry): State {
    if !st.enabled then st
    else
      var buffer := st.buffer + [e];
      if |buffer| >= 100 then st.(buffer := [], file := st.file + Frame(codec, buffer))
      else st.(buffer := buffer)
  }

  function Flush(codec: Codec, st: State): State {
    if !st.enabled || st.buffer == [] then st
    else st.(buffer := [], file := st.file + Frame(codec, st.buffer))
  }

  function Apply(codec: Codec, st: State, op: Op): State {
    if op.RecordOp? then Record(codec, st, op.entry) else Flush(codec, st)
  }

  function Run(codec: Codec, st: State, ops: seq<Op>): State {
    if ops == [] then st else Apply(codec, Run(codec, st, ops[..|ops| - 1]), ops[|ops| - 1])
  }

  function ReadAll(codec: Codec, st: State): seq<Entry> {
    (if st.enabled then Parse(codec, st.file) else []) + st.buffer
  }

  // ---- Printing and parsing frames ----

  lemma LittleEndianRoundTrip(n: nat)
    requires n < U32
    ensures FromLittleEndian(LittleEndian(n)) == n
  {
    var (q1, q2, q3) := (n / 256, n / 256 / 256, n / 256 / 256 / 256);
    assert n == 256 * q1 + Low(n) && q1 == 256 * q2 + Low(q1) && q2 == 256 * q3 + Low(q2);
    assert q3 < 256;
  }

  /** Least significant first. */
  lemma LittleEndianBytes()
    ensures LittleEndian(0x04030201) == [1, 2, 3, 4]
  {
  }

  /** A frame whose bytes hold no batch is passed over. */
  lemma BadFrameIsSkipped(codec: Codec, bytes: seq<Byte>, rest: seq<Byte>)
    requires |bytes| < U32 && codec.decode(bytes) == None
    ensures Parse(codec, LittleEndian(|bytes|) + bytes + rest) == Parse(codec, rest)
  {
    LittleEndianRoundTrip(|bytes|);
    FourBytes(|bytes|);
    Slices(LittleEndian(|bytes|), bytes, rest);
    hide LittleEndian, FromLittleEndian;
    assert [] + Parse(codec, rest) == Parse(codec, rest);
  }

  /** Every batch's frame length fits in 32 bits. */
  ghost predicate Fits(codec: Codec, batches: seq<seq<Entry>>) {
    forall i :: 0 <= i < |batches| ==> |codec.encode(batches[i])| < U32
  }

  lemma ParseFrame(codec: Codec, batch: seq<Entry>, rest: seq<Byte>)
    requires Invertible(codec) && |codec.encode(batch)| < U32
    ensures Parse(codec, Frame(codec, batch) + rest) == batch + Parse(codec, rest)
  {
    var body := codec.encode(batch);
    var data := Frame(codec, batch) + rest;
    LittleEndianRoundTrip(|body|);
    FrameParts(codec, batch, rest);
    hide LittleEndian, FromLittleEndian, Frame;
    assert Parse(codec, data) == codec.decode(body).GetOr([]) + Parse(codec, rest);
  }

  lemma FourBytes(n: nat)
    ensures |LittleEndian(n)| == 4
  {
  }

  lemma FrameParts(codec: Codec, batch: seq<Entry>, rest: seq<Byte>)
    requires |codec.encode(batch)| < U32
    ensures var (body, data) := (codec.encode(batch), Frame(codec, batch) + rest);
      && |data| == 4 + |body| + |rest|
      && data[..4] == LittleEndian(|body|)
      && data[4..4 + |body|] == body && data[4 + |body|..] == rest
  {
    hide LittleEndian;
    var body := codec.encode(batch);
    FourBytes(|body|);
    Slices(LittleEndian(|body|), body, rest);
  }

  /** The batches whose frames lie wholly in the first `cut` bytes. */
  function Whole(codec: Codec, batches: seq<seq<Entry>>, cut: nat): (k: nat)
    ensures k <= |batches|
  {
    if batches == [] || |Frame(codec, batches[0])| > cut then 0
    else 1 + Whole(codec, batches[1..], cut - |Frame(codec, batches[0])|)
  }

  lemma {:induction false} WholeIsMost(codec: Codec, batches: seq<seq<Entry>>, cut: nat)
    ensures var k := Whole(codec, batches, cut);
      && k <= |batches| && |File(codec, batches[..k])| <= cut
      && (k < |batches| ==> |File(codec, batches[..k + 1])| > cut)
  {
    hide Frame;
    if batches != [] {
      TakeTail(batches, 0);
      if |Frame(codec, batches[0])| <= cut {
        WholeIsMost(codec, batches[1..], cut - |Frame(codec, batches[0])|);
        var k := Whole(codec, batches[1..], cut - |Frame(codec, batches[0])|);
        TakeTail(batches, k);
        if k + 1 < |batches| {
          TakeTail(batches, k + 1);
        }
      }
    }
  }

  /** A file cut at any byte reads as the entries of its complete frames. */
  lemma {:induction false} CutFileReadsCompleteFrames(codec: Codec, batches: seq<seq<Entry>>, cut: nat)
    requires Invertible(codec) && Fits(codec, batches) && cut <= |File(codec, batches)|
    ensures Parse(codec, File(codec, batches)[..cut]) == Flatten(batches[..Whole(codec, batches, cut)])
  {
    if batches == [] {
      return;
    }
    hide LittleEndian, FromLittleEndian, Frame, Invertible, Parse;
    var (frame, rest) := (Frame(codec, batches[0]), File(codec, batches[1..]));
    CutConcat(frame, rest, cut);
    if |frame| <= cut {
      var k := Whole(codec, batches[1..], cut - |frame|);
      ParseFrame(codec, batches[0], rest[..cut - |frame|]);
      CutFileReadsCompleteFrames(codec, batches[1..], cut - |frame|);
      TakeTail(batches, k);
    } else {
      TornFrameReadsNothing(codec, batches[0], cut);
    }
  }

  lemma TakeTail<T>(s: seq<T>, k: nat)
    requires k < |s|
    ensures s[..k + 1][1..] == s[1..][..k] && s[..k + 1][0] == s[0]
  {
  }

  lemma TornFrameReadsNothing(codec: Codec, batch: seq<Entry>, cut: nat)
    requires |codec.encode(batch)| < U32 && cut < |Frame(codec, batch)|
    ensures Parse(codec, Frame(codec, batch)[..cut]) == []
  {
    var (body, data) := (codec.encode(batch), Frame(codec, batch)[..cut]);
    FrameParts(codec, batch, []);
    LittleEndianRoundTrip(|body|);
    hide LittleEndian, FromLittleEndian, Frame;
    assert Frame(codec, batch) + [] == Frame(codec, batch);
    if cut >= 4 {
      assert data[..4] == Frame(codec, batch)[..4];
    }
  }

  lemma WholeFileParses(codec: Codec, batches: seq<seq<Entry>>)
    requires Invertible(codec) && Fits(codec, batches)
    ensures Parse(codec, File(codec, batches)) == Flatten(batches)
  {
    hide Parse, Frame, Whole;
    var (data, n) := (File(codec, batches), |File(codec, batches)|);
    CutFileReadsCompleteFrames(codec, batches, n);
    WholeIsMost(codec, batches, n);
    var k := Whole(codec, batches, n);
    assert data[..n] == data;
    if k < |batches| {
      FileGrows(codec, batches, k + 1);
    }
    assert batches[..k] == batches;
  }

  lemma {:induction false} FileGrows(codec: Codec, batches: seq<seq<Entry>>, k: nat)
    requires k <= |batches|
    ensures |File(codec, batches[..k])| <= |File(codec, batches)|
  {
    if k > 0 {
      FileGrows(codec, batches[1..], k - 1);
      assert batches[..k][1..] == batches[1..][..k - 1];
    }
  }

  lemma {:induction false} FileAppends(codec: Codec, batches: seq<seq<Entry>>, batch: seq<Entry>)
    ensures File(codec, batches + [batch]) == File(codec, batches) + Frame(codec, batch)
    ensures Flatten(batches + [batch]) == Flatten(batches) + batch
  {
    if batches == [] {
      assert [batch][1..] == [];
      assert File(codec, [batch]) == Frame(codec, batch) + [];
      assert Flatten([batch]) == batch + [];
    } else {
      FileAppends(codec, batches[1..], batch);
      assert (batches + [batch])[1..] == batches[1..] + [batch];
    }
  }

  // ---- Whole runs ----

  /** The batches a run has written and the entries it was given. */
  function Batches(codec: Codec, ops: seq<Op>): seq<seq<Entry>> {
    if ops == [] then []
    else
      var st := Run(codec, State(true, [], []), ops[..|ops| - 1]);
      var op := ops[|ops| - 1];
      var pending := if op.RecordOp? then st.buffer + [op.entry] else st.buffer;
      Batches(codec, ops[..|ops| - 1])
      + if (op.RecordOp? && |pending| >= 100) || (op.FlushOp? && pending != []) then [pending] else []
  }

  function Recorded(ops: seq<Op>): seq<Entry> {
    if ops == [] then []
    else
      var op := ops[|ops| - 1];
      Recorded(ops[..|ops| - 1]) + if op.RecordOp? then [op.entry] else []
  }

  lemma {:induction false} RunWritesBatches(codec: Codec, ops: seq<Op>)
    ensures var st := Run(codec, State(true, [], []), ops);
      && st.enabled && |st.buffer| < 100
      && st.file == File(codec, Batches(codec, ops))
      && Flatten(Batches(codec, ops)) + st.buffer == Recorded(ops)
      && forall i :: 0 <= i < |Batches(codec, ops)| ==> 0 < |Batches(codec, ops)[i]| <= 100
  {
    if ops == [] {
      return;
    }
    hide Frame;
    var (pre, op) := (ops[..|ops| - 1], ops[|ops| - 1]);
    RunWritesBatches(codec, pre);
    var (st, bs) := (Run(codec, State(true, [], []), pre), Batches(codec, pre));
    var pending := if op.RecordOp? then st.buffer + [op.entry] else st.buffer;
    FileAppends(codec, bs, pending);
    assert Flatten(bs) + pending + [] == Flatten(bs) + pending;
    assert bs + [] == bs;
    if op.RecordOp? {
      assert Flatten(bs) + st.buffer + [op.entry] == Flatten(bs) + pending;
    }
  }

  /** The buffer is written at every hundredth entry and not before: with no flush in
      between, what is in memory is the rest after the last hundred. */
  lemma {:induction false} BufferFillsToHundred(codec: Codec, ops: seq<Op>)
    requires forall i :: 0 <= i < |ops| ==> ops[i].RecordOp?
    ensures |Run(codec, State(true, [], []), ops).buffer| == |ops| % 100
    ensures |Batches(codec, ops)| == |ops| / 100
  {
    if ops != [] {
      hide Frame;
      var (pre, op) := (ops[..|ops| - 1], ops[|ops| - 1]);
      BufferFillsToHundred(codec, pre);
      var st := Run(codec, State(true, [], []), pre);
      RunWritesBatches(codec, pre);
      assert Run(codec, State(true, [], []), ops) == Record(codec, st, op.entry);
      assert |st.buffer + [op.entry]| == |pre| % 100 + 1;
    }
  }

  /** Reading back after any sequence of records and flushes gives every entry,
      in order, with fewer than 100 of them still in memory. */
  lemma ReadsBackEverything(codec: Codec, ops: seq<Op>)
    requires Invertible(codec) && Fits(codec, Batches(codec, ops))
    ensures var st := Run(codec, State(true, [], []), ops);
      ReadAll(codec, st) == Recorded(ops) && |st.buffer| < 100
  {
    RunWritesBatches(codec, ops);
    WholeFileParses(codec, Batches(codec, ops));
  }

  /** After a cut, what is left is a prefix of what was recorded: the entries of
      the complete frames, batch by batch. */
  lemma TornLogReadsPrefix(codec: Codec, ops: seq<Op>, cut: nat)
    requires Invertible(codec) && Fits(codec, Batches(codec, ops))
    requires cut <= |Run(codec, State(true, [], []), ops).file|
    ensures var st := Run(codec, State(true, [], []), ops);
      var k := Whole(codec, Batches(codec, ops), cut);
      && Parse(codec, st.file[..cut]) == Flatten(Batches(codec, ops)[..k])
      && Parse(codec, st.file[..cut]) <= Recorded(ops)
      && |File(codec, Batches(codec, ops)[..k])| <= cut
      && (k < |Batches(codec, ops)| ==> |File(codec, Batches(codec, ops)[..k + 1])| > cut)
  {
    RunWritesBatches(codec, ops);
    var bs := Batches(codec, ops);
    CutFileReadsCompleteFrames(codec, bs, cut);
    WholeIsMost(codec, bs, cut);
    FlattenPrefix(bs, Whole(codec, bs, cut));
  }

  lemma {:induction false} FlattenPrefix<T>(parts: seq<seq<T>>, k: nat)
    requires k <= |parts|
    ensures Flatten(parts[..k]) <= Flatten(parts)
  {
    if k > 0 {
      FlattenPrefix(parts[1..], k - 1);
      assert parts[..k][1..] == parts[1..][..k - 1];
    }
  }

  // ---- Appending to a file that may be torn ----

  /** What reading leaves at the end: the bytes of no whole frame. */
  function Tail(data: seq<Byte>): seq<Byte>
    decreases |data|
  {
    if |data| < 4 then data
    else
      var len := FromLittleEndian(data[..4]);
      if 4 + len > |data| then data else Tail(data[4 + len..])
  }

  /** The tail is read together with what is appended to it. */
  lemma {:induction false} TailContinues(codec: Codec, data: seq<Byte>, more: seq<Byte>)
    ensures Parse(codec, data + more) == Parse(codec, data) + Parse(codec, Tail(data) + more)
    decreases |data|
  {
    hide FromLittleEndian;
    if |data| >= 4 && 4 + FromLittleEndian(data[..4]) <= |data| {
      var len := FromLittleEndian(data[..4]);
      var (rest, batch) := (data[4 + len..], codec.decode(data[4..4 + len]).GetOr([]));
      WithinFirst(data, more, 4, len);
      TailContinues(codec, rest, more);
      Associates(batch, Parse(codec, rest), Parse(codec, Tail(rest) + more));
    } else {
      assert [] + Parse(codec, data + more) == Parse(codec, data + more);
    }
  }

  lemma WithinFirst<T>(a: seq<T>, b: seq<T>, m: nat, n: nat)
    requires m + n <= |a|
    ensures (a + b)[..m] == a[..m] && (a + b)[m..m + n] == a[m..m + n] && (a + b)[m + n..] == a[m + n..] + b
  {
  }

  lemma TailOfFrame(codec: Codec, batch: seq<Entry>, rest: seq<Byte>)
    requires |codec.encode(batch)| < U32
    ensures Tail(Frame(codec, batch) + rest) == Tail(rest)
  {
    FrameParts(codec, batch, rest);
    LittleEndianRoundTrip(|codec.encode(batch)|);
    hide LittleEndian, FromLittleEndian, Frame;
  }

  lemma TailOfTorn(codec: Codec, batch: seq<Entry>, cut: nat)
    requires |codec.encode(batch)| < U32 && cut < |Frame(codec, batch)|
    ensures Tail(Frame(codec, batch)[..cut]) == Frame(codec, batch)[..cut]
  {
    FrameParts(codec, batch, []);
    LittleEndianRoundTrip(|codec.encode(batch)|);
    hide LittleEndian, FromLittleEndian, Frame;
    var data := Frame(codec, batch)[..cut];
    assert Frame(codec, batch) + [] == Frame(codec, batch);
    if cut >= 4 {
      assert data[..4] == Frame(codec, batch)[..4];
    }
  }

  /** A cut leaves no tail exactly at the end of a frame; otherwise the tail is
      what the cut left of the frame it fell in. */
  lemma {:induction false} TailOfCut(codec: Codec, batches: seq<seq<Entry>>, cut: nat)
    requires Fits(codec, batches) && cut <= |File(codec, batches)|
    ensures var whole := |File(codec, batches[..Whole(codec, batches, cut)])|;
      whole <= cut && Tail(File(codec, batches)[..cut]) == File(codec, batches)[whole..cut]
  {
    hide Frame, Tail, Fits;
    if batches == [] {
      NoTail();
      return;
    }
    FitsParts(codec, batches);
    if |Frame(codec, batches[0])| <= cut {
      TailOfCut(codec, batches[1..], cut - |Frame(codec, batches[0])|);
      TailStep(codec, batches, cut);
    } else {
      TornFirst(codec, batches, cut);
    }
  }

  lemma NoTail()
    ensures Tail([]) == []
  {
  }

  /** The cut falls in the first frame. */
  lemma TornFirst(codec: Codec, batches: seq<seq<Entry>>, cut: nat)
    requires batches != [] && |codec.encode(batches[0])| < U32 && cut < |Frame(codec, batches[0])|
    ensures Whole(codec, batches, cut) == 0 && File(codec, batches[..0]) == []
    ensures cut <= |File(codec, batches)| && Tail(File(codec, batches)[..cut]) == File(codec, batches)[0..cut]
  {
    hide Frame, Tail;
    var (frame, rest) := (Frame(codec, batches[0]), File(codec, batches[1..]));
    assert File(codec, batches) == frame + rest && batches[..0] == [];
    TailOfTorn(codec, batches[0], cut);
    CutConcat(frame, rest, cut);
    assert File(codec, batches)[0..cut] == File(codec, batches)[..cut];
  }

  /** The cut falls behind it. */
  lemma TailStep(codec: Codec, batches: seq<seq<Entry>>, cut: nat)
    requires batches != [] && |codec.encode(batches[0])| < U32
    requires |Frame(codec, batches[0])| <= cut <= |File(codec, batches)|
    requires var (tail, left) := (batches[1..], cut - |Frame(codec, batches[0])|);
      var whole := |File(codec, tail[..Whole(codec, tail, left)])|;
      left <= |File(codec, tail)| && whole <= left && Tail(File(codec, tail)[..left]) == File(codec, tail)[whole..left]
    ensures var whole := |File(codec, batches[..Whole(codec, batches, cut)])|;
      whole <= cut && Tail(File(codec, batches)[..cut]) == File(codec, batches)[whole..cut]
  {
    hide Frame, Tail, File, Whole;
    var (frame, rest) := (Frame(codec, batches[0]), File(codec, batches[1..]));
    var k := Whole(codec, batches[1..], cut - |frame|);
    FirstIsWhole(codec, batches, cut);
    FilePrefix(codec, batches, k);
    TailBehindFirst(codec, batches[0], rest, cut);
    BehindFirst(frame, rest, |File(codec, batches[1..][..k])|, cut);
  }

  lemma FirstIsWhole(codec: Codec, batches: seq<seq<Entry>>, cut: nat)
    requires batches != [] && |Frame(codec, batches[0])| <= cut
    ensures File(codec, batches) == Frame(codec, batches[0]) + File(codec, batches[1..])
    ensures Whole(codec, batches, cut) == Whole(codec, batches[1..], cut - |Frame(codec, batches[0])|) + 1
  {
    hide Frame;
  }

  lemma FitsParts(codec: Codec, batches: seq<seq<Entry>>)
    requires Fits(codec, batches) && batches != []
    ensures |codec.encode(batches[0])| < U32 && Fits(codec, batches[1..])
  {
  }

  lemma TailBehindFirst(codec: Codec, batch: seq<Entry>, rest: seq<Byte>, cut: nat)
    requires |codec.encode(batch)| < U32 && |Frame(codec, batch)| <= cut <= |Frame(codec, batch)| + |rest|
    ensures Tail((Frame(codec, batch) + rest)[..cut]) == Tail(rest[..cut - |Frame(codec, batch)|])
  {
    hide Frame, Tail;
    CutConcat(Frame(codec, batch), rest, cut);
    TailOfFrame(codec, batch, rest[..cut - |Frame(codec, batch)|]);
  }

  lemma FilePrefix(codec: Codec, batches: seq<seq<Entry>>, k: nat)
    requires k < |batches|
    ensures |File(codec, batches[..k + 1])| == |Frame(codec, batches[0])| + |File(codec, batches[1..][..k])|
  {
    hide Frame;
    TakeTail(batches, k);
  }

  lemma BehindFirst<T>(a: seq<T>, b: seq<T>, m: nat, cut: nat)
    requires |a| + m <= cut <= |a| + |b|
    ensures (a + b)[|a| + m..cut] == b[m..cut - |a|]
  {
  }

  /** A run appends to the file it finds. */
  lemma {:induction false} RunAppends(codec: Codec, file: seq<Byte>, ops: seq<Op>)
    ensures var st := Run(codec, State(true, [], []), ops);
      Run(codec, State(true, [], file), ops) == st.(file := file + st.file)
  {
    hide Frame;
    if ops == [] {
      assert file + [] == file;
    } else {
      var pre := Run(codec, State(true, [], []), ops[..|ops| - 1]);
      RunAppends(codec, file, ops[..|ops| - 1]);
      var pending := if ops[|ops| - 1].RecordOp? then pre.buffer + [ops[|ops| - 1].entry] else pre.buffer;
      Associates(file, pre.file, Frame(codec, pending));
    }
  }

  /** A log cut at the end of a frame: whatever is recorded afterwards is read back
      behind the frames that were left. */
  lemma ReadsOnAfterWholeFrames(codec: Codec, batches: seq<seq<Entry>>, cut: nat, ops: seq<Op>)
    requires Invertible(codec) && Fits(codec, batches) && Fits(codec, Batches(codec, ops))
    requires cut <= |File(codec, batches)| && cut == |File(codec, batches[..Whole(codec, batches, cut)])|
    ensures ReadAll(codec, Run(codec, State(true, [], File(codec, batches)[..cut]), ops))
      == Flatten(batches[..Whole(codec, batches, cut)]) + Recorded(ops)
  {
    hide File, Frame, Parse, Fits, Tail, Whole;
    var (file, st) := (File(codec, batches)[..cut], Run(codec, State(true, [], []), ops));
    RunAppends(codec, file, ops);
    RunWritesBatches(codec, ops);
    CutFileReadsCompleteFrames(codec, batches, cut);
    TailOfCut(codec, batches, cut);
    assert Tail(file) == [];
    TailContinues(codec, file, st.file);
    assert [] + st.file == st.file;
    WholeFileParses(codec, Batches(codec, ops));
    Associates(Flatten(batches[..Whole(codec, batches, cut)]), Flatten(Batches(codec, ops)), st.buffer);
  }

  /** A log cut inside a frame whose length was written: while less is appended than
      the frame lacks, nothing of it is read, only what is still buffered. */
  lemma TornFrameSwallows(codec: Codec, batch: seq<Entry>, cut: nat, ops: seq<Op>)
    requires |codec.encode(batch)| < U32 && 4 <= cut
    requires var st := Run(codec, State(true, [], []), ops); cut + |st.file| < |Frame(codec, batch)|
    ensures var st := Run(codec, State(true, [], Frame(codec, batch)[..cut]), ops);
      ReadAll(codec, st) == st.buffer
  {
    hide Run;
    var file := Frame(codec, batch)[..cut];
    var more := Run(codec, State(true, [], []), ops).file;
    RunAppends(codec, file, ops);
    FrameParts(codec, batch, []);
    LittleEndianRoundTrip(|codec.encode(batch)|);
    hide LittleEndian, FromLittleEndian, Frame;
    assert Frame(codec, batch) + [] == Frame(codec, batch);
    assert (file + more)[..4] == Frame(codec, batch)[..4];
  }

  /** An input where a flushed entry is lost: the log was cut after the length of a
      longer batch than the one flushed next. */
  lemma FlushedEntryIsLost(codec: Codec, batch: seq<Entry>, e: Entry)
    requires |codec.encode(batch)| < U32 && |Frame(codec, [e])| < |codec.encode(batch)|
    ensures ReadAll(codec, Run(codec, State(true, [], Frame(codec, batch)[..4]), [RecordOp(e), FlushOp])) == []
    ensures Recorded([RecordOp(e), FlushOp]) == [e]
  {
    var ops := [RecordOp(e), FlushOp];
    assert ops[..1] == [RecordOp(e)] && ops[..1][..0] == [];
    assert Recorded(ops[..1]) == [] + [e] && Recorded(ops) == Recorded(ops[..1]) + [];
    hide Frame;
    var st := State(true, [], []);
    assert Run(codec, st, ops[..1]) == State(true, [e], []);
    assert Run(codec, st, ops) == State(true, [], [] + Frame(codec, [e]));
    FrameSize(codec, batch);
    RunAppends(codec, Frame(codec, batch)[..4], ops);
    TornFrameSwallows(codec, batch, 4, ops);
  }

  lemma FrameSize(codec: Codec, batch: seq<Entry>)
    ensures |Frame(codec, batch)| == 4 + |codec.encode(batch)|
  {
    FourBytes(|codec.encode(batch)| % U32);
  }

  /** A disabled tracker keeps nothing, and shows nothing of a file that is there. */
  lemma {:induction false} DisabledKeepsNothing(codec: Codec, file: seq<Byte>, ops: seq<Op>)
    ensures Run(codec, State(false, [], file), ops) == State(false, [], file)
    ensures ReadAll(codec, Run(codec, State(false, [], file), ops)) == []
  {
    if ops != [] {
      DisabledKeepsNothing(codec, file, ops[..|ops| - 1]);
    }
  }

  // ---- The tracker object ----

  /** `out` holds the entries of the frames before `pos`. */
  ghost predicate ReadTo(codec: Codec, file: seq<Byte>, pos: nat, out: seq<Entry>) {
    pos <= |file| && out + Parse(codec, file[pos..]) == Parse(codec, file)
  }

  lemma ReadStarts(codec: Codec, file: seq<Byte>)
    ensures ReadTo(codec, file, 0, [])
  {
    hide Parse;
    assert file[0..] == file;
  }

  /** One frame read at `pos`. */
  lemma ReadOne(codec: Codec, file: seq<Byte>, pos: nat, out: seq<Entry>)
    requires ReadTo(codec, file, pos, out)
    requires pos + 4 <= |file| && pos + 4 + FromLittleEndian(file[pos..pos + 4]) <= |file|
    ensures var end := pos + 4 + FromLittleEndian(file[pos..pos + 4]);
      ReadTo(codec, file, end, out + codec.decode(file[pos + 4..end]).GetOr([]))
  {
    hide FromLittleEndian;
    var len := FromLittleEndian(file[pos..pos + 4]);
    var data := file[pos..];
    DropTwice(file, pos, 4);
    DropTwice(file, pos, 4 + len);
    assert data[4..4 + len] == file[pos + 4..pos + 4 + len];
    Associates(out, codec.decode(data[4..4 + len]).GetOr([]), Parse(codec, data[4 + len..]));
  }

  lemma ReadEnds(codec: Codec, file: seq<Byte>, pos: nat, out: seq<Entry>)
    requires ReadTo(codec, file, pos, out)
    requires pos + 4 > |file| || pos + 4 + FromLittleEndian(file[pos..pos + 4]) > |file|
    ensures out == Parse(codec, file)
  {
    hide FromLittleEndian;
    if pos + 4 <= |file| {
      DropTwice(file, pos, 4);
    }
    assert Parse(codec, file[pos..]) == [] && out + [] == out;
  }

  class Log {
    const codec: Codec
    const enabled: bool
    var buffer: seq<Entry>
    var file: seq<Byte>

    ghost function Value(): State
      reads this
    {
      State(enabled, buffer, file)
    }

    constructor (codec: Codec, enabled: bool)
      ensures Value() == State(enabled, [], []) && this.codec == codec
    {
      this.codec, this.enabled, buffer, file := codec, enabled, [], [];
    }

    method WriteEntries(entries: seq<Entry>)
      modifies this`file
      ensures file == old(file) + Frame(codec, entries)
    {
      var body := codec.encode(entries);
      var len := |body| % U32;
      file := file + (LittleEndian(len) + body);
    }

    method RecordEntry(e: Entry)
      modifies this
      ensures Value() == Record(codec, old(Value()), e)
    {
      if !enabled {
        return;
      }
      buffer := buffer + [e];
      if |buffer| >= 100 {
        var entries := buffer;
        buffer := [];
        WriteEntries(entries);
      }
    }

    method FlushBuffer()
      modifies this
      ensures Value() == Flush(codec, old(Value()))
    {
      if !enabled || buffer == [] {
        return;
      }
      var entries := buffer;
      buffer := [];
      WriteEntries(entries);
    }

    method ReadEntries() returns (out: seq<Entry>)
      ensures out == ReadAll(codec, Value())
    {
      hide ReadTo, Parse, FromLittleEndian;
      out := [];
      if enabled {
        var pos := 0;
        ReadStarts(codec, file);
        while pos + 4 <= |file|
          invariant 0 <= pos <= |file|
          invariant ReadTo(codec, file, pos, out)
        {
          var len := FromLittleEndian(file[pos..pos + 4]);
          if pos + 4 + len > |file| {
            break;
          }
          ReadOne(codec, file, pos, out);
          var body := file[pos + 4..pos + 4 + len];
          pos := pos + 4 + len;
          var batch := codec.decode(body);
          if batch.Some? {
            out := out + batch.value;
          } else {
            assert out + [] == out;
          }
        }
        ReadEnds(codec, file, pos, out);
      }
      out := out + buffer;
    }
  }
}
