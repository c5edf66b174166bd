/** CustomAnimDataParser: reads the animData of a CUSTOM effect into the frames of
    every frame number and the frames of every panel. */
module CustomAnimDataParsing {
  import opened Wrappers
  import opened JavaText
  import opened Frames
  import opened AnimData

  /** The decode of the blocks still ahead, after the blocks already read. */
  function Prepend(done: seq<Block>, r: Result<seq<Block>>): Result<seq<Block>>
  {
    match r
    case Ok(bs) => Ok(done + bs)
    case Err(e) => Err(e)
  }

  class CustomAnimDataParser {
    const animData: string
    var framesByNum: FrameLists
    var framesByPanel: FrameLists

    constructor Init(animData: string)
      ensures this.animData == animData
      ensures framesByNum == map[] && framesByPanel == map[]
    {
      this.animData := animData;
      framesByNum := map[];
      framesByPanel := map[];
    }

    function GetFramesByNum(): FrameLists
      reads this
    {
      framesByNum
    }

    function GetFramesByPanel(): FrameLists
      reads this
    {
      framesByPanel
    }

    /** framesByPanel.get(panelId): the panel's frames, or null. */
    function GetFrames(panelId: int): (r: Option<seq<Frame>>)
      reads this
      ensures r.Some? <==> panelId in framesByPanel
      ensures r.Some? ==> r.value == framesByPanel[panelId]
    {
      if panelId in framesByPanel then Some(framesByPanel[panelId]) else None
    }

    /** parse(): split, parse every token after the first into an int array, then walk
        the blocks with a cursor, adding each frame to both maps. When it returns
        normally the maps are what ParseCustom describes; when it throws, it throws
        the exception ParseCustom names. */
    method Parse() returns (outcome: Outcome)
      modifies this
      ensures outcome.Done? <==> ParseCustom(animData).Ok?
      ensures outcome.Done? ==> Parsed(framesByNum, framesByPanel) == ParseCustom(animData).value
      ensures outcome.Throws? ==> outcome.error == ParseCustom(animData).error
    {
      framesByNum := map[];
      framesByPanel := map[];
      var dataTemp := Split(animData, ' ');
      if |dataTemp| == 0 {
        return Throws(NegativeArraySize);
      }
      var data := new Int32[|dataTemp| - 1];
      var i := 1;
      while i < |dataTemp|
        invariant 1 <= i <= |dataTemp|
        invariant framesByNum == map[] && framesByPanel == map[]
        invariant forall k :: 0 <= k < i - 1 ==> ParseInt(dataTemp[1..][k]) == Some(data[k])
      {
        var v := ParseInt(dataTemp[i]);
        if v.None? {
          assert ParseInt(dataTemp[1..][i - 1]).None?;
          return Throws(NumberFormat);
        }
        data[i - 1] := v.value;
        i := i + 1;
      }
      assert forall k :: 0 <= k < |dataTemp| - 1 ==> ParseInt(dataTemp[1..][k]) == Some(data[k]);
      assert ParseAll(dataTemp[1..]).value == data[..];
      outcome := ParseBlocks(data);
    }

    /** The while loop of parse over the integers. */
    method ParseBlocks(data: array<Int32>) returns (outcome: Outcome)
      modifies this
      requires framesByNum == map[] && framesByPanel == map[]
      ensures outcome.Done? <==> DecodeBlocks(data[..]).Ok?
      ensures outcome.Done? ==> Parsed(framesByNum, framesByPanel) == Collect(DecodeBlocks(data[..]).value)
      ensures outcome.Throws? ==> outcome.error == DecodeBlocks(data[..]).error
    {
      var x := 0;
      ghost var done: seq<Block> := [];
      ghost var d := data[..];
      ghost var whole := DecodeBlocks(d);
      assert d[x..] == d;
      PrependNothing(whole);
      while x < data.Length
        invariant 0 <= x <= data.Length == |d| && data[..] == d
        invariant whole == Prepend(done, DecodeBlocks(d[x..]))
        invariant Parsed(framesByNum, framesByPanel) == Collect(done)
        decreases data.Length - x
      {
        var step, next, b := ReadBlock(data, x, done);
        if step.Throws? {
          return step;
        }
        PrependSnoc(done, b, DecodeBlocks(d[next..]));
        done := done + [b];
        x := next;
      }
      assert d[x..] == [];
      assert DecodeBlocks(d[x..]) == Ok([]);
      assert done + [] == done;
      outcome := Done;
    }

    /** One pass of the while loop of parse: the block at x added to both maps, and the
        cursor moved past it; or the exception the pass ends in. */
    method ReadBlock(data: array<Int32>, x: nat, ghost done: seq<Block>) returns (outcome: Outcome, next: nat, ghost b: Block)
      modifies this
      requires x < data.Length
      requires Parsed(framesByNum, framesByPanel) == Collect(done)
      ensures outcome.Throws? ==> DecodeBlocks(data[x..]) == Err(outcome.error)
      ensures outcome.Done? ==> x < next <= data.Length
      ensures outcome.Done? ==> DecodeBlocks(data[x..]) == Prepend([b], DecodeBlocks(data[next..]))
      ensures outcome.Done? ==> Parsed(framesByNum, framesByPanel) == Collect(done + [b])
    {
      ghost var d := data[..];
      b := Block(0, []);
      next := x;
      if x + 1 >= data.Length {
        DecodeFrom(d, x);
        return Throws(IndexOutOfBounds), next, b;
      }
      var panelId := data[x];
      var numFrames := data[x + 1];
      if numFrames < 0 {
        DecodeFrom(d, x);
        return Throws(MalformedData), next, b;
      }
      var n := numFrames as int;
      var complete := AddBlockFrames(data, x, n);
      if !complete {
        DecodeFrom(d, x);
        return Throws(IndexOutOfBounds), next, b;
      }
      assert data[x + 2..] == d[x + 2..];
      b := Block(d[x], FramesAt(d[x + 2..], n));
      DecodeAt(d, x, n);
      CollectSnoc(done, b);
      // x + 2 + 5 * n stays within data.Length, so Java's int addition does not wrap
      next := x + 2 + 5 * n;
      assert data[x..] == d[x..] && data[next..] == d[next..];
      outcome := Done;
    }

    /** The for loop of parse: the frames of the block at x, each added to both maps.
        It ends early, as an index error, when the data runs out. */
    method AddBlockFrames(data: array<Int32>, x: nat, n: nat) returns (complete: bool)
      modifies this
      requires x + 1 < data.Length
      ensures complete <==> x + 2 + 5 * n <= data.Length
      ensures complete ==>
        Parsed(framesByNum, framesByPanel) == AddFrames(old(Parsed(framesByNum, framesByPanel)), data[x], FramesAt(data[x + 2..], n))
    {
      ghost var start := Parsed(framesByNum, framesByPanel);
      var panelId := data[x];
      var i := 0;
      while i < n
        invariant 0 <= i <= n && x + 2 + 5 * i <= data.Length
        invariant Parsed(framesByNum, framesByPanel) == AddFrames(start, panelId, FramesAt(data[x + 2..], i))
      {
        if x + 6 + 5 * i >= data.Length {
          return false;
        }
        var frame := Frame(data[x + 2 + 5 * i], data[x + 3 + 5 * i], data[x + 4 + 5 * i],
                           data[x + 5 + 5 * i], data[x + 6 + 5 * i]);
        assert frame == FrameAt(data[x + 2..], i);
        assert FramesAt(data[x + 2..], i + 1)[..i] == FramesAt(data[x + 2..], i);
        framesByNum := Appended(framesByNum, i, frame);
        framesByPanel := Appended(framesByPanel, panelId, frame);
        i := i + 1;
      }
      return true;
    }
  }

  lemma PrependNothing(r: Result<seq<Block>>)
    ensures Prepend([], r) == r
  {
    if r.Ok? {
      assert [] + r.value == r.value;
    }
  }

  lemma PrependSnoc(done: seq<Block>, b: Block, r: Result<seq<Block>>)
    ensures Prepend(done, Prepend([b], r)) == Prepend(done + [b], r)
  {
    if r.Ok? {
      assert done + ([b] + r.value) == done + [b] + r.value;
    }
  }

  /** The decode from cursor x on when a whole block starts there. */
  lemma DecodeAt(d: seq<Int32>, x: nat, n: nat)
    requires x + 1 < |d| && d[x + 1] as int == n && x + 2 + 5 * n <= |d|
    ensures DecodeBlocks(d[x..]) == Prepend([Block(d[x], FramesAt(d[x + 2..], n))], DecodeBlocks(d[x + 2 + 5 * n..]))
  {
    var e := d[x..];
    assert e[2..] == d[x + 2..];
    assert e[2 + 5 * n..] == d[x + 2 + 5 * n..];
  }

  lemma CollectSnoc(bs: seq<Block>, b: Block)
    ensures Collect(bs + [b]) == AddFrames(Collect(bs), b.panelId, b.frames)
  {
    assert (bs + [b])[..|bs|] == bs;
  }

  /** The decode of the blocks from cursor x on, by the check that decides it. */
  lemma DecodeFrom(d: seq<Int32>, x: nat)
    requires x < |d|
    ensures x + 1 >= |d| ==> DecodeBlocks(d[x..]) == Err(IndexOutOfBounds)
    ensures x + 1 < |d| && d[x + 1] < 0 ==> DecodeBlocks(d[x..]) == Err(MalformedData)
    ensures x + 1 < |d| && d[x + 1] >= 0 && x + 2 + 5 * (d[x + 1] as int) > |d| ==>
      DecodeBlocks(d[x..]) == Err(IndexOutOfBounds)
    ensures x + 1 < |d| && d[x + 1] >= 0 && x + 2 + 5 * (d[x + 1] as int) <= |d| ==>
      DecodeBlocks(d[x..]) == Prepend([Block(d[x], FramesAt(d[x + 2..], d[x + 1] as nat))],
                                      DecodeBlocks(d[x + 2 + 5 * (d[x + 1] as int)..]))
  {
    var e := d[x..];
    if x + 1 < |d| && d[x + 1] >= 0 && x + 2 + 5 * (d[x + 1] as int) <= |d| {
      var n := d[x + 1] as int;
      assert e[2..] == d[x + 2..];
      assert e[2 + 5 * n..] == d[x + 2 + 5 * n..];
    }
  }

  /** The constructor CustomAnimDataParser(String): the parser with its maps filled,
      or the exception parse throws, in which case no parser is made. */
  method Create(animData: string) returns (r: Result<CustomAnimDataParser>)
    ensures r.Ok? <==> ParseCustom(animData).Ok?
    ensures r.Ok? ==> fresh(r.value) && r.value.animData == animData
    ensures r.Ok? ==> Parsed(r.value.framesByNum, r.value.framesByPanel) == ParseCustom(animData).value
    ensures r.Err? ==> r.error == ParseCustom(animData).error
  {
    var p := new CustomAnimDataParser.Init(animData);
    var outcome := p.Parse();
    if outcome.Throws? {
      return Err(outcome.error);
    }
    return Ok(p);
  }

  // ---------------------------------------------------------------- the loop as written

  /** One pass of the source's while loop on the cursor x: data[x] and data[x + 1] are
      read, then 5 * numFrames integers, and x moves on by 2 + 5 * numFrames in 32-bit
      arithmetic. A negative numFrames runs no frame and moves x backwards. */
  function AsWrittenStep(data: seq<Int32>, x: Int32): Result<Int32>
  {
    if x < 0 || x + 1 >= |data| then Err(IndexOutOfBounds)
    else
      var n := data[x + 1] as int;
      if n > 0 && x + 6 + 5 * (n - 1) >= |data| then Err(IndexOutOfBounds)
      else Ok(Wrap32(x + Wrap32(2 + Wrap32(5 * n))))
  }

  /** The cursor after k passes, as long as the loop guard x < data.length holds. */
  function AsWrittenCursor(data: seq<Int32>, k: nat): Result<Int32>
  {
    if k == 0 then Ok(0)
    else
      match AsWrittenCursor(data, k - 1)
      case Err(e) => Err(e)
      case Ok(x) => if x >= |data| then Ok(x) else AsWrittenStep(data, x)
  }

  /** The block the source reads at cursor x: the panel id, and the frames of the for
      loop, none when numFrames is not positive. */
  function AsWrittenBlock(data: seq<Int32>, x: Int32): (b: Block)
    requires AsWrittenStep(data, x).Ok?
    ensures b.panelId == data[x] && |b.frames| == (if data[x + 1] > 0 then data[x + 1] as int else 0)
  {
    var n: nat := if data[x + 1] > 0 then data[x + 1] as nat else 0;
    Block(data[x], FramesAt(data[x + 2..], n))
  }

  /** The blocks the source reads in its first k passes, in order, or the exception
      that ends them. Passes after the guard fails read nothing. */
  function AsWrittenBlocks(data: seq<Int32>, k: nat): (r: Result<seq<Block>>)
    ensures r.Ok? ==> AsWrittenCursor(data, k).Ok? && |r.value| <= k
    ensures AsWrittenCursor(data, k).Err? ==> r.Err?
  {
    if k == 0 then Ok([])
    else
      match AsWrittenCursor(data, k - 1)
      case Err(e) => Err(e)
      case Ok(x) =>
        if x >= |data| then AsWrittenBlocks(data, k - 1)
        else if AsWrittenStep(data, x).Err? then Err(AsWrittenStep(data, x).error)
        else
          match AsWrittenBlocks(data, k - 1)
          case Err(e) => Err(e)
          case Ok(bs) => Ok(bs + [AsWrittenBlock(data, x)])
  }

  /** animData "9 1 0 1 0 9 -1 0 0" gives these integers. */
  const FinishData: seq<Int32> := [1, 0, 1, 0, 9, -1, 0, 0]

  /** A negative count can also let parse as written return: on FinishData the cursor
      goes 0, 2, 4, back to 1 and then to 8 = data.length, and the one frame read
      overlaps the blocks before it. The corrected reading rejects the same text. */
  lemma AsWrittenFinishes(count: Int32)
    ensures AsWrittenCursor(FinishData, 4) == Ok(|FinishData|)
    ensures AsWrittenBlocks(FinishData, 4) == Ok(FinishBlocks)
    ensures Collect(FinishBlocks) ==
      Parsed(map[0 := [Frame(0, 9, -1, 0, 0)]], map[0 := [Frame(0, 9, -1, 0, 0)]])
    ensures ParseCustom(JoinInts([count] + FinishData)) == Err(MalformedData)
  {
    FinishCursor();
    FinishRead();
    FinishCollect();
    FinishRejected(count);
  }

  /** The blocks parse as written reads from FinishData. */
  const FinishBlocks: seq<Block> := [Block(1, []), Block(1, []), Block(9, []), Block(0, [Frame(0, 9, -1, 0, 0)])]

  lemma FinishCursor()
    ensures AsWrittenCursor(FinishData, 1) == Ok(2)
    ensures AsWrittenCursor(FinishData, 2) == Ok(4)
    ensures AsWrittenCursor(FinishData, 3) == Ok(1)
    ensures AsWrittenCursor(FinishData, 4) == Ok(8)
  {
    assert Wrap32(5 * -1) == -5 && Wrap32(2 + -5) == -3 && Wrap32(4 + -3) == 1;
    assert Wrap32(5 * 1) == 5 && Wrap32(2 + 5) == 7 && Wrap32(1 + 7) == 8;
  }

  lemma FinishRead()
    ensures AsWrittenBlocks(FinishData, 4) == Ok(FinishBlocks)
  {
    FinishCursor();
    var bs := FinishBlocks;
    assert Wrap32(5 * 0) == 0 && Wrap32(2 + 0) == 2 && Wrap32(0 + 2) == 2 && Wrap32(2 + 2) == 4;
    assert AsWrittenStep(FinishData, 0) == Ok(2);
    assert AsWrittenStep(FinishData, 2) == Ok(4);
    assert Wrap32(5 * -1) == -5 && Wrap32(2 + -5) == -3 && Wrap32(4 + -3) == 1;
    assert AsWrittenStep(FinishData, 4) == Ok(1);
    assert Wrap32(5 * 1) == 5 && Wrap32(2 + 5) == 7 && Wrap32(1 + 7) == 8;
    assert AsWrittenStep(FinishData, 1) == Ok(8);
    assert AsWrittenBlock(FinishData, 0) == bs[0];
    assert AsWrittenBlock(FinishData, 2) == bs[1];
    assert AsWrittenBlock(FinishData, 4) == bs[2];
    assert FinishData[3..] == [0, 9, -1, 0, 0];
    assert AsWrittenBlock(FinishData, 1) == bs[3];
    assert AsWrittenBlocks(FinishData, 0) == Ok([]);
    assert [] + [bs[0]] == [bs[0]];
    assert AsWrittenBlocks(FinishData, 1) == Ok([bs[0]]);
    assert [bs[0]] + [bs[1]] == [bs[0], bs[1]];
    assert AsWrittenBlocks(FinishData, 2) == Ok([bs[0], bs[1]]);
    assert [bs[0], bs[1]] + [bs[2]] == [bs[0], bs[1], bs[2]];
    assert AsWrittenBlocks(FinishData, 3) == Ok([bs[0], bs[1], bs[2]]);
    assert [bs[0], bs[1], bs[2]] + [bs[3]] == bs;
  }

  lemma FinishCollect()
    ensures Collect(FinishBlocks) ==
      Parsed(map[0 := [Frame(0, 9, -1, 0, 0)]], map[0 := [Frame(0, 9, -1, 0, 0)]])
  {
    var b0, b1, b2, b3 := Block(1, []), Block(1, []), Block(9, []), Block(0, [Frame(0, 9, -1, 0, 0)]);
    assert FinishBlocks == [b0, b1, b2, b3];
    assert [b0][..0] == [];
    assert AddBlocks(NoFrames, [b0]) == NoFrames;
    assert [b0, b1][..1] == [b0];
    assert AddBlocks(NoFrames, [b0, b1]) == NoFrames;
    assert [b0, b1, b2][..2] == [b0, b1];
    assert AddBlocks(NoFrames, [b0, b1, b2]) == NoFrames;
    assert [b0, b1, b2, b3][..3] == [b0, b1, b2];
    var f := Frame(0, 9, -1, 0, 0);
    assert b3.frames[..0] == [];
    assert Lookup(map[], 0) + [f] == [f];
    assert AddFrames(NoFrames, 0, [f]) == Parsed(map[0 := [f]], map[0 := [f]]);
    assert Collect([b0, b1, b2, b3]) == AddFrames(AddBlocks(NoFrames, [b0, b1, b2]), 0, [f]);
  }

  lemma FinishRejected(count: Int32)
    ensures ParseCustom(JoinInts([count] + FinishData)) == Err(MalformedData)
  {
    DataTokensOfJoin(count, FinishData);
    var d4 := FinishData[4..];
    assert d4[1] == -1;
    var d2 := FinishData[2..];
    assert d2[2..] == d4;
    EmptyBlockThenError(d2, MalformedData);
    assert FinishData[2..] == d2;
    EmptyBlockThenError(FinishData, MalformedData);
  }

  /** animData "2 9 -1" gives these integers. */
  const ThrowData: seq<Int32> := [9, -1]

  /** And a negative count can make parse as written throw: on ThrowData the cursor
      drops to -3, still below data.length, and data[-3] is out of bounds. The
      corrected reading rejects the same text before reading any frame. */
  lemma AsWrittenThrows(count: Int32)
    ensures AsWrittenCursor(ThrowData, 1) == Ok(-3)
    ensures AsWrittenCursor(ThrowData, 2) == Err(IndexOutOfBounds)
    ensures ParseCustom(JoinInts([count] + ThrowData)) == Err(MalformedData)
  {
    assert Wrap32(5 * -1) == -5 && Wrap32(2 + -5) == -3 && Wrap32(0 + -3) == -3;
    ThrowRejected(count);
  }

  lemma ThrowRejected(count: Int32)
    ensures ParseCustom(JoinInts([count] + ThrowData)) == Err(MalformedData)
  {
    DataTokensOfJoin(count, ThrowData);
  }

  /** animData "10 1 0 1 0 1 0 1 0 1 -2" gives these integers. */
  const CycleData: seq<Int32> := [1, 0, 1, 0, 1, 0, 1, 0, 1, -2]

  /** A cursor at the start of one of the five blocks of CycleData. */
  predicate InCycle(r: Result<Int32>)
  {
    r.Ok? && 0 <= r.value <= 8 && r.value % 2 == 0
  }

  lemma CycleStep(x: Int32)
    requires InCycle(Ok(x))
    ensures AsWrittenStep(CycleData, x) == Ok(if x == 8 then 0 else x + 2)
    ensures InCycle(AsWrittenStep(CycleData, x))
  {
    if x == 8 {
      assert CycleData[9] == -2;
      assert Wrap32(5 * -2) == -10;
      assert Wrap32(2 + -10) == -8;
      assert Wrap32(8 + -8) == 0;
    } else {
      assert CycleData[x + 1] == 0;
    }
  }

  /** On CycleData the cursor visits 0, 2, 4, 6, 8 and then returns to 0: every block
      but the last has no frames, the last has -2 and moves x back by 8. The cursor
      stays below data.length after every pass, so parse as written never returns. */
  lemma {:induction false} AsWrittenCycles(k: nat)
    ensures InCycle(AsWrittenCursor(CycleData, k))
  {
    if k > 0 {
      AsWrittenCycles(k - 1);
      var x := AsWrittenCursor(CycleData, k - 1).value;
      assert AsWrittenCursor(CycleData, k) == AsWrittenStep(CycleData, x);
      CycleStep(x);
    }
  }

  /** Five passes bring the cursor back to where it started. */
  lemma AsWrittenReturns()
    ensures AsWrittenCursor(CycleData, 5) == AsWrittenCursor(CycleData, 0)
  {
    CycleStep(0);
    CycleStep(2);
    CycleStep(4);
    CycleStep(6);
    CycleStep(8);
    assert AsWrittenCursor(CycleData, 1) == Ok(2);
    assert AsWrittenCursor(CycleData, 2) == Ok(4);
    assert AsWrittenCursor(CycleData, 3) == Ok(6);
    assert AsWrittenCursor(CycleData, 4) == Ok(8);
  }

  /** A block with no frames passes an error in the blocks behind it through. */
  lemma EmptyBlockThenError(d: seq<Int32>, e: Exception)
    requires |d| >= 2 && d[1] == 0 && DecodeBlocks(d[2..]) == Err(e)
    ensures DecodeBlocks(d) == Err(e)
  {
  }

  /** The corrected reading rejects the same integers instead of looping. */
  lemma CycleDataRejected(count: Int32)
    ensures ParseCustom(JoinInts([count] + CycleData)) == Err(MalformedData)
  {
    DataTokensOfJoin(count, CycleData);
    var d8 := CycleData[8..];
    assert d8 == [1, -2];
    assert DecodeBlocks(d8) == Err(MalformedData);
    var d6 := CycleData[6..];
    assert d6[2..] == d8;
    EmptyBlockThenError(d6, MalformedData);
    var d4 := CycleData[4..];
    assert d4[2..] == d6;
    EmptyBlockThenError(d4, MalformedData);
    var d2 := CycleData[2..];
    assert d2[2..] == d4;
    EmptyBlockThenError(d2, MalformedData);
    assert CycleData[2..] == d2;
    EmptyBlockThenError(CycleData, MalformedData);
  }

  /** The corrected loop always moves forward and stops: every successful decode reads
      each integer exactly once, block after block. */
  lemma DecodeReadsEachIntegerOnce(data: seq<Int32>)
    requires DecodeBlocks(data).Ok?
    ensures BlocksTokens(DecodeBlocks(data).value) == data
    ensures |data| == 2 * |DecodeBlocks(data).value| + 5 * TotalFrames(DecodeBlocks(data).value)
  {
    TokensOfDecodeBlocks(data);
    BlocksTokensLength(DecodeBlocks(data).value);
  }
}
