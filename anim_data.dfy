/** The animData text of CUSTOM and STATIC effects: space-separated decimal integers.
    The first integer is a panel count that the parsers skip. A custom effect then has
    one block per panel, "id n" followed by n frames of five integers "r g b w t"; a
    static effect has blocks of exactly seven integers "id count r g b w t". */
module AnimData {
  import opened Wrappers
  import opened JavaText
  import opened Frames

  // ---------------------------------------------------------------- text to integers

  /** Integer.parseInt of every string, in order; the first failure throws. */
  function ParseAll(ss: seq<string>): (r: Result<seq<Int32>>)
    ensures r.Ok? ==> |r.value| == |ss| && forall i :: 0 <= i < |ss| ==> ParseInt(ss[i]) == Some(r.value[i])
    ensures r.Ok? <==> forall i :: 0 <= i < |ss| ==> ParseInt(ss[i]).Some?
    ensures r.Err? ==> r.error == NumberFormat
  {
    if ss == [] then Ok([])
    else if ParseInt(ss[0]).None? then Err(NumberFormat)
    else match ParseAll(ss[1..])
      case Ok(rest) => Ok([ParseInt(ss[0]).value] + rest)
      case Err(e) => Err(e)
  }

  /** What both parsers do first: split animData on ' ', size an int array one shorter
      than the fields (NegativeArraySizeException when there are none), and parse
      every field after the first into it. */
  function DataTokens(animData: string): (r: Result<seq<Int32>>)
    ensures r.Err? ==> r.error == NegativeArraySize || r.error == NumberFormat
    ensures r.Ok? ==> |r.value| == |Split(animData, ' ')| - 1
  {
    var parts := Split(animData, ' ');
    if |parts| == 0 then Err(NegativeArraySize) else ParseAll(parts[1..])
  }

  lemma {:induction false} ParseAllStrs(ts: seq<Int32>)
    ensures ParseAll(Strs(ts)) == Ok(ts)
  {
    if ts != [] {
      ParseIntToString(ts[0]);
      ParseAllStrs(ts[1..]);
      var ss := Strs(ts);
      assert ss[0] == IntToString(ts[0]);
      assert ss[1..] == Strs(ts[1..]);
      assert ParseAll(ss) == Ok([ts[0]] + ts[1..]);
      assert [ts[0]] + ts[1..] == ts;
    }
  }

  /** The integers written after a leading count come back, whatever the count. */
  lemma DataTokensOfJoin(count: int, ts: seq<Int32>)
    ensures DataTokens(JoinInts([count] + ts)) == Ok(ts)
  {
    SplitJoinInts([count] + ts);
    assert Strs([count] + ts)[1..] == Strs(ts);
    ParseAllStrs(ts);
  }

  /** The first token is never looked at: any two non-empty first fields without a
      space give the same integers, even one that is not a number. */
  lemma DataTokensIgnoreFirst(a: string, b: string, rest: string)
    requires a != "" && ' ' !in a && b != "" && ' ' !in b
    ensures DataTokens(a + " " + rest) == DataTokens(b + " " + rest)
  {
    SplitFirstField(a, b, rest);
    assert ' ' in a + " " + rest by { assert (a + " " + rest)[|a|] == ' '; }
    assert ' ' in b + " " + rest by { assert (b + " " + rest)[|b|] == ' '; }
  }

  // ---------------------------------------------------------------- custom blocks

  /** One block of custom data: a panel id and that panel's frames. */
  datatype Block = Block(panelId: Int32, frames: seq<Frame>)

  function FrameTokens(f: Frame): seq<Int32>
  {
    [f.red, f.green, f.blue, f.white, f.transitionTime]
  }

  function FramesTokens(fs: seq<Frame>): (r: seq<Int32>)
    ensures |r| == 5 * |fs|
  {
    if fs == [] then [] else FrameTokens(fs[0]) + FramesTokens(fs[1..])
  }

  /** A block whose frame count can be written as an int. */
  predicate CountFits(b: Block)
  {
    |b.frames| <= INT_MAX
  }

  function BlockTokens(b: Block): (r: seq<Int32>)
    requires CountFits(b)
    ensures |r| == 2 + 5 * |b.frames|
  {
    [b.panelId, |b.frames| as Int32] + FramesTokens(b.frames)
  }

  /** The integers of the blocks after the leading count, block after block. */
  function BlocksTokens(bs: seq<Block>): seq<Int32>
    requires forall b :: b in bs ==> CountFits(b)
  {
    if bs == [] then [] else BlockTokens(bs[0]) + BlocksTokens(bs[1..])
  }

  /** The k-th group of five integers of d as a frame. */
  function FrameAt(d: seq<Int32>, k: nat): Frame
    requires 5 * k + 5 <= |d|
  {
    Frame(d[5 * k], d[5 * k + 1], d[5 * k + 2], d[5 * k + 3], d[5 * k + 4])
  }

  function FramesAt(d: seq<Int32>, n: nat): (fs: seq<Frame>)
    requires 5 * n <= |d|
    ensures |fs| == n && forall k :: 0 <= k < n ==> fs[k] == FrameAt(d, k)
  {
    seq(n, k requires 0 <= k < n => FrameAt(d, k))
  }

  /** The blocks of custom data, read from the front: a block needs its id and count,
      then 5 * count more integers. A negative count is rejected (the source moves its
      cursor backwards instead; see AsWrittenStep in CustomAnimDataParsing). */
  function DecodeBlocks(d: seq<Int32>): (r: Result<seq<Block>>)
    ensures r.Err? ==> r.error == IndexOutOfBounds || r.error == MalformedData
    ensures r.Ok? ==> forall b :: b in r.value ==> CountFits(b)
    decreases |d|
  {
    if d == [] then Ok([])
    else if |d| < 2 then Err(IndexOutOfBounds)
    else if d[1] < 0 then Err(MalformedData)
    else if 2 + 5 * d[1] > |d| then Err(IndexOutOfBounds)
    else
      var n := d[1] as nat;
      match DecodeBlocks(d[2 + 5 * n..])
      case Ok(bs) => Ok([Block(d[0], FramesAt(d[2..], n))] + bs)
      case Err(e) => Err(e)
  }

  lemma {:induction false} FramesAtTokens(fs: seq<Frame>, rest: seq<Int32>)
    ensures FramesAt(FramesTokens(fs) + rest, |fs|) == fs
  {
    if fs != [] {
      var d := FramesTokens(fs) + rest;
      var d' := FramesTokens(fs[1..]) + rest;
      FramesAtTokens(fs[1..], rest);
      assert d == FrameTokens(fs[0]) + d';
      forall k | 0 <= k < |fs|
        ensures FrameAt(d, k) == fs[k]
      {
        if k == 0 {
          FrameAtFront(fs[0], d');
        } else {
          FrameAtShift(fs[0], d', k);
          assert fs[k] == fs[1..][k - 1];
        }
      }
    }
  }

  lemma FrameAtFront(f: Frame, d: seq<Int32>)
    ensures FrameAt(FrameTokens(f) + d, 0) == f
  {
  }

  /** Past a frame's five integers, the frames read are those of the rest. */
  lemma FrameAtShift(f: Frame, d: seq<Int32>, k: nat)
    requires 0 < k && 5 * k <= |d|
    ensures FrameAt(FrameTokens(f) + d, k) == FrameAt(d, k - 1)
  {
    var e := FrameTokens(f) + d;
    var j := 5 * (k - 1);
    assert e[5 * k] == d[j] && e[5 * k + 1] == d[j + 1] && e[5 * k + 2] == d[j + 2];
    assert e[5 * k + 3] == d[j + 3] && e[5 * k + 4] == d[j + 4];
  }

  lemma {:induction false} TokensOfFramesAt(d: seq<Int32>, n: nat)
    requires 5 * n <= |d|
    ensures FramesTokens(FramesAt(d, n)) == d[..5 * n]
  {
    if n > 0 {
      var fs := FramesAt(d, n);
      TokensOfFramesAt(d[5..], n - 1);
      assert fs[1..] == FramesAt(d[5..], n - 1);
      assert d[..5 * n] == d[..5] + d[5..][..5 * (n - 1)];
    }
  }

  /** Reading blocks back from their integers gives the same blocks. */
  lemma {:induction false} DecodeBlocksTokens(bs: seq<Block>)
    requires forall b :: b in bs ==> CountFits(b)
    ensures DecodeBlocks(BlocksTokens(bs)) == Ok(bs)
  {
    if bs != [] {
      assert bs[0] in bs;
      DecodeBlocksTokens(bs[1..]);
      DecodeBlockFront(bs[0], BlocksTokens(bs[1..]), bs[1..]);
      assert [bs[0]] + bs[1..] == bs;
    }
  }

  /** A block's integers in front of data that decodes: the block, then the rest. */
  lemma DecodeBlockFront(b: Block, rest: seq<Int32>, bs: seq<Block>)
    requires CountFits(b) && DecodeBlocks(rest) == Ok(bs)
    ensures DecodeBlocks(BlockTokens(b) + rest) == Ok([b] + bs)
  {
    var d := BlockTokens(b) + rest;
    var n := |b.frames|;
    assert d[2..] == FramesTokens(b.frames) + rest;
    assert d[2 + 5 * n..] == rest;
    FramesAtTokens(b.frames, rest);
  }

  lemma BlocksTokensCons(b: Block, bs: seq<Block>)
    requires CountFits(b) && forall c :: c in bs ==> CountFits(c)
    ensures BlocksTokens([b] + bs) == BlockTokens(b) + BlocksTokens(bs)
  {
    assert ([b] + bs)[0] == b;
    assert ([b] + bs)[1..] == bs;
  }

  /** One step of a successful decode: the first block and the decode of the rest. */
  lemma DecodeBlocksStep(d: seq<Int32>)
    requires d != [] && DecodeBlocks(d).Ok?
    ensures |d| >= 2 && 0 <= d[1] && 2 + 5 * (d[1] as int) <= |d|
    ensures DecodeBlocks(d[2 + 5 * (d[1] as int)..]).Ok?
    ensures DecodeBlocks(d).value ==
      [Block(d[0], FramesAt(d[2..], d[1] as nat))] + DecodeBlocks(d[2 + 5 * (d[1] as int)..]).value
  {
  }

  /** The integers of one block laid out at the front of d. */
  lemma BlockTokensAt(d: seq<Int32>, n: nat)
    requires 2 + 5 * n <= |d| && d[1] as int == n
    ensures CountFits(Block(d[0], FramesAt(d[2..], n)))
    ensures BlockTokens(Block(d[0], FramesAt(d[2..], n))) == d[..2 + 5 * n]
  {
    TokensOfFramesAt(d[2..], n);
    assert d[2..][..5 * n] == d[2..2 + 5 * n];
    assert d[..2] + d[2..2 + 5 * n] == d[..2 + 5 * n];
  }

  /** The first block of d written out again, followed by the rest written out. */
  lemma TokensOfFirstBlock(d: seq<Int32>, n: nat, rest: seq<Block>)
    requires 2 + 5 * n <= |d| && d[1] as int == n
    requires forall c :: c in rest ==> CountFits(c)
    requires BlocksTokens(rest) == d[2 + 5 * n..]
    ensures CountFits(Block(d[0], FramesAt(d[2..], n)))
    ensures BlocksTokens([Block(d[0], FramesAt(d[2..], n))] + rest) == d
  {
    var b := Block(d[0], FramesAt(d[2..], n));
    BlockTokensAt(d, n);
    BlocksTokensCons(b, rest);
    assert d[..2 + 5 * n] + d[2 + 5 * n..] == d;
  }

  /** Whatever decodes was laid out exactly as the blocks say: writing the blocks out
      again gives the same integers, so each block is 2 + 5 * count integers. */
  lemma {:induction false} TokensOfDecodeBlocks(d: seq<Int32>)
    requires DecodeBlocks(d).Ok?
    ensures BlocksTokens(DecodeBlocks(d).value) == d
    decreases |d|
  {
    if d == [] {
      assert DecodeBlocks(d).value == [];
    } else {
      DecodeBlocksStep(d);
      var n := d[1] as nat;
      var tail := d[2 + 5 * (d[1] as int)..];
      TokensOfDecodeBlocks(tail);
      TokensOfFirstBlock(d, n, DecodeBlocks(tail).value);
    }
  }

  // ---------------------------------------------------------------- the parsed maps

  type FrameLists = map<int, seq<Frame>>

  /** The list stored under k, or the empty list when there is none. */
  function Lookup(m: FrameLists, k: int): seq<Frame>
  {
    if k in m then m[k] else []
  }

  /** The list under k with f appended; the list is created when k has none. */
  function Appended(m: FrameLists, k: int, f: Frame): FrameLists
  {
    m[k := Lookup(m, k) + [f]]
  }

  /** The two maps of CustomAnimDataParser: frame number to the frames with that
      number (over all panels), and panel id to that panel's frames. */
  datatype Parsed = Parsed(framesByNum: FrameLists, framesByPanel: FrameLists)

  const NoFrames := Parsed(map[], map[])

  /** The frames of one block added in order: frame i goes to framesByNum[i] and to
      framesByPanel[id]. */
  function AddFrames(p: Parsed, id: int, fs: seq<Frame>): Parsed
  {
    if fs == [] then p
    else
      var q := AddFrames(p, id, fs[..|fs| - 1]);
      var i := |fs| - 1;
      Parsed(Appended(q.framesByNum, i, fs[i]), Appended(q.framesByPanel, id, fs[i]))
  }

  /** The blocks added one after the other. */
  function AddBlocks(p: Parsed, bs: seq<Block>): Parsed
  {
    if bs == [] then p
    else
      var b := bs[|bs| - 1];
      AddFrames(AddBlocks(p, bs[..|bs| - 1]), b.panelId, b.frames)
  }

  function Collect(bs: seq<Block>): Parsed
  {
    AddBlocks(NoFrames, bs)
  }

  /** Reference reading: the frames of every block for panel id, in block order. */
  function PanelFrames(bs: seq<Block>, id: int): seq<Frame>
  {
    if bs == [] then []
    else
      var b := bs[|bs| - 1];
      PanelFrames(bs[..|bs| - 1], id) + (if b.panelId == id then b.frames else [])
  }

  /** Reference reading: the i-th frame of every block with more than i frames, in
      block order. */
  function NthFrames(bs: seq<Block>, i: int): seq<Frame>
  {
    if bs == [] then []
    else
      var b := bs[|bs| - 1];
      NthFrames(bs[..|bs| - 1], i) + (if 0 <= i < |b.frames| then [b.frames[i]] else [])
  }

  lemma {:induction false} AddFramesByPanel(p: Parsed, id: int, fs: seq<Frame>)
    ensures AddFrames(p, id, fs).framesByPanel ==
      if fs == [] then p.framesByPanel else p.framesByPanel[id := Lookup(p.framesByPanel, id) + fs]
  {
    if fs != [] {
      var fs' := fs[..|fs| - 1];
      AddFramesByPanel(p, id, fs');
      if fs' == [] {
        assert fs == [fs[|fs| - 1]];
      } else {
        assert Lookup(p.framesByPanel, id) + fs' + [fs[|fs| - 1]] == Lookup(p.framesByPanel, id) + fs;
      }
    }
  }

  lemma {:induction false} AddFramesByNum(p: Parsed, id: int, fs: seq<Frame>)
    ensures forall i :: i in AddFrames(p, id, fs).framesByNum <==> i in p.framesByNum || 0 <= i < |fs|
    ensures forall i :: (Lookup(AddFrames(p, id, fs).framesByNum, i) ==
      Lookup(p.framesByNum, i) + (if 0 <= i < |fs| then [fs[i]] else []))
  {
    if fs != [] {
      var fs' := fs[..|fs| - 1];
      AddFramesByNum(p, id, fs');
      var q := AddFrames(p, id, fs');
      var r := AddFrames(p, id, fs);
      var k := |fs| - 1;
      assert r.framesByNum == q.framesByNum[k := Lookup(q.framesByNum, k) + [fs[k]]];
      forall i
        ensures Lookup(r.framesByNum, i) == Lookup(p.framesByNum, i) + (if 0 <= i < |fs| then [fs[i]] else [])
      {
        if i == k {
          assert Lookup(q.framesByNum, i) == Lookup(p.framesByNum, i);
        } else if 0 <= i < k {
          assert fs'[i] == fs[i];
        }
      }
    }
  }

  /** framesByPanel[id] is exactly the frames of every block for id, in block order;
      a panel is a key only when it has a frame, so a block with no frames adds no
      entry. */
  lemma {:induction false} CollectByPanel(bs: seq<Block>)
    ensures forall id :: Lookup(Collect(bs).framesByPanel, id) == PanelFrames(bs, id)
    ensures forall id :: id in Collect(bs).framesByPanel <==> PanelFrames(bs, id) != []
  {
    if bs != [] {
      var bs' := bs[..|bs| - 1];
      var b := bs[|bs| - 1];
      CollectByPanel(bs');
      var p := Collect(bs');
      assert Collect(bs) == AddFrames(p, b.panelId, b.frames);
      AddFramesByPanel(p, b.panelId, b.frames);
      forall id
        ensures Lookup(Collect(bs).framesByPanel, id) == PanelFrames(bs, id)
        ensures id in Collect(bs).framesByPanel <==> PanelFrames(bs, id) != []
      {
        assert PanelFrames(bs, id) == PanelFrames(bs', id) + (if b.panelId == id then b.frames else []);
      }
    }
  }

  /** framesByNum[i] is exactly the i-th frames of every block that has one, in block
      order; a frame number is a key only when some block has that many frames. */
  lemma {:induction false} CollectByNum(bs: seq<Block>)
    ensures forall i :: Lookup(Collect(bs).framesByNum, i) == NthFrames(bs, i)
    ensures forall i :: i in Collect(bs).framesByNum <==> NthFrames(bs, i) != []
  {
    if bs != [] {
      var bs' := bs[..|bs| - 1];
      var b := bs[|bs| - 1];
      CollectByNum(bs');
      var p := Collect(bs');
      assert Collect(bs) == AddFrames(p, b.panelId, b.frames);
      AddFramesByNum(p, b.panelId, b.frames);
      forall i
        ensures Lookup(Collect(bs).framesByNum, i) == NthFrames(bs, i)
        ensures i in Collect(bs).framesByNum <==> NthFrames(bs, i) != []
      {
        assert NthFrames(bs, i) == NthFrames(bs', i) + (if 0 <= i < |b.frames| then [b.frames[i]] else []);
      }
    }
  }

  // ---------------------------------------------------------------- frame totals

  ghost function PickKey<K, V>(m: map<K, V>): (k: K)
    requires m != map[]
    ensures k in m
  {
    assert |m| > 0;
    var k :| k in m; k
  }

  /** The number of frames held in all the lists of m. */
  ghost function MapTotal(m: FrameLists): nat
    decreases |m|
  {
    if m == map[] then 0
    else
      var k := PickKey(m);
      |m[k]| + MapTotal(m - {k})
  }

  /** The total does not depend on which key is taken out first. */
  lemma {:induction false} MapTotalRemove(m: FrameLists, k: int)
    requires k in m
    ensures MapTotal(m) == |m[k]| + MapTotal(m - {k})
    decreases |m|
  {
    var j := PickKey(m);
    if j != k {
      assert (m - {j}).Keys == m.Keys - {j};
      assert |m - {j}| < |m|;
      MapTotalRemove(m - {j}, k);
      assert (m - {k}).Keys == m.Keys - {k};
      MapTotalRemove(m - {k}, j);
      assert m - {j} - {k} == m - {k} - {j};
    }
  }

  lemma MapTotalAppended(m: FrameLists, k: int, f: Frame)
    ensures MapTotal(Appended(m, k, f)) == MapTotal(m) + 1
  {
    var r := Appended(m, k, f);
    MapTotalRemove(r, k);
    if k in m {
      MapTotalRemove(m, k);
      assert r - {k} == m - {k};
    } else {
      assert r - {k} == m;
    }
  }

  function TotalFrames(bs: seq<Block>): nat
  {
    if bs == [] then 0 else TotalFrames(bs[..|bs| - 1]) + |bs[|bs| - 1].frames|
  }

  lemma {:induction false} AddFramesTotals(p: Parsed, id: int, fs: seq<Frame>)
    ensures MapTotal(AddFrames(p, id, fs).framesByPanel) == MapTotal(p.framesByPanel) + |fs|
    ensures MapTotal(AddFrames(p, id, fs).framesByNum) == MapTotal(p.framesByNum) + |fs|
  {
    if fs != [] {
      var fs' := fs[..|fs| - 1];
      AddFramesTotals(p, id, fs');
      var q := AddFrames(p, id, fs');
      MapTotalAppended(q.framesByNum, |fs| - 1, fs[|fs| - 1]);
      MapTotalAppended(q.framesByPanel, id, fs[|fs| - 1]);
    }
  }

  /** Both maps hold every frame of the data once: their totals equal the sum of the
      blocks' frame counts. */
  lemma {:induction false} CollectTotals(bs: seq<Block>)
    ensures MapTotal(Collect(bs).framesByPanel) == TotalFrames(bs)
    ensures MapTotal(Collect(bs).framesByNum) == TotalFrames(bs)
  {
    if bs != [] {
      var bs' := bs[..|bs| - 1];
      var b := bs[|bs| - 1];
      CollectTotals(bs');
      AddFramesTotals(Collect(bs'), b.panelId, b.frames);
    }
  }

  // ---------------------------------------------------------------- custom text

  /** What CustomAnimDataParser.parse computes from animData, or the exception it
      ends in. */
  function ParseCustom(animData: string): (r: Result<Parsed>)
    ensures DataTokens(animData).Err? ==> r == Err(DataTokens(animData).error)
    ensures DataTokens(animData).Ok? && DecodeBlocks(DataTokens(animData).value).Ok? ==>
      r == Ok(Collect(DecodeBlocks(DataTokens(animData).value).value))
  {
    match DataTokens(animData)
    case Err(e) => Err(e)
    case Ok(d) =>
      match DecodeBlocks(d)
      case Err(e) => Err(e)
      case Ok(bs) => Ok(Collect(bs))
  }

  /** One block per layout panel, in layout order, with that panel's frame list. */
  function LayoutBlocks(layout: seq<Int32>, frames: map<int, seq<Frame>>): (bs: seq<Block>)
    requires forall id :: id in layout ==> id in frames
    ensures |bs| == |layout|
    ensures forall i :: 0 <= i < |layout| ==> bs[i] == Block(layout[i], frames[layout[i]])
  {
    seq(|layout|, i requires 0 <= i < |layout| => Block(layout[i], frames[layout[i]]))
  }

  /** Frame lists short enough for their sizes to be written as ints. */
  predicate ListsFit(layout: seq<Int32>, frames: map<int, seq<Frame>>)
  {
    forall id :: id in layout ==> id in frames && |frames[id]| <= INT_MAX
  }

  /** The animData that CustomEffectBuilder.build and Effect.Animation.createAnimation
      write: the panel count, then for each layout panel "id n" and five integers per
      frame. */
  function CustomText(numPanels: Int32, layout: seq<Int32>, frames: map<int, seq<Frame>>): string
    requires ListsFit(layout, frames)
  {
    var bs := LayoutBlocks(layout, frames);
    assert forall b :: b in bs ==> CountFits(b);
    JoinInts([numPanels] + BlocksTokens(bs))
  }

  /** Panel ids that occur once in the layout. */
  predicate Distinct(layout: seq<Int32>)
  {
    forall i, j :: 0 <= i < j < |layout| ==> layout[i] != layout[j]
  }

  lemma {:induction false} PanelFramesOfLayout(layout: seq<Int32>, frames: map<int, seq<Frame>>, id: int)
    requires Distinct(layout) && forall k :: k in layout ==> k in frames
    ensures PanelFrames(LayoutBlocks(layout, frames), id) == if id in layout then frames[id] else []
  {
    if layout != [] {
      var n := |layout| - 1;
      var layout' := layout[..n];
      var bs := LayoutBlocks(layout, frames);
      LayoutPrefix(layout, frames);
      PanelFramesOfLayout(layout', frames, id);
      assert bs[n] == Block(layout[n], frames[layout[n]]);
      assert PanelFrames(bs, id) == PanelFrames(bs[..n], id) + (if layout[n] == id then frames[id] else []);
    }
  }

  /** Dropping the last layout panel keeps the other facts PanelFramesOfLayout needs. */
  lemma LayoutPrefix(layout: seq<Int32>, frames: map<int, seq<Frame>>)
    requires layout != [] && Distinct(layout) && forall k :: k in layout ==> k in frames
    ensures var layout' := layout[..|layout| - 1];
      && Distinct(layout') && (forall k :: k in layout' ==> k in frames)
      && LayoutBlocks(layout, frames)[..|layout| - 1] == LayoutBlocks(layout', frames)
      && layout[|layout| - 1] !in layout'
      && forall k :: k in layout <==> k in layout' || k == layout[|layout| - 1]
  {
    var n := |layout| - 1;
    assert layout == layout[..n] + [layout[n]];
  }

  /** The total number of integers build writes: the count, then 2 + 5n per panel. */
  lemma {:induction false} BlocksTokensLength(bs: seq<Block>)
    requires forall b :: b in bs ==> CountFits(b)
    ensures |BlocksTokens(bs)| == 2 * |bs| + 5 * TotalFrames(bs)
  {
    if bs != [] {
      BlocksTokensLength(bs[1..]);
      TotalFramesCons(bs);
    }
  }

  lemma {:induction false} TotalFramesCons(bs: seq<Block>)
    requires bs != []
    ensures TotalFrames(bs) == |bs[0].frames| + TotalFrames(bs[1..])
    decreases |bs|
  {
    if |bs| > 1 {
      var bs' := bs[..|bs| - 1];
      TotalFramesCons(bs');
      assert bs'[1..] == bs[1..][..|bs| - 2];
    } else {
      assert bs[..|bs| - 1] == [];
    }
  }

  /** Parsing what build writes gives back, for every layout panel with at least one
      frame, that panel's list, and no other entry; the count token does not matter.
      Layout ids must be distinct: a repeated id would list its frames twice. */
  lemma CustomRoundTrip(numPanels: Int32, layout: seq<Int32>, frames: map<int, seq<Frame>>)
    requires ListsFit(layout, frames) && Distinct(layout)
    ensures ParseCustom(CustomText(numPanels, layout, frames)).Ok?
    ensures var p := ParseCustom(CustomText(numPanels, layout, frames)).value;
      forall id :: (id in p.framesByPanel <==> id in layout && frames[id] != []) &&
        (id in p.framesByPanel ==> p.framesByPanel[id] == frames[id])
  {
    var bs := LayoutBlocks(layout, frames);
    assert forall b :: b in bs ==> CountFits(b);
    DataTokensOfJoin(numPanels, BlocksTokens(bs));
    DecodeBlocksTokens(bs);
    CollectByPanel(bs);
    forall id {
      PanelFramesOfLayout(layout, frames, id);
    }
  }

  // ---------------------------------------------------------------- static blocks

  /** The frame of the static block at k: the integers after its id and count. */
  function StaticFrameAt(d: seq<Int32>, k: nat): Frame
    requires k + 7 <= |d|
  {
    Frame(d[k + 2], d[k + 3], d[k + 4], d[k + 5], d[k + 6])
  }

  /** StaticAnimDataParser's map: the blocks of seven integers put in order, so a
      later block for an id replaces an earlier one. */
  function StaticFrames(d: seq<Int32>): map<int, Frame>
    requires |d| % 7 == 0
  {
    if d == [] then map[]
    else
      var k := |d| - 7;
      StaticFrames(d[..k])[d[k] := StaticFrameAt(d, k)]
  }

  /** The step-7 loop finishes only when the integers split into whole blocks; a
      partial block reads past the end of the array. */
  function DecodeStatic(d: seq<Int32>): (r: Result<map<int, Frame>>)
    ensures r.Ok? <==> |d| % 7 == 0
    ensures r.Err? ==> r.error == IndexOutOfBounds
  {
    if |d| % 7 == 0 then Ok(StaticFrames(d)) else Err(IndexOutOfBounds)
  }

  /** What StaticAnimDataParser.parse computes from animData, or its exception. */
  function ParseStatic(animData: string): (r: Result<map<int, Frame>>)
    ensures DataTokens(animData).Err? ==> r == Err(DataTokens(animData).error)
    ensures DataTokens(animData).Ok? ==> r == DecodeStatic(DataTokens(animData).value)
  {
    match DataTokens(animData)
    case Err(e) => Err(e)
    case Ok(d) => DecodeStatic(d)
  }

  lemma StaticFramesSnoc(d: seq<Int32>, blk: seq<Int32>)
    requires |d| % 7 == 0 && |blk| == 7
    ensures StaticFrames(d + blk) == StaticFrames(d)[blk[0] := StaticFrameAt(blk, 0)]
  {
    assert (d + blk)[..|d|] == d;
  }

  /** An id is a key exactly when some block starts with it. */
  lemma {:induction false} StaticKeys(d: seq<Int32>)
    requires |d| % 7 == 0
    ensures forall id :: id in StaticFrames(d) <==> exists j :: 0 <= j < |d| / 7 && d[7 * j] == id
  {
    if d != [] {
      var nb := |d| / 7;
      var k := |d| - 7;
      var d' := d[..k];
      assert k == 7 * (nb - 1) && |d'| / 7 == nb - 1;
      StaticKeys(d');
      forall id
        ensures id in StaticFrames(d) <==> exists j :: 0 <= j < nb && d[7 * j] == id
      {
        if id in StaticFrames(d) && id != d[k] {
          assert id in StaticFrames(d');
          var j :| 0 <= j < nb - 1 && d'[7 * j] == id;
          assert d[7 * j] == id;
        }
        if id in StaticFrames(d) && id == d[k] {
          assert d[7 * (nb - 1)] == id;
        }
        if exists j :: 0 <= j < nb && d[7 * j] == id {
          var j :| 0 <= j < nb && d[7 * j] == id;
          if j < nb - 1 {
            assert d'[7 * j] == id;
          }
        }
      }
    }
  }

  /** A later block for the same id overwrites an earlier one: a block that no later
      block repeats gives its id's frame. */
  lemma {:induction false} StaticLastWins(d: seq<Int32>, j: nat)
    requires |d| % 7 == 0 && j < |d| / 7
    requires forall i :: j < i < |d| / 7 ==> d[7 * i] != d[7 * j]
    ensures d[7 * j] in StaticFrames(d) && StaticFrames(d)[d[7 * j]] == StaticFrameAt(d, 7 * j)
  {
    var k := |d| - 7;
    var d' := d[..k];
    if 7 * j != k {
      assert j < |d'| / 7;
      forall i | j < i < |d'| / 7
        ensures d'[7 * i] != d'[7 * j]
      {
        assert d'[7 * i] == d[7 * i];
      }
      StaticLastWins(d', j);
      assert d[k] != d[7 * j] by { assert k == 7 * (|d| / 7 - 1); }
      assert StaticFrameAt(d', 7 * j) == StaticFrameAt(d, 7 * j);
    }
  }

  /** Block ids that occur once. */
  predicate StaticIdsDistinct(d: seq<Int32>)
  {
    forall i, j :: 0 <= i < j < |d| / 7 ==> d[7 * i] != d[7 * j]
  }

  /** At most one entry per block, exactly one when the block ids are distinct. */
  lemma {:induction false} StaticSize(d: seq<Int32>)
    requires |d| % 7 == 0
    ensures |StaticFrames(d)| <= |d| / 7
    ensures StaticIdsDistinct(d) ==> |StaticFrames(d)| == |d| / 7
  {
    if d != [] {
      var k := |d| - 7;
      var d' := d[..k];
      StaticSize(d');
      if StaticIdsDistinct(d) {
        assert StaticIdsDistinct(d') by {
          forall i, j | 0 <= i < j < |d'| / 7
            ensures d'[7 * i] != d'[7 * j]
          {
            assert d'[7 * i] == d[7 * i] && d'[7 * j] == d[7 * j];
          }
        }
        StaticKeys(d');
        assert k == 7 * (|d| / 7 - 1) && |d'| / 7 == |d| / 7 - 1;
        assert forall j :: 0 <= j < |d'| / 7 ==> d'[7 * j] != d[k] by {
          forall j | 0 <= j < |d'| / 7
            ensures d'[7 * j] != d[k]
          {
            assert d'[7 * j] == d[7 * j];
          }
        }
      }
    }
  }

  /** The count token of every block is never read: data that agrees on every
      block's id and five frame values gives the same map. */
  lemma {:induction false} StaticIgnoresCounts(d: seq<Int32>, e: seq<Int32>)
    requires |d| == |e| && |d| % 7 == 0
    requires forall j :: 0 <= j < |d| / 7 ==> d[7 * j] == e[7 * j] && StaticFrameAt(d, 7 * j) == StaticFrameAt(e, 7 * j)
    ensures StaticFrames(d) == StaticFrames(e)
  {
    if d != [] {
      var nb := |d| / 7;
      var k := |d| - 7;
      assert k == 7 * (nb - 1) && |d[..k]| / 7 == nb - 1;
      forall j | 0 <= j < nb - 1
        ensures d[..k][7 * j] == e[..k][7 * j] && StaticFrameAt(d[..k], 7 * j) == StaticFrameAt(e[..k], 7 * j)
      {
        assert StaticFrameAt(d[..k], 7 * j) == StaticFrameAt(d, 7 * j);
        assert StaticFrameAt(e[..k], 7 * j) == StaticFrameAt(e, 7 * j);
      }
      StaticIgnoresCounts(d[..k], e[..k]);
      assert d[k] == e[k] && StaticFrameAt(d, k) == StaticFrameAt(e, k);
    }
  }

  /** The integers StaticEffectBuilder.build writes after the count: one block
      "id 1 r g b w t" for each layout panel that has a frame, in layout order. */
  function StaticBody(layout: seq<Int32>, frames: map<int, Frame>): (d: seq<Int32>)
    ensures |d| % 7 == 0 && |d| <= 7 * |layout|
  {
    if layout == [] then []
    else
      var id := layout[|layout| - 1];
      StaticBody(layout[..|layout| - 1], frames) +
        (if id in frames then [id, 1] + FrameTokens(frames[id]) else [])
  }

  /** The entries of frames whose ids are in the layout. */
  function Restrict(frames: map<int, Frame>, layout: seq<Int32>): map<int, Frame>
  {
    map id | id in frames && id in layout :: frames[id]
  }

  lemma RestrictSnoc(frames: map<int, Frame>, layout: seq<Int32>, id: Int32)
    ensures Restrict(frames, layout + [id]) ==
      if id in frames then Restrict(frames, layout)[id := frames[id]] else Restrict(frames, layout)
  {
    var a := Restrict(frames, layout + [id]);
    var b := if id in frames then Restrict(frames, layout)[id := frames[id]] else Restrict(frames, layout);
    assert forall i :: i in layout + [id] <==> i in layout || i == id;
    assert a.Keys == b.Keys;
    assert forall i :: i in a ==> a[i] == b[i];
  }

  /** Reading the builder's blocks back gives the builder's map restricted to the
      layout ids. */
  lemma {:induction false} StaticFramesOfBody(layout: seq<Int32>, frames: map<int, Frame>)
    ensures StaticFrames(StaticBody(layout, frames)) == Restrict(frames, layout)
  {
    if layout != [] {
      var n := |layout| - 1;
      var id := layout[n];
      var layout' := layout[..n];
      StaticFramesOfBody(layout', frames);
      assert layout == layout' + [id];
      RestrictSnoc(frames, layout', id);
      if id in frames {
        var blk := [id, 1] + FrameTokens(frames[id]);
        assert StaticBody(layout, frames) == StaticBody(layout', frames) + blk;
        StaticFramesSnoc(StaticBody(layout', frames), blk);
        assert blk[0] == id && StaticFrameAt(blk, 0) == frames[id];
      } else {
        assert StaticBody(layout, frames) == StaticBody(layout', frames);
      }
    }
  }

  lemma StaticFramesOfFullBody(layout: seq<Int32>, frames: map<int, Frame>)
    requires forall id :: id in frames ==> id in layout
    ensures StaticFrames(StaticBody(layout, frames)) == frames
  {
    StaticFramesOfBody(layout, frames);
    var m := Restrict(frames, layout);
    forall id | id in frames
      ensures id in m
    {
      assert id in layout;
    }
    assert m.Keys == frames.Keys;
    assert forall id :: id in m ==> m[id] == frames[id];
  }

  /** Parsing what StaticEffectBuilder.build writes gives back the builder's map, when
      every key is a layout id (the builder keeps that invariant). */
  lemma StaticRoundTrip(count: int, layout: seq<Int32>, frames: map<int, Frame>)
    requires forall id :: id in frames ==> id in layout
    ensures ParseStatic(JoinInts([count] + StaticBody(layout, frames))) == Ok(frames)
  {
    var body := StaticBody(layout, frames);
    DataTokensOfJoin(count, body);
    StaticFramesOfFullBody(layout, frames);
  }
}
