/** The StringBuilder loop that CustomEffectBuilder.build and
    Effect.Animation.createAnimation share: the panel count, then for each layout
    panel " id n" and " r g b w t" for each of its frames. */
module AnimWriting {
  import opened Wrappers
  import opened JavaText
  import opened Frames
  import opened AnimData

  /** The values carried by a list of Effect.Animation.Frame objects. */
  function FrameValues(fs: seq<AnimFrame>): (vs: seq<Frame>)
    ensures |vs| == |fs| && forall j :: 0 <= j < |fs| ==> vs[j] == fs[j].Value()
  {
    seq(|fs|, j requires 0 <= j < |fs| => fs[j].Value())
  }

  /** The frame values of every panel's list. */
  function Values(frames: map<int, seq<AnimFrame>>): (vs: map<int, seq<Frame>>)
    ensures vs.Keys == frames.Keys
    ensures forall id :: id in frames ==> vs[id] == FrameValues(frames[id])
  {
    map id | id in frames :: FrameValues(frames[id])
  }

  // ---------------------------------------------------------------- List.remove(Object)

  /** The position of the first element equal to x. */
  function FirstIndex<T(==)>(s: seq<T>, x: T): (k: nat)
    requires x in s
    ensures k < |s| && s[k] == x && x !in s[..k]
  {
    if s[0] == x then 0
    else
      var k := FirstIndex(s[1..], x);
      assert s[1..][..k] == s[1..k + 1];
      k + 1
  }

  /** ArrayList.remove(Object): the first element equal to x taken out, or the list
      unchanged when there is none. Effect.Animation.Frame does not override equals,
      so for these lists "equal" is "the same object". */
  function RemoveFirst<T(==)>(s: seq<T>, x: T): seq<T>
  {
    if x in s then s[..FirstIndex(s, x)] + s[FirstIndex(s, x) + 1..] else s
  }

  /** Removing takes out exactly one occurrence when there is one, and nothing else. */
  lemma RemoveFirstCount<T>(s: seq<T>, x: T)
    ensures x in s ==> multiset(RemoveFirst(s, x)) == multiset(s) - multiset{x}
    ensures x in s ==> |RemoveFirst(s, x)| == |s| - 1
    ensures x in s ==> var k := FirstIndex(s, x); RemoveFirst(s, x)[..k] == s[..k] && RemoveFirst(s, x)[k..] == s[k + 1..]
    ensures x !in s ==> RemoveFirst(s, x) == s
  {
    if x in s {
      var k := FirstIndex(s, x);
      assert s == s[..k] + [x] + s[k + 1..];
      var r := RemoveFirst(s, x);
      assert r[..k] == s[..k] && r[k..] == s[k + 1..];
    }
  }

  /** Removing an object that was just added, and was not in the list before, gives
      the list back. */
  lemma RemoveAfterAdd<T>(s: seq<T>, x: T)
    requires x !in s
    ensures RemoveFirst(s + [x], x) == s
  {
    var t := s + [x];
    assert t[|s|] == x && t[..|s|] == s;
    assert FirstIndex(t, x) == |s|;
  }

  lemma {:induction false} FramesTokensSnoc(fs: seq<Frame>, f: Frame)
    ensures FramesTokens(fs + [f]) == FramesTokens(fs) + FrameTokens(f)
  {
    if fs == [] {
      assert [f][1..] == [];
    } else {
      assert (fs + [f])[1..] == fs[1..] + [f];
      FramesTokensSnoc(fs[1..], f);
    }
  }

  lemma {:induction false} BlocksTokensSnoc(bs: seq<Block>, b: Block)
    requires CountFits(b) && forall c :: c in bs ==> CountFits(c)
    ensures BlocksTokens(bs + [b]) == BlocksTokens(bs) + BlockTokens(b)
  {
    if bs == [] {
      assert [b][1..] == [];
    } else {
      assert (bs + [b])[0] == bs[0] && (bs + [b])[1..] == bs[1..] + [b];
      assert bs[0] in bs;
      BlocksTokensSnoc(bs[1..], b);
    }
  }

  /** The integers written for the first j frames of a list. */
  function ListTokens(list: seq<AnimFrame>, j: nat): seq<int>
    requires j <= |list|
  {
    if j == 0 then [] else ListTokens(list, j - 1) + FrameTokens(list[j - 1].Value())
  }

  lemma {:induction false} ListTokensOfValues(list: seq<AnimFrame>)
    ensures ListTokens(list, |list|) == FramesTokens(FrameValues(list))
    decreases |list|
  {
    if list != [] {
      var n := |list| - 1;
      var init := list[..n];
      ListTokensOfValues(init);
      ListTokensPrefix(list, n);
      assert FrameValues(list) == FrameValues(init) + [list[n].Value()];
      FramesTokensSnoc(FrameValues(init), list[n].Value());
    }
  }

  lemma {:induction false} ListTokensPrefix(list: seq<AnimFrame>, j: nat)
    requires j <= |list|
    ensures ListTokens(list, j) == ListTokens(list[..j], j)
    decreases j
  {
    if j > 0 {
      ListTokensPrefix(list, j - 1);
      ListTokensPrefix(list[..j], j - 1);
      assert list[..j][..j - 1] == list[..j - 1];
    }
  }

  /** The integers written for the first i layout panels. */
  function LayoutTokens(layout: seq<Int32>, frames: map<int, seq<AnimFrame>>, i: nat): seq<int>
    requires i <= |layout| && forall id :: id in layout ==> id in frames
  {
    if i == 0 then []
    else
      var id := layout[i - 1];
      LayoutTokens(layout, frames, i - 1) + [id, |frames[id]|] + ListTokens(frames[id], |frames[id]|)
  }

  lemma {:induction false} LayoutTokensOfBlocks(layout: seq<Int32>, frames: map<int, seq<AnimFrame>>)
    requires ListsFit(layout, Values(frames))
    ensures LayoutTokens(layout, frames, |layout|) == BlocksTokens(LayoutBlocks(layout, Values(frames)))
    decreases |layout|
  {
    var vals := Values(frames);
    if layout != [] {
      var n := |layout| - 1;
      var init := layout[..n];
      var id := layout[n];
      var list := frames[id];
      InitFits(layout, vals);
      LayoutTokensOfBlocks(init, frames);
      LayoutTokensPrefix(layout, frames, n);
      LayoutBlocksLast(layout, vals);
      BlocksTokensSnoc(LayoutBlocks(init, vals), Block(id, vals[id]));
      BlockTokensOfList(id, list);
      Associative(LayoutTokens(layout, frames, n), [id, |list|], ListTokens(list, |list|));
    }
  }

  lemma InitFits(layout: seq<Int32>, frames: map<int, seq<Frame>>)
    requires layout != [] && ListsFit(layout, frames)
    ensures ListsFit(layout[..|layout| - 1], frames)
    ensures forall c :: c in LayoutBlocks(layout[..|layout| - 1], frames) ==> CountFits(c)
    ensures CountFits(Block(layout[|layout| - 1], frames[layout[|layout| - 1]]))
  {
    assert forall k :: k in layout[..|layout| - 1] ==> k in layout;
  }

  lemma LayoutBlocksLast(layout: seq<Int32>, frames: map<int, seq<Frame>>)
    requires layout != [] && forall id :: id in layout ==> id in frames
    ensures forall id :: id in layout[..|layout| - 1] ==> id in frames
    ensures var n := |layout| - 1;
      LayoutBlocks(layout, frames) == LayoutBlocks(layout[..n], frames) + [Block(layout[n], frames[layout[n]])]
  {
    var n := |layout| - 1;
    assert forall k :: k in layout[..n] ==> k in layout;
    var a := LayoutBlocks(layout, frames);
    var b := LayoutBlocks(layout[..n], frames) + [Block(layout[n], frames[layout[n]])];
    assert forall i :: 0 <= i < |a| ==> a[i] == b[i];
  }

  lemma BlockTokensOfList(id: Int32, list: seq<AnimFrame>)
    requires |list| <= INT_MAX
    ensures BlockTokens(Block(id, FrameValues(list))) == [id, |list|] + ListTokens(list, |list|)
  {
    ListTokensOfValues(list);
  }

  lemma Associative<T>(a: seq<T>, b: seq<T>, c: seq<T>)
    ensures (a + b) + c == a + (b + c)
  {
  }

  lemma {:induction false} LayoutTokensPrefix(layout: seq<Int32>, frames: map<int, seq<AnimFrame>>, i: nat)
    requires i <= |layout| && forall id :: id in layout ==> id in frames
    ensures forall id :: id in layout[..i] ==> id in frames
    ensures LayoutTokens(layout, frames, i) == LayoutTokens(layout[..i], frames, i)
    decreases i
  {
    assert forall id :: id in layout[..i] ==> id in layout;
    if i > 0 {
      LayoutTokensPrefix(layout, frames, i - 1);
      LayoutTokensPrefix(layout[..i], frames, i - 1);
      assert layout[..i][..i - 1] == layout[..i - 1];
    }
  }

  /** The text of a run of integers after a first one, as JoinInts writes it. */
  lemma JoinIntsFront(n: int, ts: seq<int>)
    ensures JoinInts([n] + ts) == IntToString(n) + AppendInts(ts)
  {
    assert ([n] + ts)[0] == n && ([n] + ts)[1..] == ts;
  }

  /** Appending the text of more integers to the text of some. */
  lemma AppendMore(data: string, head: string, ts: seq<int>, us: seq<int>, rest: string)
    requires data == head + AppendInts(ts) && rest == AppendInts(us)
    ensures data + rest == head + AppendInts(ts + us)
  {
    AppendIntsConcat(ts, us);
    Associative(head, AppendInts(ts), AppendInts(us));
  }
  lemma ListTokensStep(list: seq<AnimFrame>, j: nat, ts: seq<int>)
    requires j < |list|
    ensures ts + ListTokens(list, j) + FrameTokens(list[j].Value()) == ts + ListTokens(list, j + 1)
  {
  }

  lemma LayoutTokensStep(layout: seq<Int32>, frames: map<int, seq<AnimFrame>>, i: nat)
    requires i < |layout| && forall id :: id in layout ==> id in frames
    ensures var list := frames[layout[i]];
      LayoutTokens(layout, frames, i) + ([layout[i], |list|] + ListTokens(list, |list|)) == LayoutTokens(layout, frames, i + 1)
  {
  }

  /** The frames of one panel: " r g b w t" for each one, in list order. */
  method WriteFrames(data: string, ghost ts: seq<int>, list: seq<AnimFrame>) returns (out: string)
    requires data == AppendInts(ts)
    ensures out == AppendInts(ts + ListTokens(list, |list|))
  {
    out := data;
    var j := 0;
    assert ts + [] == ts;
    while j < |list|
      invariant 0 <= j <= |list|
      invariant out == AppendInts(ts + ListTokens(list, j))
    {
      var frame := list[j];
      // " " + getRed() + " " + getGreen() + " " + getBlue() + " " + getWhite() + " " + getTransitionTime()
      var tokens := FrameTokens(frame.Value());
      AppendMore(out, "", ts + ListTokens(list, j), tokens, AppendInts(tokens));
      ListTokensStep(list, j, ts);
      out := out + AppendInts(tokens);
      j := j + 1;
    }
  }

  /** The whole animData: numPanels, then one block per layout panel. Every layout
      id has a list (the builders put one for each panel), and no list is longer than
      an int can count. */
  method WriteCustomData(numPanels: Int32, layout: seq<Int32>, frames: map<int, seq<AnimFrame>>) returns (data: string)
    requires ListsFit(layout, Values(frames))
    ensures data == CustomText(numPanels, layout, Values(frames))
  {
    data := IntToString(numPanels);
    var i := 0;
    while i < |layout|
      invariant 0 <= i <= |layout|
      invariant data == IntToString(numPanels) + AppendInts(LayoutTokens(layout, frames, i))
    {
      var id := layout[i];
      var list := frames[id];
      var numFrames := |list| as Int32;
      var rest := WriteFrames(AppendInts([id, numFrames]), [id, numFrames], list);
      AppendMore(data, IntToString(numPanels), LayoutTokens(layout, frames, i),
                 [id, numFrames] + ListTokens(list, |list|), rest);
      LayoutTokensStep(layout, frames, i);
      data := data + rest;
      i := i + 1;
    }
    LayoutTokensOfBlocks(layout, frames);
    JoinIntsFront(numPanels, BlocksTokens(LayoutBlocks(layout, Values(frames))));
  }
}
