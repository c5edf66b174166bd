/** io.github.rowak.effectbuilder.CustomEffectBuilder: one list of frames per layout
    panel, edited in place, and build, which writes them as custom animData. */
module CustomEffectBuilding {
  import opened Wrappers
  import opened JavaText
  import opened Frames
  import opened AnimData
  import opened AnimWriting
  import opened LocalEffects

  class CustomEffectBuilder {
    /** The ids of the controller's layout panels, in layout order. */
    const panels: seq<Int32>
    var frames: map<int, seq<AnimFrame>>

    /** The map has a list for every layout panel and for nothing else. */
    ghost predicate Valid()
      reads this
    {
      forall id :: id in frames <==> id in panels
    }

    /** new CustomEffectBuilder(controller), given the layout's panel ids: every panel
        starts with an empty list. */
    constructor(panels: seq<Int32>)
      ensures Valid() && this.panels == panels && frames == EmptyLists(panels)
    {
      this.panels := panels;
      frames := EmptyLists(panels);
    }

    /** addFrame(panelId, frame), and addFrame(panel, frame) with panel.getId():
        frame goes to the end of that panel's list; an id outside the layout has no
        list, and add on it is a NullPointerException. */
    method AddFrame(panelId: int, frame: AnimFrame) returns (outcome: Outcome)
      requires Valid()
      modifies this
      ensures Valid()
      ensures panelId in panels ==>
        outcome == Done && frames == old(frames)[panelId := old(frames)[panelId] + [frame]]
      ensures panelId !in panels ==> outcome == Throws(NullPointer) && frames == old(frames)
    {
      if panelId !in frames {
        return Throws(NullPointer);
      }
      frames := frames[panelId := frames[panelId] + [frame]];
      outcome := Done;
    }

    /** removeFrame(panelId, frame), and removeFrame(panel, frame) with panel.getId():
        the first occurrence of that frame object leaves the panel's list, which is
        unchanged when it holds none; an id outside the layout is a
        NullPointerException. */
    method RemoveFrame(panelId: int, frame: AnimFrame) returns (outcome: Outcome)
      requires Valid()
      modifies this
      ensures Valid()
      ensures panelId in panels ==>
        outcome == Done && frames == old(frames)[panelId := RemoveFirst(old(frames)[panelId], frame)]
      ensures panelId !in panels ==> outcome == Throws(NullPointer) && frames == old(frames)
    {
      if panelId !in frames {
        return Throws(NullPointer);
      }
      frames := frames[panelId := RemoveFirst(frames[panelId], frame)];
      outcome := Done;
    }

    /** build(effectName, loop), with the controller's panel count as numPanels: a
        custom effect whose animData is the panel count, then "id n" and five integers
        per frame for each layout panel. The builder itself is not changed. */
    method Build(numPanels: Int32, effectName: Option<string>, loop: bool) returns (ef: Effect)
      requires Valid() && forall id :: id in frames ==> |frames[id]| <= INT_MAX
      ensures fresh(ef) && ef.Fields() == CustomEffect(effectName, Some(CustomText(numPanels, panels, Values(frames))), loop)
    {
      var data := WriteCustomData(numPanels, panels, frames);
      ef := CreateCustomEffect(effectName, Some(data), loop);
    }
  }

  /** build writes 1 + (2 + 5n) integers, n being each layout panel's frame count; a
      panel without frames still has its "id 0". */
  lemma {:induction false} BuildTokenCount(numPanels: Int32, layout: seq<Int32>, frames: map<int, seq<Frame>>)
    requires ListsFit(layout, frames)
    ensures |Split(CustomText(numPanels, layout, frames), ' ')| ==
      1 + 2 * |layout| + 5 * TotalFrames(LayoutBlocks(layout, frames))
  {
    var bs := LayoutBlocks(layout, frames);
    assert forall b :: b in bs ==> CountFits(b);
    SplitJoinInts([numPanels] + BlocksTokens(bs));
    BlocksTokensLength(bs);
  }

  /** A panel with an empty list is written as "id 0", nothing after it. */
  lemma EmptyPanelBlock(id: Int32)
    ensures BlockTokens(Block(id, [])) == [id, 0]
  {
  }
}
