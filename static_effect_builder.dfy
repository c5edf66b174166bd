/** io.github.rowak.effectbuilder.StaticEffectBuilder: at most one frame per layout
    panel, and build, which writes them as static animData. */
module StaticEffectBuilding {
  import opened Wrappers
  import opened JavaText
  import opened Frames
  import opened AnimData
  import opened AnimWriting

  class StaticEffectBuilder {
    /** The ids of the controller's layout panels, in layout order. */
    const panels: seq<Int32>
    var frames: map<int, Frame>

    /** Only layout panels have a frame. */
    ghost predicate Valid()
      reads this
    {
      forall id :: id in frames ==> id in panels
    }

    /** new StaticEffectBuilder(controller), given the layout's panel ids. */
    constructor(panels: seq<Int32>)
      ensures Valid() && this.panels == panels && frames == map[]
    {
      this.panels := panels;
      frames := map[];
    }

    function GetFrames(): map<int, Frame>
      reads this
    {
      frames
    }

    /** panelIdIsValid(panelId): a linear search of the layout. */
    method PanelIdIsValid(panelId: int) returns (valid: bool)
      ensures valid <==> panelId in panels
    {
      for i := 0 to |panels|
        invariant panelId !in panels[..i]
      {
        if panels[i] == panelId {
          return true;
        }
      }
      assert panels[..|panels|] == panels;
      return false;
    }

    /** setPanel(panelId, frame), and setPanel(panel, frame) with panel.getId(): the
        panel's frame is set, replacing any earlier one; an id outside the layout is an
        IllegalArgumentException and nothing changes. */
    method SetPanel(panelId: int, frame: Frame) returns (outcome: Outcome)
      requires Valid()
      modifies this
      ensures Valid()
      ensures panelId in panels ==> outcome == Done && frames == old(frames)[panelId := frame]
      ensures panelId !in panels ==> outcome == Throws(IllegalArgument) && frames == old(frames)
    {
      var valid := PanelIdIsValid(panelId);
      if !valid {
        return Throws(IllegalArgument);
      }
      frames := frames[panelId := frame];
      outcome := Done;
    }

    /** setAllPanels(frame): every layout panel gets the frame. */
    method SetAllPanels(frame: Frame)
      requires Valid()
      modifies this
      ensures Valid()
      ensures frames == old(frames) + AllPanels(panels, frame)
    {
      for i := 0 to |panels|
        invariant Valid()
        invariant frames == old(frames) + AllPanels(panels[..i], frame)
      {
        AllPanelsSnoc(panels[..i], panels[i], frame);
        assert panels[..i + 1] == panels[..i] + [panels[i]];
        frames := frames[panels[i] := frame];
      }
      assert panels[..|panels|] == panels;
    }

    /** build(effectName): frames.size(), then "id 1 r g b w t" for each layout panel
        that has a frame, in layout order. The builder itself is not changed, and
        StaticAnimDataParser reads the text back as the builder's map. */
    method Build() returns (data: string)
      requires Valid()
      ensures data == JoinInts([|frames|] + StaticBody(panels, frames))
      ensures ParseStatic(data) == Ok(frames)
    {
      data := IntToString(|frames|);
      var ids := frames.Keys;
      for i := 0 to |panels|
        invariant data == IntToString(|frames|) + AppendInts(StaticBody(panels[..i], frames))
      {
        StaticBodyStep(panels, frames, i);
        if panels[i] in ids {
          var id := panels[i];
          var frame := frames[id];
          // " " + id + " 1", then " " + r + " " + g + " " + b + " " + w + " " + t
          var tokens := [id, 1] + FrameTokens(frame);
          AppendMore(data, IntToString(|frames|), StaticBody(panels[..i], frames), tokens, AppendInts(tokens));
          data := data + AppendInts(tokens);
        } else {
          assert StaticBody(panels[..i], frames) + [] == StaticBody(panels[..i], frames);
        }
      }
      assert panels[..|panels|] == panels;
      JoinIntsFront(|frames|, StaticBody(panels, frames));
      StaticRoundTrip(|frames|, panels, frames);
    }
  }

  /** Every id of the layout mapped to one frame. */
  function AllPanels(layout: seq<Int32>, frame: Frame): (m: map<int, Frame>)
    ensures forall id :: id in m <==> id in layout
    ensures forall id :: id in m ==> m[id] == frame
  {
    map id | id in layout :: frame
  }

  lemma AllPanelsSnoc(layout: seq<Int32>, id: Int32, frame: Frame)
    ensures AllPanels(layout + [id], frame) == AllPanels(layout, frame)[id := frame]
  {
    assert forall k :: k in layout + [id] <==> k in layout || k == id;
  }

  lemma StaticBodyStep(layout: seq<Int32>, frames: map<int, Frame>, i: nat)
    requires i < |layout|
    ensures var id := layout[i];
      StaticBody(layout[..i + 1], frames) ==
        StaticBody(layout[..i], frames) + (if id in frames then [id, 1] + FrameTokens(frames[id]) else [])
  {
    assert layout[..i + 1][..i] == layout[..i];
  }
}
