/** io.github.rowak.Effect as an object: its fields, the setters the factory methods
    use, createCustomEffect and createStaticEffect, and the Animation helper class. */
module LocalEffects {
  import opened Wrappers
  import opened JavaText
  import opened Frames
  import opened AnimData
  import opened AnimWriting
  import opened EffectJson

  class Effect {
    var name: Option<string>
    var version: Option<string>
    var loop: bool
    var palette: Option<seq<PaletteColor>>
    var transTime: Int32
    var maxTransTime: Int32
    var minTransTime: Int32
    var windowSize: Int32
    var flowFactor: real
    var delayTime: Int32
    var maxDelayTime: Int32
    var minDelayTime: Int32
    var colorType: Option<string>
    var animType: Option<EffectType>
    var pluginType: Option<string>
    var pluginUuid: Option<string>
    var animData: Option<string>
    var explodeFactor: real
    var maxBrightness: Int32
    var minBrightness: Int32
    var direction: Option<string>

    /** The fields as one value, the form toJSON is stated on. */
    function Fields(): EffectFields
      reads this
    {
      EffectFields(name, version, loop, palette, transTime, maxTransTime, minTransTime,
                   windowSize, flowFactor, delayTime, maxDelayTime, minDelayTime,
                   colorType, animType, pluginType, pluginUuid, animData,
                   explodeFactor, maxBrightness, minBrightness, direction)
    }

    /** new Effect(): the field initialisers. */
    constructor()
      ensures Fields() == Defaults
    {
      name, version, loop, palette := None, None, false, None;
      transTime, maxTransTime, minTransTime := -1, -1, -1;
      windowSize, flowFactor := -1, -1.0;
      delayTime, maxDelayTime, minDelayTime := -1, -1, -1;
      colorType, animType, pluginType, pluginUuid, animData := None, None, None, None, None;
      explodeFactor, maxBrightness, minBrightness, direction := -1.0, -1, -1, None;
    }

    method SetName(name: Option<string>)
      modifies this
      ensures Fields() == old(Fields()).(name := name)
    {
      this.name := name;
    }

    method SetAnimType(t: Option<EffectType>)
      modifies this
      ensures Fields() == old(Fields()).(animType := t)
    {
      animType := t;
    }

    method SetAnimData(animData: Option<string>)
      modifies this
      ensures Fields() == old(Fields()).(animData := animData)
    {
      this.animData := animData;
    }

    method SetLoop(loop: bool)
      modifies this
      ensures Fields() == old(Fields()).(loop := loop)
    {
      this.loop := loop;
    }
  }

  /** The fields of the effect createCustomEffect makes. */
  function CustomEffect(name: Option<string>, animData: Option<string>, loop: bool): (e: EffectFields)
    ensures e.animType == Some(CUSTOM) && e.animData == animData && e.loop == loop && e.name == name
    ensures e.(name := None, animType := None, animData := None, loop := false) == Defaults
  {
    Defaults.(name := name, animType := Some(CUSTOM), animData := animData, loop := loop)
  }

  /** Effect.createCustomEffect(effectName, animData, loop). */
  method CreateCustomEffect(effectName: Option<string>, animData: Option<string>, loop: bool) returns (ef: Effect)
    ensures fresh(ef) && ef.Fields() == CustomEffect(effectName, animData, loop)
  {
    ef := new Effect();
    ef.SetName(effectName);
    ef.SetAnimType(Some(CUSTOM));
    ef.SetAnimData(animData);
    ef.SetLoop(loop);
  }

  // ---------------------------------------------------------------- createStaticEffect

  /** What createStaticEffect reads of an Aurora.Panel: its id and its colour. */
  datatype LayoutPanel = LayoutPanel(id: Int32, red: Int32, green: Int32, blue: Int32, white: Int32)

  /** The block written for one panel: "id 1 r g b w 0", a single frame of its colour
      with transition time 0. */
  function PanelTokens(p: LayoutPanel): seq<Int32>
  {
    [p.id, 1, p.red, p.green, p.blue, p.white, 0]
  }

  /** The blocks of the first k panels. */
  function PanelsTokens(panels: seq<LayoutPanel>, k: nat): (d: seq<Int32>)
    requires k <= |panels|
    ensures |d| % 7 == 0
  {
    if k == 0 then [] else PanelsTokens(panels, k - 1) + PanelTokens(panels[k - 1])
  }

  /** The animData createStaticEffect builds: numPanels, then one block per panel. */
  function StaticEffectText(numPanels: Int32, panels: seq<LayoutPanel>): string
  {
    JoinInts([numPanels] + PanelsTokens(panels, |panels|))
  }

  /** Each panel's id mapped to the frame of its colour, a later panel with the same id
      replacing an earlier one. */
  function PanelColors(panels: seq<LayoutPanel>, k: nat): map<int, Frame>
    requires k <= |panels|
  {
    if k == 0 then map[]
    else
      var p := panels[k - 1];
      PanelColors(panels, k - 1)[p.id := Frame(p.red, p.green, p.blue, p.white, 0)]
  }

  lemma {:induction false} StaticFramesOfPanels(panels: seq<LayoutPanel>, k: nat)
    requires k <= |panels|
    ensures StaticFrames(PanelsTokens(panels, k)) == PanelColors(panels, k)
  {
    if k > 0 {
      var p := panels[k - 1];
      StaticFramesOfPanels(panels, k - 1);
      StaticFramesSnoc(PanelsTokens(panels, k - 1), PanelTokens(p));
      assert PanelTokens(p)[0] == p.id && StaticFrameAt(PanelTokens(p), 0) == Frame(p.red, p.green, p.blue, p.white, 0);
    }
  }

  /** Reading createStaticEffect's animData with StaticAnimDataParser gives every
      panel's colour under its id, transition time 0; the count token is not read. */
  lemma StaticEffectRoundTrip(numPanels: Int32, panels: seq<LayoutPanel>)
    ensures ParseStatic(StaticEffectText(numPanels, panels)) == Ok(PanelColors(panels, |panels|))
  {
    DataTokensOfJoin(numPanels, PanelsTokens(panels, |panels|));
    StaticFramesOfPanels(panels, |panels|);
  }

  /** The fields of the effect createStaticEffect makes. */
  function StaticEffect(name: Option<string>, animData: string): (e: EffectFields)
    ensures e.animType == Some(STATIC) && e.animData == Some(animData) && !e.loop && e.name == name
    ensures e.(name := None, animType := None, animData := None) == Defaults
  {
    Defaults.(name := name, animType := Some(STATIC), animData := Some(animData), loop := false)
  }

  lemma AppendMoreInts(data: string, head: string, ts: seq<int>, us: seq<int>)
    requires data == head + AppendInts(ts)
    ensures data + AppendInts(us) == head + AppendInts(ts + us)
  {
    AppendMore(data, head, ts, us, AppendInts(us));
  }

  /** Effect.createStaticEffect(effectName, panels, controller), with the controller's
      panel count as numPanels. */
  method CreateStaticEffect(effectName: Option<string>, panels: seq<LayoutPanel>, numPanels: Int32) returns (ef: Effect)
    ensures fresh(ef) && ef.Fields() == StaticEffect(effectName, StaticEffectText(numPanels, panels))
  {
    ef := new Effect();
    ef.SetName(effectName);
    ef.SetAnimType(Some(STATIC));
    var animData := IntToString(numPanels);
    var i := 0;
    while i < |panels|
      invariant 0 <= i <= |panels|
      invariant animData == IntToString(numPanels) + AppendInts(PanelsTokens(panels, i))
      modifies {}
    {
      var panel := panels[i];
      // " " + getId() + " 1 " + getRed() + " " + getGreen() + " " + getBlue() + " " + getWhite() + " " + 0
      AppendMoreInts(animData, IntToString(numPanels), PanelsTokens(panels, i), PanelTokens(panel));
      animData := animData + AppendInts(PanelTokens(panel));
      i := i + 1;
    }
    JoinIntsFront(numPanels, PanelsTokens(panels, |panels|));
    ef.SetAnimData(Some(animData));
    ef.SetLoop(false);
  }

  // ---------------------------------------------------------------- Effect.Animation

  /** What Map.get(Object) is handed in Animation: an Integer key, or a panel object,
      which is never equal to an Integer. */
  datatype LookupKey = IntegerKey(value: int) | PanelKey(panel: LayoutPanel)

  /** HashMap<Integer, V>.get(key): the value, or null when no key equals the argument. */
  function GetByObject<V>(m: map<int, V>, key: LookupKey): (r: Option<V>)
    ensures r.Some? <==> key.IntegerKey? && key.value in m
  {
    match key
    case IntegerKey(k) => if k in m then Some(m[k]) else None
    case PanelKey(_) => None
  }

  /** removeFrame's lookup finds no list, whatever the map and the panel. */
  lemma PanelKeyNeverFound<V>(m: map<int, V>, panel: LayoutPanel)
    ensures GetByObject(m, PanelKey(panel)) == None
    ensures panel.id in m ==> GetByObject(m, IntegerKey(panel.id)) == Some(m[panel.id])
  {
  }

  /** The layout ids each mapped to an empty list. */
  function EmptyLists(panels: seq<Int32>): (m: map<int, seq<AnimFrame>>)
    ensures forall id :: id in m <==> id in panels
    ensures forall id :: id in m ==> m[id] == []
  {
    map id | id in panels :: []
  }

  class Animation {
    const panels: seq<Int32>
    var frames: map<int, seq<AnimFrame>>

    /** new Animation(controller), given the ids of the controller's panels. */
    constructor(panels: seq<Int32>)
      ensures this.panels == panels && frames == EmptyLists(panels)
    {
      this.panels := panels;
      frames := EmptyLists(panels);
    }

    /** addFrame(panel, frame): frame appended to the list of panel.getId(); a panel
        without a list is a NullPointerException. */
    method AddFrame(panel: LayoutPanel, frame: AnimFrame) returns (outcome: Outcome)
      modifies this
      ensures panel.id in old(frames) ==>
        outcome == Done && frames == old(frames)[panel.id := old(frames)[panel.id] + [frame]]
      ensures panel.id !in old(frames) ==> outcome == Throws(NullPointer) && frames == old(frames)
    {
      var list := GetByObject(frames, IntegerKey(panel.id));
      if list.None? {
        return Throws(NullPointer);
      }
      frames := frames[panel.id := list.value + [frame]];
      outcome := Done;
    }

    /** removeFrame(panel, frame) as the source has it: the map is looked up with the
        panel object instead of its id, so the lookup is null and the call always
        throws a NullPointerException. */
    method RemoveFrame(panel: LayoutPanel, frame: AnimFrame) returns (outcome: Outcome)
      modifies this
      ensures outcome == Throws(NullPointer) && frames == old(frames)
    {
      var list := GetByObject(frames, PanelKey(panel));
      PanelKeyNeverFound(frames, panel);
      // list.remove(frame) on the null list
      if list.None? {
        return Throws(NullPointer);
      }
      assert false;
    }

    /** removeFrame as intended, looked up by panel.getId() like addFrame: the first
        occurrence of frame leaves that panel's list. */
    method RemoveFrameById(panel: LayoutPanel, frame: AnimFrame) returns (outcome: Outcome)
      modifies this
      ensures panel.id in old(frames) ==>
        outcome == Done && frames == old(frames)[panel.id := RemoveFirst(old(frames)[panel.id], frame)]
      ensures panel.id !in old(frames) ==> outcome == Throws(NullPointer) && frames == old(frames)
    {
      var list := GetByObject(frames, IntegerKey(panel.id));
      if list.None? {
        return Throws(NullPointer);
      }
      frames := frames[panel.id := RemoveFirst(list.value, frame)];
      outcome := Done;
    }

    /** createAnimation(effectName, loop), with the controller's panel count as
        numPanels: the same text CustomEffectBuilder.build writes. */
    method CreateAnimation(numPanels: Int32, effectName: Option<string>, loop: bool) returns (ef: Effect)
      requires ListsFit(panels, Values(frames))
      ensures fresh(ef) && ef.Fields() == CustomEffect(effectName, Some(CustomText(numPanels, panels, Values(frames))), loop)
    {
      var data := WriteCustomData(numPanels, panels, frames);
      ef := CreateCustomEffect(effectName, Some(data), loop);
    }
  }
}
