/** io.github.rowak.tools.StaticAnimDataParser: reads the animData of a STATIC effect
    into one frame per panel id. */
module StaticAnimDataParsing {
  import opened Wrappers
  import opened JavaText
  import opened Frames
  import opened AnimData
  import opened LocalEffects

  class StaticAnimDataParser {
    const animData: string
    var frames: map<int, Frame>

    constructor Init(animData: string)
      ensures this.animData == animData && frames == map[]
    {
      this.animData := animData;
      frames := map[];
    }

    function GetFrames(): map<int, Frame>
      reads this
    {
      frames
    }

    /** getFrame(panelId), and getFrame(panel) with panel.getId(): the panel's frame,
        or null. */
    function GetFrame(panelId: int): (r: Option<Frame>)
      reads this
      ensures r.Some? <==> panelId in frames
      ensures r.Some? ==> r.value == frames[panelId]
    {
      if panelId in frames then Some(frames[panelId]) else None
    }

    /** parse(): split, parse every token after the first into an int array, then put
        one frame per block of seven integers. Normal completion leaves the map
        ParseStatic describes; otherwise it throws the exception ParseStatic names. */
    method Parse() returns (outcome: Outcome)
      modifies this
      ensures outcome.Done? <==> ParseStatic(animData).Ok?
      ensures outcome.Done? ==> frames == ParseStatic(animData).value
      ensures outcome.Throws? ==> outcome.error == ParseStatic(animData).error
    {
      frames := map[];
      var dataTemp := Split(animData, ' ');
      if |dataTemp| == 0 {
        return Throws(NegativeArraySize);
      }
      var data := new Int32[|dataTemp| - 1];
      var i := 1;
      while i < |dataTemp|
        invariant 1 <= i <= |dataTemp|
        invariant frames == map[]
        invariant forall k :: 0 <= k < i - 1 ==> ParseInt(dataTemp[1..][k]) == Some(data[k])
      {
        var v := ParseInt(dataTemp[i]);
        if v.None? {
          assert ParseInt(dataTemp[1..][i - 1]).None?;
          return Throws(NumberFormat);
        }
        data[i - 1] := v.value;
        i := i + 1;
      }
      assert forall k :: 0 <= k < |dataTemp| - 1 ==> ParseInt(dataTemp[1..][k]) == Some(data[k]);
      assert ParseAll(dataTemp[1..]).value == data[..];
      outcome := PutBlocks(data);
    }

    /** The for loop of parse with step 7: data[i] is the id, data[i + 1] the count,
        which is skipped, and data[i + 2] to data[i + 6] the frame. A block cut short
        reads past the end of the array. */
    method PutBlocks(data: array<Int32>) returns (outcome: Outcome)
      requires frames == map[]
      modifies this
      ensures outcome.Done? <==> DecodeStatic(data[..]).Ok?
      ensures outcome.Done? ==> frames == DecodeStatic(data[..]).value
      ensures outcome.Throws? ==> outcome.error == DecodeStatic(data[..]).error
    {
      ghost var d := data[..];
      var i := 0;
      assert d[..0] == [];
      while i < data.Length
        invariant 0 <= i <= data.Length && i % 7 == 0
        invariant frames == StaticFrames(d[..i])
      {
        if i + 6 >= data.Length {
          return Throws(IndexOutOfBounds);
        }
        var panelId := data[i];
        var r, g, b, w, t := data[i + 2], data[i + 3], data[i + 4], data[i + 5], data[i + 6];
        StaticFramesSnoc(d[..i], d[i..i + 7]);
        assert d[..i] + d[i..i + 7] == d[..i + 7];
        frames := frames[panelId := Frame(r, g, b, w, t)];
        i := i + 7;
      }
      assert d[..i] == d;
      outcome := Done;
    }
  }

  /** The constructor StaticAnimDataParser(String): the parser with its map filled,
      or the exception parse throws, in which case no parser is made. */
  method Create(animData: string) returns (r: Result<StaticAnimDataParser>)
    ensures r.Ok? <==> ParseStatic(animData).Ok?
    ensures r.Ok? ==> fresh(r.value) && r.value.animData == animData
    ensures r.Ok? ==> r.value.frames == ParseStatic(animData).value
    ensures r.Err? ==> r.error == ParseStatic(animData).error
  {
    var p := new StaticAnimDataParser.Init(animData);
    var outcome := p.Parse();
    if outcome.Throws? {
      return Err(outcome.error);
    }
    return Ok(p);
  }

  /** The constructor StaticAnimDataParser(Effect): the effect's animData, where a
      missing one is a NullPointerException at split. */
  method CreateFromEffect(ef: Effect) returns (r: Result<StaticAnimDataParser>)
    ensures ef.animData.None? ==> r == Err(NullPointer)
    ensures ef.animData.Some? ==> (r.Ok? <==> ParseStatic(ef.animData.value).Ok?)
    ensures ef.animData.Some? && r.Ok? ==> fresh(r.value) && r.value.frames == ParseStatic(ef.animData.value).value
    ensures ef.animData.Some? && r.Err? ==> r.error == ParseStatic(ef.animData.value).error
  {
    if ef.animData.None? {
      return Err(NullPointer);
    }
    r := Create(ef.animData.value);
  }
}
