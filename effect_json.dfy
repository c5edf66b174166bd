/** The JSON text of a local effect (io.github.rowak.Effect.toJSON and paletteToJSON)
    and the field values Effect.fromJSON reads from a parsed JSON object. Doubles
    are reals; the text Java writes for a double is a parameter (`showDouble`). */
module EffectJson {
  import opened Wrappers
  import opened JavaText
  import opened Json

  // ---------------------------------------------------------------- animation types

  /** Effect.Type. */
  datatype EffectType = FLOW | EXPLODE | WHEEL | HIGHLIGHT | RANDOM | FADE | STATIC | CUSTOM | PLUGIN

  /** Enum.name(). */
  function TypeName(t: EffectType): string
  {
    match t
    case FLOW => "FLOW"
    case EXPLODE => "EXPLODE"
    case WHEEL => "WHEEL"
    case HIGHLIGHT => "HIGHLIGHT"
    case RANDOM => "RANDOM"
    case FADE => "FADE"
    case STATIC => "STATIC"
    case CUSTOM => "CUSTOM"
    case PLUGIN => "PLUGIN"
  }

  /** Effect.Type.valueOf: the constant with exactly that name, if any. */
  function TypeNamed(s: string): (r: Option<EffectType>)
    ensures r.Some? ==> TypeName(r.value) == s
    ensures r.None? ==> forall t: EffectType :: TypeName(t) != s
  {
    if s == "FLOW" then Some(FLOW)
    else if s == "EXPLODE" then Some(EXPLODE)
    else if s == "WHEEL" then Some(WHEEL)
    else if s == "HIGHLIGHT" then Some(HIGHLIGHT)
    else if s == "RANDOM" then Some(RANDOM)
    else if s == "FADE" then Some(FADE)
    else if s == "STATIC" then Some(STATIC)
    else if s == "CUSTOM" then Some(CUSTOM)
    else if s == "PLUGIN" then Some(PLUGIN)
    else None
  }

  /** The lower-case name toJSON writes as "animType" is read back by fromJSON's
      upper-casing valueOf as the same type. */
  lemma TypeNameRoundTrip(t: EffectType)
    ensures TypeNamed(ToUpper(ToLower(TypeName(t)))) == Some(t)
  {
    UpperName(t);
    UpperOfLower(TypeName(t));
    NamedByName(t);
  }

  /** valueOf finds every constant by its own name. */
  lemma NamedByName(t: EffectType)
    ensures TypeNamed(TypeName(t)) == Some(t)
  {
    match t
    case FLOW =>
    case EXPLODE =>
    case WHEEL =>
    case HIGHLIGHT =>
    case RANDOM =>
    case FADE =>
    case STATIC =>
    case CUSTOM =>
    case PLUGIN =>
  }

  /** Every type name is written in capital letters. */
  lemma UpperName(t: EffectType)
    ensures forall i :: 0 <= i < |TypeName(t)| ==> 'A' <= TypeName(t)[i] <= 'Z'
  {
    match t
    case FLOW =>
    case EXPLODE =>
    case WHEEL =>
    case HIGHLIGHT =>
    case RANDOM =>
    case FADE =>
    case STATIC =>
    case CUSTOM =>
    case PLUGIN =>
  }

  // ---------------------------------------------------------------- JSON text

  /** The keys of the JSON objects written here. */
  datatype Key =
    | Command | Version | AnimName | AnimType | ColorType | AnimData | Palette
    | TransTime | DelayTime | FlowFactor | ExplodeFactor | WindowSize | BrightnessRange
    | Direction | Loop | PluginUuid | PluginOptions | PluginType
    | Hue | Saturation | Brightness | Probability | MaxValue | MinValue

  /** The key as it appears in the text. */
  function KeyName(k: Key): string
  {
    match k
    case Command => "command"
    case Version => "version"
    case AnimName => "animName"
    case AnimType => "animType"
    case ColorType => "colorType"
    case AnimData => "animData"
    case Palette => "palette"
    case TransTime => "transTime"
    case DelayTime => "delayTime"
    case FlowFactor => "flowFactor"
    case ExplodeFactor => "explodeFactor"
    case WindowSize => "windowSize"
    case BrightnessRange => "brightnessRange"
    case Direction => "direction"
    case Loop => "loop"
    case PluginUuid => "pluginUuid"
    case PluginOptions => "pluginOptions"
    case PluginType => "pluginType"
    case Hue => "hue"
    case Saturation => "saturation"
    case Brightness => "brightness"
    case Probability => "probability"
    case MaxValue => "maxValue"
    case MinValue => "minValue"
  }

  function Quote(s: string): string
  {
    "\"" + s + "\""
  }

  /** The text string concatenation writes for a possibly null String. */
  function Str(s: Option<string>): string
  {
    if s.Some? then s.value else "null"
  }

  /** The strings of ss with sep between each neighbouring pair. */
  function Join(ss: seq<string>, sep: string): string
  {
    if ss == [] then ""
    else if |ss| == 1 then ss[0]
    else ss[0] + sep + Join(ss[1..], sep)
  }

  /** One more string at the end: the step an appending loop takes. */
  lemma {:induction false} JoinSnoc(ss: seq<string>, sep: string, s: string)
    requires ss != []
    ensures Join(ss + [s], sep) == Join(ss, sep) + sep + s
  {
    if |ss| > 1 {
      assert (ss + [s])[1..] == ss[1..] + [s];
      JoinSnoc(ss[1..], sep, s);
    }
  }

  /** `"key":value`, the value already as text. */
  function FieldText(k: Key, value: string): string
  {
    "\"" + KeyName(k) + "\":" + value
  }

  function FieldTexts(ks: seq<Key>, vs: seq<string>): (fs: seq<string>)
    requires |ks| == |vs|
    ensures |fs| == |ks| && forall i :: 0 <= i < |ks| ==> fs[i] == FieldText(ks[i], vs[i])
  {
    seq(|ks|, i requires 0 <= i < |ks| => FieldText(ks[i], vs[i]))
  }

  /** An object's text: its fields in order between braces, separated by commas. */
  function ObjectOf(fields: seq<string>): (s: string)
    ensures |s| >= 2 && s[0] == '{' && s[|s| - 1] == '}'
  {
    "{" + Join(fields, ",") + "}"
  }

  /** `{"maxValue":max,"minValue":min}`, as toJSON writes a range. */
  function RangeText(max: Int32, min: Int32): string
  {
    ObjectOf(FieldTexts([MaxValue, MinValue], [IntToString(max), IntToString(min)]))
  }

  /** Keys that are pairwise different, as a JSON object has them. */
  predicate Distinct(ks: seq<Key>)
  {
    forall i, j :: 0 <= i < j < |ks| ==> ks[i] != ks[j]
  }

  // ---------------------------------------------------------------- palette

  /** Effect.Color: hue, saturation, brightness, and a probability that is -1 when
      the colour has none. */
  datatype PaletteColor = PaletteColor(hue: Int32, saturation: Int32, brightness: Int32, probability: real)

  /** The keys paletteToJSON writes for one colour; "probability" only when the
      colour has one. */
  function ColorKeys(c: PaletteColor): seq<Key>
  {
    [Hue, Saturation, Brightness] + (if c.probability != -1.0 then [Probability] else [])
  }

  /** Their values as text. */
  function ColorValues(c: PaletteColor, showDouble: real -> string): (vs: seq<string>)
    ensures |vs| == |ColorKeys(c)|
  {
    [IntToString(c.hue), IntToString(c.saturation), IntToString(c.brightness)] +
    (if c.probability != -1.0 then [showDouble(c.probability)] else [])
  }

  /** A colour object always starts with hue, saturation and brightness, holds a
      "probability" exactly when the probability is not -1, and repeats no key. */
  lemma ColorKeysOf(c: PaletteColor)
    ensures ColorKeys(c)[..3] == [Hue, Saturation, Brightness]
    ensures Probability in ColorKeys(c) <==> c.probability != -1.0
    ensures Distinct(ColorKeys(c))
  {
    var ks := ColorKeys(c);
    assert ks[0] == Hue && ks[1] == Saturation && ks[2] == Brightness;
  }

  /** The text of one colour: `{"hue":h,"saturation":s,"brightness":b}`, with
      `,"probability":p` before the closing brace when there is one. */
  function ColorText(c: PaletteColor, showDouble: real -> string): string
  {
    ObjectOf(FieldTexts(ColorKeys(c), ColorValues(c, showDouble)))
  }

  /** The text of each item, in order. */
  function Texts<T>(items: seq<T>, text: T -> string): (ts: seq<string>)
    ensures |ts| == |items| && forall i :: 0 <= i < |items| ==> ts[i] == text(items[i])
  {
    seq(|items|, i requires 0 <= i < |items| => text(items[i]))
  }

  /** What paletteToJSON returns: the colours between brackets, separated by commas,
      except that an empty palette gives just "[" (the closing bracket is written
      after the last colour only). */
  function PaletteText(p: seq<PaletteColor>, showDouble: real -> string): string
  {
    ListText(Texts(p, c => ColorText(c, showDouble)))
  }

  /** Texts between brackets, separated by commas; no texts give just "[". */
  function ListText(ts: seq<string>): string
  {
    if ts == [] then "[" else "[" + Join(ts, ",") + "]"
  }

  /** What the paletteToJSON loop has built after the first k colours: "[", then each
      colour followed by "," or, after the last of all, "]". */
  function Written(ts: seq<string>, k: nat): string
    requires k <= |ts|
  {
    if k == 0 then "[" else Written(ts, k - 1) + (ts[k - 1] + Separator(k == |ts|))
  }

  /** What follows a colour: "]" after the last one, "," after the others. */
  function Separator(last: bool): string
  {
    if last then "]" else ","
  }

  lemma {:induction false} WrittenJoin(ts: seq<string>, k: nat)
    requires 0 < k <= |ts|
    ensures Written(ts, k) == "[" + Join(ts[..k], ",") + Separator(k == |ts|)
  {
    if k == 1 {
      assert ts[..1] == [ts[0]];
    } else {
      WrittenJoin(ts, k - 1);
      assert ts[..k] == ts[..k - 1] + [ts[k - 1]];
      JoinSnoc(ts[..k - 1], ",", ts[k - 1]);
    }
  }

  /** After every colour the loop has built the palette's text. */
  lemma WrittenList(ts: seq<string>)
    ensures Written(ts, |ts|) == ListText(ts)
  {
    if ts != [] {
      WrittenJoin(ts, |ts|);
      assert ts[..|ts|] == ts;
    }
  }

  /** The loop of paletteToJSON: it appends each item's text followed by "," or, after
      the last item, "]", to a builder that starts as "[". */
  method WriteList<T>(items: seq<T>, text: T -> string) returns (json: string)
    ensures json == ListText(Texts(items, text))
  {
    ghost var ts := Texts(items, text);
    json := "[";
    var i := 0;
    while i < |items|
      invariant 0 <= i <= |items|
      invariant json == Written(ts, i)
    {
      var t := text(items[i]);
      var sep := Separator(i == |items| - 1);
      json := json + (t + sep);
      i := i + 1;
    }
    WrittenList(ts);
  }

  /** paletteToJSON: the loop above over the colours of the palette. */
  method PaletteToJson(palette: seq<PaletteColor>, showDouble: real -> string) returns (json: string)
    ensures json == PaletteText(palette, showDouble)
  {
    json := WriteList(palette, c => ColorText(c, showDouble));
  }

  // ---------------------------------------------------------------- effect fields

  /** The fields of an io.github.rowak.Effect. Strings and the palette may be null;
      animType may be null (it is until set). */
  datatype EffectFields = EffectFields(
    name: Option<string>, version: Option<string>, loop: bool,
    palette: Option<seq<PaletteColor>>,
    transTime: Int32, maxTransTime: Int32, minTransTime: Int32,
    windowSize: Int32, flowFactor: real,
    delayTime: Int32, maxDelayTime: Int32, minDelayTime: Int32,
    colorType: Option<string>, animType: Option<EffectType>,
    pluginType: Option<string>, pluginUuid: Option<string>, animData: Option<string>,
    explodeFactor: real, maxBrightness: Int32, minBrightness: Int32,
    direction: Option<string>)

  /** A new Effect: every number -1, loop false, every reference null. */
  const Defaults := EffectFields(
    None, None, false, None, -1, -1, -1, -1, -1.0, -1, -1, -1,
    None, None, None, None, None, -1.0, -1, -1, None)

  // ---------------------------------------------------------------- toJSON

  predicate IsAttributeType(t: EffectType)
  {
    t == FLOW || t == EXPLODE || t == WHEEL || t == HIGHLIGHT || t == RANDOM || t == FADE
  }

  /** A value of toJSON's object, by the way it is written. */
  datatype Value =
    | Quoted(s: Option<string>)        // between double quotes; null as "null"
    | Bare(s: Option<string>)          // as it is; null as null
    | Flag(b: bool)
    | QuotedNumber(n: Int32)           // an int between double quotes
    | Fraction(d: real)                // a double
    | Range(max: Int32, min: Int32)
    | LowerName(t: EffectType)         // the type's name in lower case, quoted
    | Colors(colors: seq<PaletteColor>)
    | PluginOptionList(loop: bool, transTime: Int32, delayTime: Int32)

  /** The "pluginOptions" array toJSON writes for a plugin effect. */
  function PluginOptionsText(loop: bool, transTime: Int32, delayTime: Int32): string
  {
    "[{\"name\":\"loop\", \"value\":" + BoolText(loop) + "}," +
    "{\"name\":\"transTime\",\"value\":" + IntToString(transTime) + "}," +
    "{\"name\":\"delayTime\",\"value\":" + IntToString(delayTime) + "}]"
  }

  /** The text toJSON's string concatenation writes for a value. */
  function ValueText(v: Value, showDouble: real -> string): string
  {
    match v
    case Quoted(s) => Quote(Str(s))
    case Bare(s) => Str(s)
    case Flag(b) => BoolText(b)
    case QuotedNumber(n) => Quote(IntToString(n))
    case Fraction(d) => showDouble(d)
    case Range(max, min) => RangeText(max, min)
    case LowerName(t) => Quote(ToLower(TypeName(t)))
    case Colors(p) => PaletteText(p, showDouble)
    case PluginOptionList(loop, transTime, delayTime) => PluginOptionsText(loop, transTime, delayTime)
  }

  /** One member of toJSON's object. */
  datatype Member = Member(key: Key, value: Value)

  function Keys(ms: seq<Member>): (ks: seq<Key>)
    ensures |ks| == |ms| && forall i :: 0 <= i < |ms| ==> ks[i] == ms[i].key
  {
    seq(|ms|, i requires 0 <= i < |ms| => ms[i].key)
  }

  lemma KeysConcat(a: seq<Member>, b: seq<Member>)
    ensures Keys(a + b) == Keys(a) + Keys(b)
  {
  }

  /** The members with the given keys and values, pairwise. */
  function Zip(ks: seq<Key>, vs: seq<Value>): (ms: seq<Member>)
    requires |ks| == |vs|
    ensures |ms| == |ks| && forall i :: 0 <= i < |ks| ==> ms[i] == Member(ks[i], vs[i])
    ensures Keys(ms) == ks
  {
    seq(|ks|, i requires 0 <= i < |ks| => Member(ks[i], vs[i]))
  }

  function ValueTexts(ms: seq<Member>, showDouble: real -> string): (ts: seq<string>)
    ensures |ts| == |ms| && forall i :: 0 <= i < |ms| ==> ts[i] == ValueText(ms[i].value, showDouble)
  {
    seq(|ms|, i requires 0 <= i < |ms| => ValueText(ms[i].value, showDouble))
  }

  /** The text of toJSON's object with these members. */
  function ObjectText(ms: seq<Member>, showDouble: real -> string): (s: string)
    ensures |s| >= 2 && s[0] == '{' && s[|s| - 1] == '}'
  {
    ObjectOf(FieldTexts(Keys(ms), ValueTexts(ms, showDouble)))
  }

  /** The keys toJSON writes first, for every type: "command" when there is a
      command, "version" for WHEEL, and "animName". */
  function HeadKeys(command: bool, t: EffectType): seq<Key>
  {
    (if command then [Command] else []) + (if t == WHEEL then [Version] else []) + [AnimName]
  }

  /** The members toJSON writes first. */
  function Head(e: EffectFields, writeCommand: StringRef, t: EffectType): (ms: seq<Member>)
    ensures Keys(ms) == HeadKeys(NotNullNorEmptyLiteral(writeCommand), t)
  {
    Zip(HeadKeys(NotNullNorEmptyLiteral(writeCommand), t),
        (if NotNullNorEmptyLiteral(writeCommand) then [Quoted(Some(RefText(writeCommand)))] else []) +
        (if t == WHEEL then [Quoted(e.version)] else []) +
        [Quoted(e.name)])
  }

  /** The keys after the palette that toJSON writes for each attribute type. */
  function AttributeKeys(t: EffectType): seq<Key>
    requires IsAttributeType(t)
  {
    match t
    case FLOW => [TransTime, DelayTime, FlowFactor, Direction, Loop]
    case EXPLODE => [TransTime, DelayTime, ExplodeFactor, Direction, Loop]
    case WHEEL => [TransTime, WindowSize, Direction, Loop]
    case _ => [BrightnessRange, TransTime, DelayTime, Loop]
  }

  /** Their values: the ranges as objects, windowSize quoted, the factors as doubles. */
  function AttributeValues(e: EffectFields, t: EffectType): (vs: seq<Value>)
    requires IsAttributeType(t)
    ensures |vs| == |AttributeKeys(t)|
  {
    var trans := Range(e.maxTransTime, e.minTransTime);
    var delay := Range(e.maxDelayTime, e.minDelayTime);
    match t
    case FLOW => [trans, delay, Fraction(e.flowFactor), Quoted(e.direction), Flag(e.loop)]
    case EXPLODE => [trans, delay, Fraction(e.explodeFactor), Quoted(e.direction), Flag(e.loop)]
    case WHEEL => [trans, QuotedNumber(e.windowSize), Quoted(e.direction), Flag(e.loop)]
    case _ => [Range(e.maxBrightness, e.minBrightness), trans, delay, Flag(e.loop)]
  }

  /** The keys toJSON writes after the name, type by type. */
  function BodyKeys(t: EffectType): seq<Key>
  {
    if t == CUSTOM || t == STATIC then [AnimType, AnimData, Loop]
    else if t == PLUGIN then [Palette, Version, ColorType, PluginUuid, AnimType, PluginOptions, PluginType]
    else
      [AnimType, ColorType] + (if t == FLOW || t == EXPLODE then [] else [AnimData]) +
      [Palette] + AttributeKeys(t)
  }

  /** The values toJSON writes after the name: animData quoted for CUSTOM and STATIC
      and bare otherwise; a null palette where one is written is a
      NullPointerException. */
  function BodyValues(e: EffectFields, t: EffectType): (r: Result<seq<Value>>)
    ensures r.Ok? <==> e.palette.Some? || t == CUSTOM || t == STATIC
    ensures r.Err? ==> r.error == NullPointer
    ensures r.Ok? ==> |r.value| == |BodyKeys(t)|
  {
    if t == CUSTOM || t == STATIC then Ok([LowerName(t), Quoted(e.animData), Flag(e.loop)])
    else if e.palette.None? then Err(NullPointer)
    else
      var palette := Colors(e.palette.value);
      if t == PLUGIN then
        Ok([palette, Quoted(e.version), Quoted(e.colorType), Quoted(e.pluginUuid), LowerName(t),
            PluginOptionList(e.loop, e.transTime, e.delayTime), Quoted(e.pluginType)])
      else
        Ok([LowerName(t), Quoted(e.colorType)] +
           (if t == FLOW || t == EXPLODE then [] else [Bare(e.animData)]) +
           [palette] + AttributeValues(e, t))
  }

  /** Every key toJSON writes, in order. */
  function AllKeys(command: bool, t: EffectType): seq<Key>
  {
    HeadKeys(command, t) + BodyKeys(t)
  }

  /** The members of toJSON's object, in the order the StringBuilder appends them; a
      null animType is a NullPointerException. */
  function Members(e: EffectFields, writeCommand: StringRef): (r: Result<seq<Member>>)
    ensures r.Ok? <==>
      e.animType.Some? && (e.palette.Some? || e.animType.value == CUSTOM || e.animType.value == STATIC)
    ensures r.Err? ==> r.error == NullPointer
    ensures r.Ok? ==> Keys(r.value) == AllKeys(NotNullNorEmptyLiteral(writeCommand), e.animType.value)
  {
    if e.animType.None? then Err(NullPointer)
    else
      var t := e.animType.value;
      var vs :- BodyValues(e, t);
      var head := Head(e, writeCommand, t);
      var body := Zip(BodyKeys(t), vs);
      KeysConcat(head, body);
      Ok(head + body)
  }

  /** Effect.toJSON(writeCommand) of an effect with fields e: for every type, an
      object text from "{" to "}". */
  function ToJson(e: EffectFields, writeCommand: StringRef, showDouble: real -> string): (r: Result<string>)
    ensures r.Ok? <==> Members(e, writeCommand).Ok?
    ensures r.Ok? ==> |r.value| >= 2 && r.value[0] == '{' && r.value[|r.value| - 1] == '}'
    ensures r.Err? ==> r.error == NullPointer
  {
    match Members(e, writeCommand)
    case Ok(ms) => Ok(ObjectText(ms, showDouble))
    case Err(x) => Err(x)
  }

  /** "command" is among the keys exactly when there is a command. */
  lemma CommandKey(command: bool, t: EffectType)
    ensures Command in AllKeys(command, t) <==> command
  {
    assert Command !in BodyKeys(t);
  }

  /** "version" is among the keys for WHEEL and PLUGIN only. */
  lemma VersionKey(command: bool, t: EffectType)
    ensures Version in AllKeys(command, t) <==> t == WHEEL || t == PLUGIN
  {
    var head := HeadKeys(command, t);
    var body := BodyKeys(t);
    assert Version in head <==> t == WHEEL;
    if t == PLUGIN {
      assert body[1] == Version;
    } else if IsAttributeType(t) {
      assert Version !in AttributeKeys(t);
      assert Version !in body;
    }
  }

  /** "animData" is among the keys for every type but FLOW, EXPLODE and PLUGIN. */
  lemma AnimDataKey(command: bool, t: EffectType)
    ensures AnimData in AllKeys(command, t) <==> t != FLOW && t != EXPLODE && t != PLUGIN
  {
  }

  /** A leading "command" member is written exactly when writeCommand is neither null
      nor the "" literal object (toJSON compares references). */
  lemma CommandMember(e: EffectFields, writeCommand: StringRef)
    requires Members(e, writeCommand).Ok?
    ensures var ms := Members(e, writeCommand).value;
      && (Command in Keys(ms) <==> NotNullNorEmptyLiteral(writeCommand))
      && (NotNullNorEmptyLiteral(writeCommand) ==> ms[0] == Member(Command, Quoted(Some(RefText(writeCommand)))))
  {
    CommandKey(NotNullNorEmptyLiteral(writeCommand), e.animType.value);
  }

  /** A top-level "version" member is written for WHEEL and PLUGIN effects only. */
  lemma VersionMember(e: EffectFields, writeCommand: StringRef)
    requires Members(e, writeCommand).Ok?
    ensures Version in Keys(Members(e, writeCommand).value) <==>
      e.animType == Some(WHEEL) || e.animType == Some(PLUGIN)
  {
    VersionKey(NotNullNorEmptyLiteral(writeCommand), e.animType.value);
  }

  /** "animData" is absent for FLOW, EXPLODE and PLUGIN, written quoted for CUSTOM and
      STATIC, and written as it is for WHEEL, HIGHLIGHT, RANDOM and FADE. */
  lemma AnimDataMember(e: EffectFields, writeCommand: StringRef)
    requires Members(e, writeCommand).Ok?
    ensures var ms := Members(e, writeCommand).value;
      var t := e.animType.value;
      && (t == FLOW || t == EXPLODE || t == PLUGIN ==> AnimData !in Keys(ms))
      && (t == CUSTOM || t == STATIC ==> Member(AnimData, Quoted(e.animData)) in ms)
      && (IsAttributeType(t) && t != FLOW && t != EXPLODE ==> Member(AnimData, Bare(e.animData)) in ms)
  {
    var t := e.animType.value;
    AnimDataKey(NotNullNorEmptyLiteral(writeCommand), t);
    if t == CUSTOM || t == STATIC {
      AnimDataAt(e, writeCommand, 1, Member(AnimData, Quoted(e.animData)));
    } else if IsAttributeType(t) && t != FLOW && t != EXPLODE {
      BareAnimData(e, t);
      AnimDataAt(e, writeCommand, 2, Member(AnimData, Bare(e.animData)));
    }
  }

  /** A member of the body is a member of the whole object. */
  lemma AnimDataAt(e: EffectFields, writeCommand: StringRef, i: nat, m: Member)
    requires Members(e, writeCommand).Ok?
    requires i < |BodyKeys(e.animType.value)|
    requires Member(BodyKeys(e.animType.value)[i], BodyValues(e, e.animType.value).value[i]) == m
    ensures m in Members(e, writeCommand).value
  {
    var t := e.animType.value;
    var head := Head(e, writeCommand, t);
    var body := Zip(BodyKeys(t), BodyValues(e, t).value);
    MembersSplit(e, writeCommand);
    assert (head + body)[|head| + i] == body[i];
  }

  /** The members of a successful toJSON: the head, then the body keys zipped with
      their values. */
  lemma MembersSplit(e: EffectFields, writeCommand: StringRef)
    requires Members(e, writeCommand).Ok?
    ensures var t := e.animType.value;
      Members(e, writeCommand).value == Head(e, writeCommand, t) + Zip(BodyKeys(t), BodyValues(e, t).value)
  {
  }

  /** For WHEEL, HIGHLIGHT, RANDOM and FADE, animData is the third body member. */
  lemma BareAnimData(e: EffectFields, t: EffectType)
    requires IsAttributeType(t) && t != FLOW && t != EXPLODE && e.palette.Some?
    ensures BodyKeys(t)[2] == AnimData && BodyValues(e, t).value[2] == Bare(e.animData)
  {
    var vs := [LowerName(t), Quoted(e.colorType)] + [Bare(e.animData)];
    assert BodyValues(e, t).value == vs + [Colors(e.palette.value)] + AttributeValues(e, t);
    assert BodyKeys(t) == [AnimType, ColorType] + [AnimData] + [Palette] + AttributeKeys(t);
  }

  // ---------------------------------------------------------------- fromJSON

  /** One palette entry: an object with int hue, saturation and brightness; a
      probability that is missing or not a number reads as -1. */
  function ColorFromJson(v: Json): (r: Result<PaletteColor>)
    ensures r.Ok? <==> (v.JObject? && GetInt(v.fields, "hue").Ok? &&
                        GetInt(v.fields, "saturation").Ok? && GetInt(v.fields, "brightness").Ok?)
    ensures r.Ok? ==> (r.value.hue == GetInt(v.fields, "hue").value &&
                       r.value.saturation == GetInt(v.fields, "saturation").value &&
                       r.value.brightness == GetInt(v.fields, "brightness").value)
    ensures r.Ok? && GetDouble(v.fields, "probability").Ok? ==>
      r.value.probability == GetDouble(v.fields, "probability").value
    ensures r.Ok? && GetDouble(v.fields, "probability").Err? ==> r.value.probability == -1.0
    ensures r.Err? ==> r.error == JsonError
  {
    if !v.JObject? then Err(JsonError)
    else
      var o := v.fields;
      var hue :- GetInt(o, "hue");
      var saturation :- GetInt(o, "saturation");
      var brightness :- GetInt(o, "brightness");
      var probability := match GetDouble(o, "probability") case Ok(p) => p case Err(_) => -1.0;
      Ok(PaletteColor(hue, saturation, brightness, probability))
  }

  /** A probability written as the text "0.5" reads as one half. */
  lemma ColorProbabilityText(v: Json)
    requires ColorFromJson(v).Ok? && "probability" in v.fields && v.fields["probability"] == JString("0.5")
    ensures ColorFromJson(v).value.probability == 0.5
  {
    GetDoubleOfText(v.fields, "probability");
  }

  function PaletteFromJson(items: seq<Json>): (r: Result<seq<PaletteColor>>)
    ensures r.Ok? ==> |r.value| == |items|
    ensures r.Ok? ==> forall i :: 0 <= i < |items| ==> ColorFromJson(items[i]) == Ok(r.value[i])
    ensures r.Err? ==> r.error == JsonError
  {
    if items == [] then Ok([])
    else
      var c :- ColorFromJson(items[0]);
      var cs :- PaletteFromJson(items[1..]);
      Ok([c] + cs)
  }

  /** The three plugin options fromJSON reads. */
  datatype PluginValues = PluginValues(loop: bool, transTime: Int32, delayTime: Int32)

  /** The pluginOptions loop: each entry names an option; "loop", "transTime" and
      "delayTime" set their value, later entries overwriting earlier ones, and other
      names are skipped. */
  function PluginValuesFrom(options: seq<Json>, acc: PluginValues): (r: Result<PluginValues>)
    ensures r.Err? ==> r.error == JsonError
  {
    if options == [] then Ok(acc)
    else if !options[0].JObject? then Err(JsonError)
    else
      var o := options[0].fields;
      var name :- GetString(o, "name");
      var acc' :-
        if name == "loop" then (var b :- GetBoolean(o, "value"); Ok(acc.(loop := b)))
        else if name == "transTime" then (var n :- GetInt(o, "value"); Ok(acc.(transTime := n)))
        else if name == "delayTime" then (var n :- GetInt(o, "value"); Ok(acc.(delayTime := n)))
        else Ok(acc);
      PluginValuesFrom(options[1..], acc')
  }

  /** A range property inside fromJSON's try block: both bounds, or -1 for both when
      the object or either bound is missing or malformed. */
  function RangeFrom(data: JsonObject, key: string): (r: (Int32, Int32))
    ensures r != (-1, -1) ==> key in data && data[key].JObject?
    ensures key in data && data[key].JObject? ==>
      var o := data[key].fields;
      GetInt(o, "maxValue").Ok? && GetInt(o, "minValue").Ok? ==>
        r == (GetInt(o, "maxValue").value, GetInt(o, "minValue").value)
  {
    match GetObject(data, key)
    case Err(_) => (-1, -1)
    case Ok(o) =>
      match (GetInt(o, "maxValue"), GetInt(o, "minValue"))
      case (Ok(max), Ok(min)) => (max, min)
      case _ => (-1, -1)
  }

  /** The fields every effect reads first: the name, version, type (matched in upper
      case; an unknown name is an IllegalArgumentException), colour type, the
      optional animData and the palette. Every other field keeps its default. */
  function CommonFrom(data: JsonObject): (r: Result<EffectFields>)
    ensures r.Err? ==> r.error == JsonError || r.error == IllegalArgument
    ensures r.Ok? ==> r.value.animType.Some? && r.value.palette.Some? && r.value.version.Some?
    ensures r.Ok? ==> r.value.windowSize == -1
    ensures r.Ok? ==> r.value.(name := None, version := None, animType := None, colorType := None,
                               animData := None, palette := None) == Defaults
  {
    var name :- GetString(data, "animName");
    var version :- GetString(data, "version");
    var typeText :- GetString(data, "animType");
    var t :- if TypeNamed(ToUpper(typeText)).Some? then Ok(TypeNamed(ToUpper(typeText)).value) else Err(IllegalArgument);
    var colorType :- GetString(data, "colorType");
    var animData := match GetString(data, "animData") case Ok(s) => Some(s) case Err(_) => None;
    var items :- GetArray(data, "palette");
    var palette :- PaletteFromJson(items);
    Ok(Defaults.(name := Some(name), version := Some(version), animType := Some(t),
                 colorType := Some(colorType), animData := animData, palette := Some(palette)))
  }

  /** The branch for a version "2.0" plugin effect: the plugin options, type and
      uuid; the ranges and windowSize are not read. */
  function PluginFrom(data: JsonObject, e: EffectFields): (r: Result<EffectFields>)
    ensures r.Err? ==> r.error == JsonError
    ensures r.Ok? ==> r.value.animType == e.animType && r.value.windowSize == e.windowSize
    ensures r.Ok? ==> r.value.maxTransTime == e.maxTransTime && r.value.minTransTime == e.minTransTime
    ensures r.Ok? ==> r.value.maxDelayTime == e.maxDelayTime && r.value.minDelayTime == e.minDelayTime
    ensures r.Ok? ==> r.value.maxBrightness == e.maxBrightness && r.value.minBrightness == e.minBrightness
    ensures r.Ok? ==> r.value.explodeFactor == e.explodeFactor && r.value.flowFactor == e.flowFactor
  {
    var options :- GetArray(data, "pluginOptions");
    var pv :- PluginValuesFrom(options, PluginValues(e.loop, e.transTime, e.delayTime));
    var pluginType :- GetString(data, "pluginType");
    var pluginUuid :- GetString(data, "pluginUuid");
    Ok(e.(loop := pv.loop, transTime := pv.transTime, delayTime := pv.delayTime,
          pluginType := Some(pluginType), pluginUuid := Some(pluginUuid)))
  }

  /** The branch for every other effect: the three ranges (each -1/-1 when it cannot
      be read), windowSize for WHEEL only, flowFactor (read as an int) for FLOW only,
      explodeFactor for EXPLODE only, direction for FLOW, EXPLODE and WHEEL, and loop
      when it can be read. */
  function AttributesFrom(data: JsonObject, e: EffectFields): (r: Result<EffectFields>)
    requires e.animType.Some?
    ensures r.Err? ==> r.error == JsonError
    ensures r.Ok? ==> r.value.animType == e.animType
    ensures r.Ok? && e.animType != Some(WHEEL) ==> r.value.windowSize == -1
    ensures r.Ok? && e.animType == Some(WHEEL) ==>
      GetInt(data, "windowSize").Ok? && r.value.windowSize == GetInt(data, "windowSize").value
    ensures r.Ok? ==> (r.value.maxTransTime, r.value.minTransTime) == RangeFrom(data, "transTime")
    ensures r.Ok? ==> (r.value.maxDelayTime, r.value.minDelayTime) == RangeFrom(data, "delayTime")
    ensures r.Ok? ==> (r.value.maxBrightness, r.value.minBrightness) == RangeFrom(data, "brightnessRange")
    ensures r.Ok? && e.animType != Some(EXPLODE) ==> r.value.explodeFactor == -1.0
    ensures r.Ok? && e.animType == Some(EXPLODE) ==>
      GetDouble(data, "explodeFactor").Ok? && r.value.explodeFactor == GetDouble(data, "explodeFactor").value
  {
    var t := e.animType.value;
    var trans := RangeFrom(data, "transTime");
    var windowSize :- if t == WHEEL then GetInt(data, "windowSize") else Ok(-1);
    var flowFactor :- if t == FLOW then (var f :- GetInt(data, "flowFactor"); Ok(f as real)) else Ok(-1.0);
    var delay := RangeFrom(data, "delayTime");
    var explodeFactor :- if t == EXPLODE then GetDouble(data, "explodeFactor") else Ok(-1.0);
    var brightness := RangeFrom(data, "brightnessRange");
    var direction :-
      if t == FLOW || t == EXPLODE || t == WHEEL then (var d :- GetString(data, "direction"); Ok(Some(d)))
      else Ok(e.direction);
    var loop := match GetBoolean(data, "loop") case Ok(b) => b case Err(_) => e.loop;
    Ok(e.(maxTransTime := trans.0, minTransTime := trans.1, windowSize := windowSize,
          flowFactor := flowFactor, maxDelayTime := delay.0, minDelayTime := delay.1,
          explodeFactor := explodeFactor, maxBrightness := brightness.0,
          minBrightness := brightness.1, direction := direction, loop := loop))
  }

  /** The plugin branch is taken for a PLUGIN effect whose version is "2.0". */
  predicate IsPluginV2(e: EffectFields)
  {
    e.version == Some("2.0") && e.animType == Some(PLUGIN)
  }

  /** Effect.fromJSON on a parsed object: the fields of the effect it returns, or
      the exception it throws. */
  function FromJson(data: JsonObject): (r: Result<EffectFields>)
    ensures r.Err? ==> r.error == JsonError || r.error == IllegalArgument
    ensures r.Ok? ==> r.value.animType.Some? && r.value.palette.Some?
  {
    var e :- CommonFrom(data);
    if IsPluginV2(e) then PluginFrom(data, e) else AttributesFrom(data, e)
  }

  /** windowSize is read only for WHEEL effects; every other type gets -1. */
  lemma FromJsonWindowSize(data: JsonObject)
    requires FromJson(data).Ok?
    ensures FromJson(data).value.animType != Some(WHEEL) ==> FromJson(data).value.windowSize == -1
    ensures FromJson(data).value.animType == Some(WHEEL) ==>
      FromJson(data).value.windowSize == GetInt(data, "windowSize").value
  {
    var e := CommonFrom(data).value;
  }

  /** An EXPLODE effect reads explodeFactor with getDouble, so the text "0.5" reads as
      one half; every other type gets -1. */
  lemma FromJsonExplodeFactor(data: JsonObject)
    requires FromJson(data).Ok?
    ensures FromJson(data).value.animType != Some(EXPLODE) ==> FromJson(data).value.explodeFactor == -1.0
    ensures FromJson(data).value.animType == Some(EXPLODE) && data["explodeFactor"] == JString("0.5") ==>
      FromJson(data).value.explodeFactor == 0.5
  {
    var e := CommonFrom(data).value;
    if FromJson(data).value.animType == Some(EXPLODE) && data["explodeFactor"] == JString("0.5") {
      GetDoubleOfText(data, "explodeFactor");
    }
  }

  /** A missing transTime, delayTime or brightnessRange object leaves both of its
      bounds at -1, whatever the type. */
  lemma FromJsonRangesAbsent(data: JsonObject)
    requires FromJson(data).Ok?
    ensures var e := FromJson(data).value;
      && ("transTime" !in data ==> e.maxTransTime == -1 && e.minTransTime == -1)
      && ("delayTime" !in data ==> e.maxDelayTime == -1 && e.minDelayTime == -1)
      && ("brightnessRange" !in data ==> e.maxBrightness == -1 && e.minBrightness == -1)
  {
    var e := CommonFrom(data).value;
  }

  /** Outside the plugin branch, a well-formed range object is read as it stands. */
  lemma FromJsonRangePresent(data: JsonObject, key: string)
    requires FromJson(data).Ok? && !IsPluginV2(CommonFrom(data).value)
    requires key == "transTime" || key == "delayTime" || key == "brightnessRange"
    requires key in data && data[key].JObject?
    requires GetInt(data[key].fields, "maxValue").Ok? && GetInt(data[key].fields, "minValue").Ok?
    ensures var e := FromJson(data).value;
      var range := (GetInt(data[key].fields, "maxValue").value, GetInt(data[key].fields, "minValue").value);
      && (key == "transTime" ==> (e.maxTransTime, e.minTransTime) == range)
      && (key == "delayTime" ==> (e.maxDelayTime, e.minDelayTime) == range)
      && (key == "brightnessRange" ==> (e.maxBrightness, e.minBrightness) == range)
  {
  }
}
