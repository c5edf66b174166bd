/** io.github.rowak.PluginOptions: the options of a plugin effect, a map from the
    eight known option names to JSON values. */
module PluginOptionMaps {
  import opened Wrappers
  import opened JavaText
  import opened Json

  /** PROPERTIES_NAMES. */
  const OptionNames: seq<string> :=
    ["transTime", "loop", "linDirection", "radDirection",
     "rotDirection", "delayTime", "nColorsPerFrame", "mainColorProb"]

  type Options = map<string, Json>

  /** fromJSON's outer loop over items[..k]: each item must be an object with a string
      "name" and a "value"; an item with a known name sets that option, a later one
      replacing an earlier one. */
  function OptionsFrom(items: seq<Json>, k: nat): (r: Result<Options>)
    requires k <= |items|
    ensures r.Ok? ==> forall name :: name in r.value ==> name in OptionNames
    ensures r.Err? ==> r.error == JsonError
  {
    if k == 0 then Ok(map[])
    else
      var prev :- OptionsFrom(items, k - 1);
      var item := items[k - 1];
      if !item.JObject? then Err(JsonError)
      else
        var name :- GetString(item.fields, "name");
        var value :- Get(item.fields, "value");
        Ok(if name in OptionNames then prev[name := value] else prev)
  }

  /** Item j is an object named name. */
  predicate NamedAt(items: seq<Json>, j: int, name: string)
  {
    0 <= j < |items| && items[j].JObject? && GetString(items[j].fields, "name") == Ok(name)
  }

  /** An option is kept exactly when its name is known and some item carries it, and
      the last such item gives its value. */
  lemma {:induction false} OptionsFromLastWins(items: seq<Json>, k: nat, name: string)
    requires k <= |items| && OptionsFrom(items, k).Ok?
    ensures name in OptionsFrom(items, k).value <==>
      name in OptionNames && exists j :: 0 <= j < k && NamedAt(items, j, name)
    ensures name in OptionsFrom(items, k).value ==>
      exists j :: 0 <= j < k && NamedAt(items, j, name) && "value" in items[j].fields &&
        OptionsFrom(items, k).value[name] == items[j].fields["value"] &&
        forall i :: j < i < k ==> !NamedAt(items, i, name)
  {
    if k > 0 {
      OptionsFromLastWins(items, k - 1, name);
      if NamedAt(items, k - 1, name) && name in OptionNames {
        assert OptionsFrom(items, k).value[name] == items[k - 1].fields["value"];
      }
    }
  }

  /** The object toJSON writes for one option. */
  function Entry(name: string, value: Json): Json
  {
    JObject(map["name" := JString(name), "value" := value])
  }

  /** getTransTime, getDelayTime and getNumColorsPerFrame: -1 when unset, the Integer
      otherwise; another type is a ClassCastException. */
  function IntOf(options: Options, name: string): (r: Result<Int32>)
    ensures name !in options ==> r == Ok(-1)
    ensures name in options && options[name].JInt? && INT_MIN <= options[name].i <= INT_MAX ==> r == Ok(options[name].i)
  {
    if name !in options then Ok(-1)
    else match options[name]
      case JInt(i) => if INT_MIN <= i <= INT_MAX then Ok(i) else Err(ClassCast)
      case _ => Err(ClassCast)
  }

  /** loop(): false when unset. */
  function BoolOf(options: Options, name: string): (r: Result<bool>)
    ensures name !in options ==> r == Ok(false)
    ensures name in options && options[name].JBool? ==> r == Ok(options[name].b)
  {
    if name !in options then Ok(false)
    else match options[name]
      case JBool(b) => Ok(b)
      case _ => Err(ClassCast)
  }

  /** getMainColorProbability(): -1 when unset; only a Double is accepted, so an
      integral value read from JSON is a ClassCastException. */
  function DoubleOf(options: Options, name: string): (r: Result<real>)
    ensures name !in options ==> r == Ok(-1.0)
    ensures name in options && options[name].JDouble? ==> r == Ok(options[name].d)
    ensures name in options && options[name].JInt? ==> r == Err(ClassCast)
  {
    if name !in options then Ok(-1.0)
    else match options[name]
      case JDouble(d) => Ok(d)
      case _ => Err(ClassCast)
  }

  /** The three direction getters: the String, or null when unset. */
  function TextOf(options: Options, name: string): (r: Result<Option<string>>)
    ensures name !in options ==> r == Ok(None)
    ensures name in options && options[name].JString? ==> r == Ok(Some(options[name].s))
  {
    if name !in options then Ok(None)
    else match options[name]
      case JString(s) => Ok(Some(s))
      case _ => Err(ClassCast)
  }

  /** A setter followed by its getter gives the value set back, and no other option
      reads differently. */
  lemma SetThenGet(options: Options, name: string, v: Json, other: string)
    requires other != name
    ensures v.JInt? && INT_MIN <= v.i <= INT_MAX ==> IntOf(options[name := v], name) == Ok(v.i)
    ensures v.JBool? ==> BoolOf(options[name := v], name) == Ok(v.b)
    ensures v.JDouble? ==> DoubleOf(options[name := v], name) == Ok(v.d)
    ensures v.JString? ==> TextOf(options[name := v], name) == Ok(Some(v.s))
    ensures IntOf(options[name := v], other) == IntOf(options, other)
    ensures BoolOf(options[name := v], other) == BoolOf(options, other)
    ensures DoubleOf(options[name := v], other) == DoubleOf(options, other)
    ensures TextOf(options[name := v], other) == TextOf(options, other)
  {
  }

  class PluginOptions {
    var properties: Options

    /** new PluginOptions(): no options. */
    constructor()
      ensures properties == map[]
    {
      properties := map[];
    }

    /** The setters: setTransTime, setLoop, setLinearDirection, setRadialDirection,
        setRotationDirection, setDelayTime, setNumColorsPerFrame and
        setMainColorProbability put their option. */
    method Set(name: string, value: Json)
      modifies this
      ensures properties == old(properties)[name := value]
    {
      properties := properties[name := value];
    }

    function GetTransTime(): Result<Int32>
      reads this
    {
      IntOf(properties, "transTime")
    }

    function Loop(): Result<bool>
      reads this
    {
      BoolOf(properties, "loop")
    }

    function GetDelayTime(): Result<Int32>
      reads this
    {
      IntOf(properties, "delayTime")
    }

    function GetNumColorsPerFrame(): Result<Int32>
      reads this
    {
      IntOf(properties, "nColorsPerFrame")
    }

    function GetMainColorProbability(): Result<real>
      reads this
    {
      DoubleOf(properties, "mainColorProb")
    }

    /** getLinearDirection, getRadialDirection and getRotationalDirection, by name. */
    function GetDirection(name: string): Result<Option<string>>
      reads this
    {
      TextOf(properties, name)
    }

    /** toJSON(), as the array whose text it returns: one {name, value} object per
        option, in the map's iteration order, which order names without repeats. */
    method ToJson() returns (json: seq<Json>, ghost order: seq<string>)
      ensures |order| == |properties| && forall k :: k in properties <==> k in order
      ensures Distinct(order) && json == Entries(properties, order)
    {
      json, order := [], [];
      var keys := properties.Keys;
      while keys != {}
        invariant keys <= properties.Keys
        invariant forall k :: k in properties ==> (k in keys <==> k !in order)
        invariant forall k :: k in order ==> k in properties
        invariant |order| + |keys| == |properties| && Distinct(order)
        invariant json == Entries(properties, order)
        decreases keys
      {
        var key :| key in keys;
        EntriesSnoc(properties, order, key);
        json, order := json + [Entry(key, properties[key])], order + [key];
        keys := keys - {key};
      }
    }
  }

  predicate Distinct(order: seq<string>)
  {
    forall i, j :: 0 <= i < j < |order| ==> order[i] != order[j]
  }

  /** The objects of the options order names, in that order. */
  function Entries(properties: Options, order: seq<string>): (r: seq<Json>)
    ensures |r| == |order|
  {
    if order == [] then []
    else
      var last := order[|order| - 1];
      Entries(properties, order[..|order| - 1]) +
        [Entry(last, if last in properties then properties[last] else JNull)]
  }

  /** One step of toJSON's loop. */
  lemma EntriesSnoc(properties: Options, order: seq<string>, key: string)
    requires key in properties && key !in order && Distinct(order)
    ensures Distinct(order + [key])
    ensures Entries(properties, order + [key]) == Entries(properties, order) + [Entry(key, properties[key])]
  {
    assert (order + [key])[..|order|] == order;
  }

  /** The known options among the first names of order. */
  function KnownIn(properties: Options, names: seq<string>): Options
  {
    map n | n in properties && n in OptionNames && n in names :: properties[n]
  }

  lemma {:induction false} OptionsOfEntries(items: seq<Json>, properties: Options, order: seq<string>, k: nat)
    requires k <= |items| && k <= |order|
    requires forall i :: 0 <= i < k ==> order[i] in properties && items[i] == Entry(order[i], properties[order[i]])
    ensures OptionsFrom(items, k) == Ok(KnownIn(properties, order[..k]))
  {
    if k > 0 {
      OptionsOfEntries(items, properties, order, k - 1);
      OptionsFromEntry(items, k, order[k - 1], properties[order[k - 1]]);
      KnownInSnoc(properties, order, k);
    }
  }

  /** One item written by toJSON, read by fromJSON. */
  lemma OptionsFromEntry(items: seq<Json>, k: nat, name: string, value: Json)
    requires 0 < k <= |items| && OptionsFrom(items, k - 1).Ok? && items[k - 1] == Entry(name, value)
    ensures OptionsFrom(items, k) ==
      Ok(var prev := OptionsFrom(items, k - 1).value; if name in OptionNames then prev[name := value] else prev)
  {
    assert GetString(items[k - 1].fields, "name") == Ok(name);
  }

  lemma KnownInSnoc(properties: Options, order: seq<string>, k: nat)
    requires 0 < k <= |order| && order[k - 1] in properties
    ensures KnownIn(properties, order[..k]) ==
      var prev := KnownIn(properties, order[..k - 1]);
      var name := order[k - 1];
      if name in OptionNames then prev[name := properties[name]] else prev
  {
    assert order[..k] == order[..k - 1] + [order[k - 1]];
  }

  lemma {:induction false} EntryAt(properties: Options, order: seq<string>, i: nat)
    requires i < |order| && forall n :: n in order ==> n in properties
    ensures Entries(properties, order)[i] == Entry(order[i], properties[order[i]])
  {
    var init := order[..|order| - 1];
    assert forall n :: n in init ==> n in order;
    if i < |init| {
      EntryAt(properties, init, i);
    } else if init != [] {
      EntryAt(properties, init, 0);
    }
  }

  /** fromJSON reads back the known options toJSON wrote, whatever the order. */
  lemma ToJsonFromJson(properties: Options, order: seq<string>)
    requires forall k :: k in properties <==> k in order
    ensures OptionsFrom(Entries(properties, order), |order|) ==
      Ok(map n | n in properties && n in OptionNames :: properties[n])
  {
    forall i | 0 <= i < |order|
      ensures Entries(properties, order)[i] == Entry(order[i], properties[order[i]])
    {
      EntryAt(properties, order, i);
    }
    OptionsOfEntries(Entries(properties, order), properties, order, |order|);
    assert order[..|order|] == order;
    assert KnownIn(properties, order) == map n | n in properties && n in OptionNames :: properties[n];
  }

  /** fromJSON(json), from the parsed array. A non-object item, a missing or non-string
      name or a missing value is a JSONException, and then no options are made. */
  method FromJson(items: seq<Json>) returns (r: Result<PluginOptions>)
    ensures r.Ok? <==> OptionsFrom(items, |items|).Ok?
    ensures r.Ok? ==> fresh(r.value) && r.value.properties == OptionsFrom(items, |items|).value
    ensures r.Err? ==> r.error == JsonError
  {
    var plo := new PluginOptions();
    for i := 0 to |items|
      invariant OptionsFrom(items, i).Ok? && plo.properties == OptionsFrom(items, i).value
    {
      var item := items[i];
      if !item.JObject? {
        OptionsFromErr(items, i + 1, |items|);
        return Err(JsonError);
      }
      var name := GetString(item.fields, "name");
      if name.Err? {
        OptionsFromErr(items, i + 1, |items|);
        return Err(JsonError);
      }
      var value := Get(item.fields, "value");
      if value.Err? {
        OptionsFromErr(items, i + 1, |items|);
        return Err(JsonError);
      }
      ghost var prev := plo.properties;
      for j := 0 to |OptionNames|
        invariant plo.properties == if name.value in OptionNames[..j] then prev[name.value := value.value] else prev
      {
        if OptionNames[j] == name.value {
          plo.Set(name.value, value.value);
        }
      }
      assert OptionNames[..|OptionNames|] == OptionNames;
    }
    return Ok(plo);
  }

  lemma {:induction false} OptionsFromErr(items: seq<Json>, k: nat, n: nat)
    requires k <= n <= |items| && OptionsFrom(items, k).Err?
    ensures OptionsFrom(items, n).Err?
    decreases n - k
  {
    if k < n {
      OptionsFromErr(items, k, n - 1);
    }
  }
}
