/** The static table of analysis modes (modes.ts): their order, prompt kinds,
    list flags, the Chart sub-modes and the two prompt templates. The literal
    instruction texts of the fixed prompts are kept abstract: a fixed prompt
    is represented by the key of the mode that stores it. */
module Modes {
  import opened Wrappers
  import opened Strings

  /** The two prompts that are functions of user input. */
  datatype TemplateKind = ChartTemplate | CustomTemplate

  /** `prompt: string | ((input: string) => string)`. */
  datatype PromptConfig = Stored(key: string) | Template(kind: TemplateKind)

  /** A named preset of the Chart mode and the instruction it stands for. */
  datatype SubMode = SubMode(name: string, description: string)

  datatype Mode = Mode(key: string, prompt: PromptConfig, isList: bool, subModes: Option<seq<SubMode>>)

  const ChartPrefix := "Generate chart data for this video based on the following instructions: "
  const ChartSuffix := ". Call set_timecodes_with_numeric_values once with the list of data values and timecodes."
  const CustomPrefix := "Call set_timecodes once using the following instructions: "

  /** Mode keys in declaration order, which is also `Object.keys(modes)` order. */
  const Keys: seq<string> := ["A/V captions", "Simple Captions", "Paragraph", "Key moments", "Table", "Haiku", "Chart", "Custom"]

  /** The keys whose results are shown as a list. */
  const ListKeys: set<string> := {"A/V captions", "Simple Captions", "Key moments", "Custom"}

  const ChartSubModes: seq<SubMode> := [
    SubMode("Excitement", "for each scene, estimate the level of excitement on a scale of 1 to 10"),
    SubMode("Importance", "for each scene, estimate the level of overall importance to the video on a scale of 1 to 10"),
    SubMode("Number of people", "for each scene, count the number of people visible")
  ]

  /** The mode table. */
  function AllModes(): seq<Mode> {
    [ Mode("A/V captions", Stored("A/V captions"), true, None),
      Mode("Simple Captions", Stored("Simple Captions"), true, None),
      Mode("Paragraph", Stored("Paragraph"), false, None),
      Mode("Key moments", Stored("Key moments"), true, None),
      Mode("Table", Stored("Table"), false, None),
      Mode("Haiku", Stored("Haiku"), false, None),
      Mode("Chart", Template(ChartTemplate), false, Some(ChartSubModes)),
      Mode("Custom", Template(CustomTemplate), true, None) ]
  }

  /** The table follows `Keys`, stores each key once, gives exactly Chart and
      Custom a prompt function (every other mode stores its own fixed
      prompt), gives only Chart sub-modes, and flags exactly the list keys. */
  lemma ModeTable()
    ensures var ms := AllModes();
      && |ms| == |Keys| == 8
      && (forall i | 0 <= i < |ms| :: ms[i].key == Keys[i])
      && (forall i, j | 0 <= i < j < |ms| :: ms[i].key != ms[j].key)
      && (forall i | 0 <= i < |ms| :: ms[i].prompt.Template? <==> ms[i].key == "Chart" || ms[i].key == "Custom")
      && (forall i | 0 <= i < |ms| :: ms[i].prompt.Stored? ==> ms[i].prompt.key == ms[i].key)
      && (forall i | 0 <= i < |ms| :: ms[i].key == "Chart" ==> ms[i].prompt == Template(ChartTemplate))
      && (forall i | 0 <= i < |ms| :: ms[i].key == "Custom" ==> ms[i].prompt == Template(CustomTemplate))
      && (forall i | 0 <= i < |ms| :: ms[i].subModes.Some? <==> ms[i].key == "Chart")
      && (forall i | 0 <= i < |ms| :: ms[i].key == "Chart" ==> ms[i].subModes == Some(ChartSubModes))
      && (forall i | 0 <= i < |ms| :: ms[i].isList <==> ms[i].key in ListKeys)
  {
    TableKeys();
    KeysDistinct();
    TablePrompts();
    TableFlags();
  }

  /** The table's keys are `Keys`, in order. */
  lemma TableKeys()
    ensures |AllModes()| == |Keys| == 8
    ensures forall i | 0 <= i < |AllModes()| :: AllModes()[i].key == Keys[i]
  {
  }

  /** No key occurs twice. Every key but Custom starts with its own
      letter; Chart and Custom differ in their second. */
  lemma KeysDistinct()
    ensures forall i, j | 0 <= i < j < |Keys| :: Keys[i] != Keys[j]
  {
    var heads := ['A', 'S', 'P', 'K', 'T', 'H', 'C', 'C'];
    assert forall i | 0 <= i < |Keys| :: |Keys[i]| > 1 && Keys[i][0] == heads[i];
    assert Keys[6][1] != Keys[7][1];
  }

  /** Chart and Custom carry their prompt functions, every other mode its
      own fixed prompt. */
  lemma TablePrompts()
    ensures var ms := AllModes();
      && |ms| == |Keys|
      && (forall i | 0 <= i < |ms| :: ms[i].prompt.Template? <==> i == 6 || i == 7)
      && (forall i | 0 <= i < |ms| :: ms[i].prompt.Stored? ==> ms[i].prompt.key == Keys[i])
      && ms[6].prompt == Template(ChartTemplate) && ms[7].prompt == Template(CustomTemplate)
  {
  }

  /** Only Chart has sub-modes, and the list flag marks the list keys. */
  lemma TableFlags()
    ensures var ms := AllModes();
      && |ms| == |Keys|
      && (forall i | 0 <= i < |ms| :: ms[i].subModes.Some? <==> i == 6)
      && ms[6].subModes == Some(ChartSubModes)
      && (forall i | 0 <= i < |ms| :: ms[i].isList <==> Keys[i] in ListKeys)
  {
  }

  /** `Object.keys(modes)[0]`, the mode a session starts in and Back returns to. */
  function FirstKey(): (k: string)
    ensures k == Keys[0] && k == "A/V captions"
  {
    ModeTable();
    AllModes()[0].key
  }

  /** The position of the first entry of `ms` stored under `key`, searching
      from position `from`; `|ms|` when there is none. */
  function IndexOf(ms: seq<Mode>, key: string, from: nat): (i: nat)
    requires from <= |ms|
    ensures from <= i <= |ms|
    ensures i < |ms| ==> ms[i].key == key
    ensures forall j | from <= j < i :: ms[j].key != key
    decreases |ms| - from
  {
    if from == |ms| then |ms|
    else if ms[from].key == key then from
    else IndexOf(ms, key, from + 1)
  }

  /** `modes[key]`: the mode stored under `key`, or `undefined`. Only the
      eight keys are found; Chart and Custom carry their prompt functions,
      every other mode its own fixed prompt; only Chart has sub-modes; and
      the list flag marks exactly the list keys. */
  function Lookup(key: string): (m: Option<Mode>)
    ensures m.Some? <==> key in Keys
    ensures m.Some? ==> m.value.key == key
    ensures m.Some? ==> (m.value.prompt.Template? <==> key == "Chart" || key == "Custom")
    ensures m.Some? && m.value.prompt.Stored? ==> m.value.prompt.key == key
    ensures m.Some? && key == "Chart" ==> m.value.prompt == Template(ChartTemplate) && m.value.subModes == Some(ChartSubModes)
    ensures m.Some? && key == "Custom" ==> m.value.prompt == Template(CustomTemplate)
    ensures m.Some? && key != "Chart" ==> m.value.subModes.None?
    ensures m.Some? ==> (m.value.isList <==> key in ListKeys)
  {
    if key in Keys then
      var prompt := if key == "Chart" then Template(ChartTemplate) else if key == "Custom" then Template(CustomTemplate) else Stored(key);
      Some(Mode(key, prompt, key in ListKeys, if key == "Chart" then Some(ChartSubModes) else None))
    else None
  }

  /** The first entry of the table stored under `key`, found by searching
      the table in order. */
  function TableEntry(key: string): Option<Mode> {
    var i := IndexOf(AllModes(), key, 0);
    if i < |AllModes()| then Some(AllModes()[i]) else None
  }

  /** The closed form of `Lookup` agrees with searching the table. */
  lemma LookupIsTableEntry(key: string)
    ensures Lookup(key) == TableEntry(key)
  {
    ModeTable();
    var ms := AllModes();
    var i := IndexOf(ms, key, 0);
    if i < |ms| {
      assert ms[i].key == key;
    } else {
      assert forall j | 0 <= j < |ms| :: ms[j].key != key;
      assert forall j | 0 <= j < |Keys| :: Keys[j] != key;
    }
  }

  /** No list key is empty, Table or Chart: each starts with 'A', 'S', 'K'
      or "Cu". */
  lemma ListKeyIsNotTableOrChart(k: string)
    requires k in ListKeys
    ensures k != "" && k != "Table" && k != "Chart"
  {
    assert k == "A/V captions" || k == "Simple Captions" || k == "Key moments" || k == "Custom";
    assert |k| > 1 && (k[0] == 'A' || k[0] == 'S' || k[0] == 'K' || (k[0] == 'C' && k[1] == 'u'));
  }

  /** Every list key is a mode key. */
  lemma ListKeysAreKeys(k: string)
    requires k in ListKeys
    ensures k in Keys
  {
    if k == "A/V captions" {
      assert Keys[0] == k;
    } else if k == "Simple Captions" {
      assert Keys[1] == k;
    } else if k == "Key moments" {
      assert Keys[3] == k;
    } else {
      assert Keys[7] == k;
    }
  }

  /** `subModes[name]`: the instruction a Chart preset stands for, or `undefined`. */
  function FindSubMode(subs: seq<SubMode>, name: string): (d: Option<string>)
    ensures d.Some? <==> exists i | 0 <= i < |subs| :: subs[i].name == name
    ensures d.Some? ==> exists i | 0 <= i < |subs| :: subs[i].name == name && subs[i].description == d.value
  {
    if subs == [] then None
    else if subs[0].name == name then Some(subs[0].description)
    else
      var d := FindSubMode(subs[1..], name);
      assert forall i | 1 <= i < |subs| :: subs[i] == subs[1..][i - 1];
      d
  }

  /** A template literal's `${input}`: `undefined` is spelled out. */
  function Interpolate(input: Option<string>): string {
    match input
    case Some(s) => s
    case None => "undefined"
  }

  /** The output of the Chart or Custom prompt function for `input`. */
  function ApplyTemplate(kind: TemplateKind, input: Option<string>): (r: string)
    ensures kind == CustomTemplate ==> StartsWith(r, CustomPrefix)
    ensures kind == ChartTemplate ==> StartsWith(r, ChartPrefix) && |r| >= |ChartPrefix| + |ChartSuffix|
    ensures kind == ChartTemplate ==> r[|r| - |ChartSuffix|..] == ChartSuffix
  {
    match kind
    case ChartTemplate => ChartPrefix + Interpolate(input) + ChartSuffix
    case CustomTemplate => CustomPrefix + Interpolate(input)
  }

  /** Recovers the interpolated text from a template's output, by removing
      the fixed prefix (and, for Chart, the fixed suffix). */
  function TemplateInput(kind: TemplateKind, r: string): string
    requires StartsWith(r, if kind == ChartTemplate then ChartPrefix else CustomPrefix)
    requires kind == ChartTemplate ==> |r| >= |ChartPrefix| + |ChartSuffix|
  {
    match kind
    case ChartTemplate => r[|ChartPrefix|..|r| - |ChartSuffix|]
    case CustomTemplate => r[|CustomPrefix|..]
  }

  /** The template keeps the interpolated text intact: a fixed prefix, the
      input, and (for Chart) a fixed suffix, and nothing else. */
  lemma TemplateRoundTrip(kind: TemplateKind, input: Option<string>)
    ensures TemplateInput(kind, ApplyTemplate(kind, input)) == Interpolate(input)
  {
    var r := ApplyTemplate(kind, input);
    if kind == ChartTemplate {
      assert r == ChartPrefix + Interpolate(input) + ChartSuffix;
      assert r[|ChartPrefix|..|r| - |ChartSuffix|] == Interpolate(input);
    } else {
      assert r == CustomPrefix + Interpolate(input);
      assert r[|CustomPrefix|..] == Interpolate(input);
    }
  }

  /** The Chart preset names, `Object.keys(modes.Chart.subModes)`: the names
      of the sub-modes the Chart entry carries (see `ChartPresets`). */
  function ChartModeNames(): (names: seq<string>)
    ensures names == ["Excitement", "Importance", "Number of people"]
    ensures |names| == |ChartSubModes| && forall i | 0 <= i < |names| :: names[i] == ChartSubModes[i].name
  {
    [ChartSubModes[0].name, ChartSubModes[1].name, ChartSubModes[2].name]
  }

  /** The Chart entry of the table carries the three presets. */
  lemma ChartPresets()
    ensures Lookup("Chart").Some? && Lookup("Chart").value.subModes == Some(ChartSubModes)
  {
  }

  /** The initial chart mode 'Sentiment' is not one of the Chart presets, so
      looking it up yields `undefined`. */
  lemma SentimentIsNotAPreset()
    ensures FindSubMode(Lookup("Chart").value.subModes.value, "Sentiment") == None
  {
    ChartPresets();
  }
}
