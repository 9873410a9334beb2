/** The dashboard configuration policy: what the receiver may learn about a scenario. */
module Policy {
  import opened Prelude
  import Schedule

  datatype Json =
    | Null | Bool(flag: bool) | Number(value: int) | Text(text: string)
    | Array(items: seq<Json>) | Object(fields: map<string, Json>)

  const FORBIDDEN: set<string> :=
    {"messages", "truth_from_fixture", "truth_path", "truth_file", "generator_metadata",
     "transmitted_active_frequency_indices", "transmitted_pulse_frequency_indices"}

  const RECEIVER_FIELDS: seq<string> :=
    ["file_path", "sample_format", "first_complex_sample", "max_complex_samples", "max_read_complex_samples"]

  // ---- StripTruth --------------------------------------------------------------------------------------------

  function StripTruth(j: Json): Json {
    match j
    case Array(items) => Array(seq(|items|, i requires 0 <= i < |items| => StripTruth(items[i])))
    case Object(fields) => Object(map k <- fields | k !in FORBIDDEN :: StripTruth(fields[k]))
    case _ => j
  }

  datatype Step = Key(key: string) | Index(i: nat)

  /** The value at a path. */
  function At(j: Json, path: seq<Step>): Option<Json>
    decreases path
  {
    if path == [] then Some(j)
    else
      match path[0]
      case Key(k) => if j.Object? && k in j.fields then At(j.fields[k], path[1..]) else None
      case Index(i) => if j.Array? && i < |j.items| then At(j.items[i], path[1..]) else None
  }

  predicate Passes(path: seq<Step>) { forall s <- path :: s.Key? ==> s.key !in FORBIDDEN }

  /** Stripping commutes with looking up: values behind a forbidden key are gone, every other value
      is the stripped original at the same path. */
  lemma {:induction false} StripAt(j: Json, path: seq<Step>)
    ensures At(StripTruth(j), path) ==
            if !Passes(path) then None
            else if At(j, path).None? then None else Some(StripTruth(At(j, path).value))
    decreases path
  {
    if path != [] {
      assert Passes(path) <==> (path[0].Key? ==> path[0].key !in FORBIDDEN) && Passes(path[1..]) by {
        assert path == [path[0]] + path[1..];
      }
      match path[0]
      case Key(k) => if j.Object? && k in j.fields { StripAt(j.fields[k], path[1..]); }
      case Index(i) => if j.Array? && i < |j.items| { StripAt(j.items[i], path[1..]); }
    }
  }

  /** No forbidden key at any depth. */
  ghost predicate Clean(j: Json) {
    match j
    case Array(items) => forall i :: 0 <= i < |items| ==> Clean(items[i])
    case Object(fields) => forall k <- fields :: k !in FORBIDDEN && Clean(fields[k])
    case _ => true
  }

  lemma {:induction false} StripCleans(j: Json)
    ensures Clean(StripTruth(j))
  {
    match j
    case Array(items) => forall i | 0 <= i < |items| ensures Clean(StripTruth(items[i])) { StripCleans(items[i]); }
    case Object(fields) => forall k <- fields ensures Clean(StripTruth(fields[k])) { StripCleans(fields[k]); }
    case _ =>
  }

  /** A clean value is left as it is. */
  lemma {:induction false} StripKeepsClean(j: Json)
    requires Clean(j)
    ensures StripTruth(j) == j
  {
    match j
    case Array(items) =>
      forall i | 0 <= i < |items| ensures StripTruth(items[i]) == items[i] { StripKeepsClean(items[i]); }
    case Object(fields) =>
      forall k <- fields ensures StripTruth(fields[k]) == fields[k] { StripKeepsClean(fields[k]); }
      assert (map k <- fields | k !in FORBIDDEN :: StripTruth(fields[k])) == fields;
    case _ =>
  }

  lemma StripIsIdempotent(j: Json)
    ensures StripTruth(StripTruth(j)) == StripTruth(j)
  {
    StripCleans(j);
    StripKeepsClean(StripTruth(j));
  }

  // ---- Graphs --------------------------------------------------------------------------------------------------

  function Get(j: Json, key: string): Json { if j.Object? && key in j.fields then j.fields[key] else Null }

  function Put(j: Json, key: string, value: Json): Json { Object((if j.Object? then j.fields else map[])[key := value]) }

  function Erase(j: Json, key: string): Json { if j.Object? then Object(j.fields - {key}) else j }

  function EraseAll(j: Json, keys: seq<string>): Json
    decreases |keys|
  {
    if keys == [] then j else EraseAll(Erase(j, keys[0]), keys[1..])
  }

  function Nodes(graph: Json): seq<Json> {
    var nodes := Get(graph, "nodes"); if nodes.Array? then nodes.items else []
  }

  /** The first node with this id, or the length. */
  function FindNode(nodes: seq<Json>, id: string): (r: nat)
    ensures r <= |nodes|
  {
    if nodes == [] then 0 else if Get(nodes[0], "id") == Text(id) then 0 else 1 + FindNode(nodes[1..], id)
  }

  /** Applies `change` to the configuration of the node, if there is one. */
  function WithConfig(graph: Json, id: string, change: Json -> Json): Json {
    var nodes := Nodes(graph);
    var i := FindNode(nodes, id);
    if i == |nodes| then graph
    else Put(graph, "nodes", Array(nodes[i := Put(nodes[i], "node_config", change(Get(nodes[i], "node_config")))]))
  }

  // ---- What is derived from the scenario -------------------------------------------------------------------------

  function NumberOf(j: Json, key: string): Json { if Get(j, key).Number? then Get(j, key) else Number(0) }

  function Projection(pulse: Json): Json {
    Object(map["frequency_index" := NumberOf(pulse, "frequency_index"), "word_value" := NumberOf(pulse, "value")])
  }

  /** The first sixteen pulses of the first message, projected. */
  function Preamble(scenario: Json): seq<Json> {
    var messages := Get(scenario, "messages");
    if !messages.Array? || messages.items == [] then []
    else
      var pulses := Get(messages.items[0], "pulses");
      if !pulses.Array? then []
      else
        var n := if |pulses.items| < Schedule.PREAMBLE_PULSES then |pulses.items| else Schedule.PREAMBLE_PULSES;
        seq(n, i requires 0 <= i < n => Projection(pulses.items[i]))
  }

  function ActiveSet(preamble: seq<Json>): seq<Json> {
    if preamble == [] then []
    else
      var r, f := ActiveSet(preamble[..|preamble| - 1]), Get(preamble[|preamble| - 1], "frequency_index");
      if f in r then r else r + [f]
  }

  function Assigned(config: Json, input: Json, keys: seq<string>): Json
    decreases |keys|
  {
    if keys == [] then config
    else
      Assigned(if input.Object? && keys[0] in input.fields then Put(config, keys[0], input.fields[keys[0]]) else config,
               input, keys[1..])
  }

  function Timing(): Json {
    Object(map["pulse_samples" := Number(3200), "gap_samples" := Number(3300), "pulse_period_samples" := Number(6500)])
  }

  /** The source node takes what the scenario says about the receiver's input. */
  function Fed(config: Json, input: Json): Json { Assigned(config, input, RECEIVER_FIELDS) }

  /** The preamble detector and the assembler are told the preamble and no generator truth. */
  function Listening(config: Json, preamble: Json): Json {
    EraseAll(Put(config, "preamble_pulses", preamble), ["active_frequency_indices", "messages", "truth_from_fixture"])
  }

  function Unbiased(config: Json): Json {
    EraseAll(config, ["transmitted_active_frequency_indices", "transmitted_pulse_frequency_indices"])
  }

  function Configured(template: Json, input: Json, preamble: Json): Json {
    var a := WithConfig(template, "source", (c: Json) => Fed(c, input));
    var listen := (c: Json) => Listening(c, preamble);
    var b := WithConfig(WithConfig(a, "preamble", listen), "assembler", listen);
    WithConfig(b, "channelizer", (c: Json) => Unbiased(c))
  }

  function Annotated(graph: Json, preamble: Json, active: Json): Json {
    var derived := Object(map["active_frequency_indices" := active, "preamble_pulses" := preamble, "timing" := Timing()]);
    Put(Put(Put(graph, "dashboard_derived", derived), "active_frequency_indices", active), "preamble_pulses", preamble)
  }

  function DeriveEffective(template: Json, scenario: Json): Json {
    var preamble, active := Array(Preamble(scenario)), Array(ActiveSet(Preamble(scenario)));
    Annotated(Configured(template, Get(scenario, "receiver_input"), preamble), preamble, active)
  }

  function ReceiverMinimalGraph(effective: Json): Json {
    var g := StripTruth(EraseAll(effective, ["dashboard_derived", "active_frequency_indices", "preamble_pulses"]));
    var quiet := (c: Json) => Erase(c, "active_frequency_indices");
    WithConfig(WithConfig(g, "preamble", quiet), "assembler", quiet)
  }

  // ---- The derived values of a typed scenario ---------------------------------------------------------------------

  function ToneJson(t: Schedule.Tone): Json {
    Object(map["frequency_index" := Number(t.frequency), "word_value" := Number(t.word)])
  }

  function PulseJson(p: Schedule.Pulse): Json {
    Object(map["frequency_index" := Number(p.frequency), "value" := Number(p.value)])
  }

  function MessageJson(m: Schedule.Message): Json {
    Object(map["pulses" := Array(seq(|m.pulses|, i requires 0 <= i < |m.pulses| => PulseJson(m.pulses[i])))])
  }

  function ScenarioJson(s: Schedule.Scenario): Json {
    Object(map["messages" := Array(seq(|s.messages|, i requires 0 <= i < |s.messages| => MessageJson(s.messages[i])))])
  }

  function TonesJson(tones: seq<Schedule.Tone>): (r: seq<Json>)
    ensures |r| == |tones| && forall i :: 0 <= i < |r| ==> r[i] == ToneJson(tones[i])
  {
    seq(|tones|, i requires 0 <= i < |tones| => ToneJson(tones[i]))
  }

  /** On a well-typed scenario the JSON preamble is the validated one. */
  lemma PreambleOfScenario(s: Schedule.Scenario)
    ensures Preamble(ScenarioJson(s)) == TonesJson(Schedule.Preamble(s))
  {
    if s.messages != [] {
      var pulses := s.messages[0].pulses;
      var tones := Schedule.Preamble(s);
      forall i | 0 <= i < |tones| ensures Projection(PulseJson(pulses[i])) == ToneJson(tones[i]) {}
    }
  }

  /** And so is its active set. */
  lemma {:induction false} ActiveSetOfTones(tones: seq<Schedule.Tone>)
    ensures |ActiveSet(TonesJson(tones))| == |Schedule.FirstOccurrences(tones)|
    ensures forall i :: 0 <= i < |ActiveSet(TonesJson(tones))| ==>
              ActiveSet(TonesJson(tones))[i] == Number(Schedule.FirstOccurrences(tones)[i])
  {
    if tones != [] {
      var n := |tones| - 1;
      var front := tones[..n];
      ActiveSetOfTones(front);
      assert TonesJson(tones)[..n] == TonesJson(front);
      var js, fs, f := ActiveSet(TonesJson(front)), Schedule.FirstOccurrences(front), tones[n].frequency;
      assert Get(TonesJson(tones)[n], "frequency_index") == Number(f);
      if f in fs {
        var i :| 0 <= i < |fs| && fs[i] == f;
        assert js[i] == Number(f);
      }
      assert Number(f) in js <==> f in fs;
    }
  }

  // ---- Non-interference ----------------------------------------------------------------------------------------

  /** The two inputs agree on a receiver field: both lack it, or both hold the same value. */
  predicate SameField(a: Json, b: Json, key: string) {
    (a.Object? && key in a.fields <==> b.Object? && key in b.fields) && Get(a, key) == Get(b, key)
  }

  lemma {:induction false} AssignedSame(config: Json, a: Json, b: Json, keys: seq<string>)
    requires forall k <- keys :: SameField(a, b, k)
    ensures Assigned(config, a, keys) == Assigned(config, b, keys)
    decreases |keys|
  {
    if keys != [] {
      assert SameField(a, b, keys[0]) && forall k <- keys[1..] :: k in keys;
      var next := if a.Object? && keys[0] in a.fields then Put(config, keys[0], a.fields[keys[0]]) else config;
      AssignedSame(next, a, b, keys[1..]);
    }
  }

  lemma SameChange(graph: Json, id: string, f: Json -> Json, g: Json -> Json)
    requires forall c: Json :: f(c) == g(c)
    ensures WithConfig(graph, id, f) == WithConfig(graph, id, g)
  {
  }

  /** Scenarios that agree on the preamble projection and on the five receiver fields give the
      receiver the same graph, whatever else they contain. */
  lemma NonInterference(template: Json, a: Json, b: Json)
    requires Preamble(a) == Preamble(b)
    requires forall k <- RECEIVER_FIELDS :: SameField(Get(a, "receiver_input"), Get(b, "receiver_input"), k)
    ensures ReceiverMinimalGraph(DeriveEffective(template, a)) == ReceiverMinimalGraph(DeriveEffective(template, b))
  {
    hide Preamble, ActiveSet, WithConfig, ReceiverMinimalGraph, Annotated, Fed, Listening, Unbiased;
    var x, y := Get(a, "receiver_input"), Get(b, "receiver_input");
    var f, g := (c: Json) => Fed(c, x), (c: Json) => Fed(c, y);
    forall c: Json ensures f(c) == g(c) { FedSame(c, x, y); }
    SameChange(template, "source", f, g);
  }

  lemma FedSame(config: Json, a: Json, b: Json)
    requires forall k <- RECEIVER_FIELDS :: SameField(a, b, k)
    ensures Fed(config, a) == Fed(config, b)
  {
    AssignedSame(config, a, b, RECEIVER_FIELDS);
  }

  lemma {:induction false} FindNodeSpec(nodes: seq<Json>, id: string)
    ensures FindNode(nodes, id) < |nodes| ==> Get(nodes[FindNode(nodes, id)], "id") == Text(id)
    ensures forall i :: 0 <= i < FindNode(nodes, id) ==> Get(nodes[i], "id") != Text(id)
  {
    if nodes != [] && Get(nodes[0], "id") != Text(id) {
      FindNodeSpec(nodes[1..], id);
      forall i | 0 <= i < FindNode(nodes, id) ensures Get(nodes[i], "id") != Text(id) {
        if i > 0 { assert nodes[i] == nodes[1..][i - 1]; }
      }
    }
  }

  lemma CleanParts(j: Json, key: string, value: Json)
    requires Clean(j)
    ensures Clean(Get(j, key)) && Clean(Erase(j, key))
    ensures Clean(value) && key !in FORBIDDEN ==> Clean(Put(j, key, value))
  {
  }

  lemma CleanConfig(graph: Json, id: string, change: Json -> Json)
    requires Clean(graph) && forall c: Json :: Clean(c) ==> Clean(change(c))
    ensures Clean(WithConfig(graph, id, change))
  {
    hide FindNode;
    var nodes := Nodes(graph);
    CleanParts(graph, "nodes", Null);
    var i := FindNode(nodes, id);
    if i < |nodes| {
      CleanParts(nodes[i], "node_config", change(Get(nodes[i], "node_config")));
      var node := Put(nodes[i], "node_config", change(Get(nodes[i], "node_config")));
      assert Clean(Array(nodes[i := node]));
      CleanParts(graph, "nodes", Array(nodes[i := node]));
    }
  }

  /** The receiver's graph carries no generator truth, at any depth. */
  lemma ReceiverGraphIsClean(effective: Json)
    ensures Clean(ReceiverMinimalGraph(effective))
  {
    hide EraseAll, WithConfig, Clean;
    var g := StripTruth(EraseAll(effective, ["dashboard_derived", "active_frequency_indices", "preamble_pulses"]));
    StripCleans(EraseAll(effective, ["dashboard_derived", "active_frequency_indices", "preamble_pulses"]));
    var quiet := (c: Json) => Erase(c, "active_frequency_indices");
    forall c: Json ensures Clean(c) ==> Clean(quiet(c)) { if Clean(c) { CleanParts(c, "active_frequency_indices", Null); } }
    CleanConfig(g, "preamble", quiet);
    CleanConfig(WithConfig(g, "preamble", quiet), "assembler", quiet);
  }
}
