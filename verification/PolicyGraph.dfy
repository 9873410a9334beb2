/** What the derived graphs contain, key by key: the template, the scenario's five receiver fields and
    the preamble, and nothing else. */
module PolicyGraph {
  import opened Prelude
  import opened Policy

  function Look(j: Json, key: string): Option<Json> { if j.Object? && key in j.fields then Some(j.fields[key]) else None }

  function Config(graph: Json, i: nat): Json
    requires i < |Nodes(graph)|
  {
    Get(Nodes(graph)[i], "node_config")
  }

  /** Node `i` is the first with this id. */
  ghost predicate First(graph: Json, id: string, i: nat) {
    && i < |Nodes(graph)| && Get(Nodes(graph)[i], "id") == Text(id)
    && forall j :: 0 <= j < i ==> Get(Nodes(graph)[j], "id") != Text(id)
  }

  ghost predicate IsListener(graph: Json, i: nat) { First(graph, "preamble", i) || First(graph, "assembler", i) }

  predicate IsReceiverField(key: string) {
    || key == "file_path" || key == "sample_format" || key == "first_complex_sample" || key == "max_complex_samples"
    || key == "max_read_complex_samples"
  }

  /** What listeners must not be told, and channelizers must not know. */
  predicate IsTruth(key: string) { key == "active_frequency_indices" || key == "messages" || key == "truth_from_fixture" }
  predicate IsBias(key: string) {
    key == "transmitted_active_frequency_indices" || key == "transmitted_pulse_frequency_indices"
  }

  predicate IsDerived(key: string) {
    key == "dashboard_derived" || key == "active_frequency_indices" || key == "preamble_pulses"
  }

  // ---- What the derivation promises ------------------------------------------------------------------------

  /** The value of a configuration key of node `i` in the effective graph. */
  ghost function Effective(template: Json, scenario: Json, i: nat, key: string): Option<Json>
    requires i < |Nodes(template)|
  {
    var given := Look(Get(scenario, "receiver_input"), key);
    if First(template, "source", i) && IsReceiverField(key) && given.Some? then given
    else if IsListener(template, i) && key == "preamble_pulses" then Some(Array(Preamble(scenario)))
    else if IsListener(template, i) && IsTruth(key) then None
    else if First(template, "channelizer", i) && IsBias(key) then None
    else Look(Config(template, i), key)
  }

  ghost predicate IsConfigured(graph: Json, i: nat) {
    First(graph, "source", i) || IsListener(graph, i) || First(graph, "channelizer", i)
  }

  ghost predicate EffectiveSays(template: Json, scenario: Json, e: Json) {
    && |Nodes(e)| == |Nodes(template)|
    && Look(e, "active_frequency_indices") == Some(Array(ActiveSet(Preamble(scenario))))
    && Look(e, "preamble_pulses") == Some(Array(Preamble(scenario)))
    && Look(e, "dashboard_derived").Some? && DerivedSays(scenario, Look(e, "dashboard_derived").value)
    && (forall k :: k != "nodes" && !IsDerived(k) ==> Look(e, k) == Look(template, k))
    && forall i :: 0 <= i < |Nodes(template)| ==> NodeSays(template, scenario, e, i)
  }

  ghost predicate DerivedSays(scenario: Json, derived: Json) {
    && Look(derived, "active_frequency_indices") == Some(Array(ActiveSet(Preamble(scenario))))
    && Look(derived, "preamble_pulses") == Some(Array(Preamble(scenario)))
    && Look(derived, "timing") == Some(Object(map["pulse_samples" := Number(3200), "gap_samples" := Number(3300),
                                                  "pulse_period_samples" := Number(6500)]))
  }

  ghost predicate NodeSays(template: Json, scenario: Json, e: Json, i: nat)
    requires i < |Nodes(template)| && |Nodes(e)| == |Nodes(template)|
  {
    if IsConfigured(template, i) then
      && (forall k :: k != "node_config" ==> Look(Nodes(e)[i], k) == Look(Nodes(template)[i], k))
      && forall k :: Look(Config(e, i), k) == Effective(template, scenario, i, k)
    else Nodes(e)[i] == Nodes(template)[i]
  }

  // ---- Building blocks -----------------------------------------------------------------------------------------

  lemma PutLook(j: Json, key: string, value: Json, k: string)
    ensures Look(Put(j, key, value), k) == if k == key then Some(value) else Look(j, k)
  {
  }

  lemma {:induction false} EraseAllLook(j: Json, keys: seq<string>, k: string)
    ensures Look(EraseAll(j, keys), k) == if k in keys then None else Look(j, k)
    decreases |keys|
  {
    if keys != [] {
      EraseAllLook(Policy.Erase(j, keys[0]), keys[1..], k);
      assert k in keys <==> k == keys[0] || k in keys[1..];
    }
  }

  lemma {:induction false} AssignedLook(config: Json, input: Json, keys: seq<string>, k: string)
    ensures Look(Assigned(config, input, keys), k)
            == if k in keys && Look(input, k).Some? then Look(input, k) else Look(config, k)
    decreases |keys|
  {
    if keys != [] {
      var next := if Look(input, keys[0]).Some? then Put(config, keys[0], Look(input, keys[0]).value) else config;
      AssignedLook(next, input, keys[1..], k);
      assert k in keys <==> k == keys[0] || k in keys[1..];
    }
  }

  ghost predicate Renewed(before: Json, after: Json, change: Json -> Json) {
    && (forall k :: k != "node_config" ==> Look(after, k) == Look(before, k))
    && Get(after, "node_config") == change(Get(before, "node_config"))
  }

  /** Only the configuration of the first node with this id changes. */
  ghost predicate Reconfigured(g: Json, r: Json, id: string, change: Json -> Json) {
    && |Nodes(r)| == |Nodes(g)| && (forall k :: k != "nodes" ==> Look(r, k) == Look(g, k))
    && forall i :: 0 <= i < |Nodes(g)| ==>
         if First(g, id, i) then Renewed(Nodes(g)[i], Nodes(r)[i], change) else Nodes(r)[i] == Nodes(g)[i]
  }

  lemma FirstIsFound(g: Json, id: string, i: nat)
    requires i < |Nodes(g)|
    ensures First(g, id, i) <==> FindNode(Nodes(g), id) == i
  {
    hide Nodes, FindNode;
    FindNodeSpec(Nodes(g), id);
  }

  lemma WithConfigSays(g: Json, id: string, change: Json -> Json)
    ensures Reconfigured(g, WithConfig(g, id, change), id, change)
  {
    hide First, FindNode;
    var r := WithConfig(g, id, change);
    forall i | 0 <= i < |Nodes(g)|
      ensures |Nodes(r)| == |Nodes(g)|
      ensures if First(g, id, i) then Renewed(Nodes(g)[i], Nodes(r)[i], change) else Nodes(r)[i] == Nodes(g)[i]
    {
      FirstIsFound(g, id, i);
    }
  }

  ghost predicate SameIds(g: Json, r: Json) {
    |Nodes(r)| == |Nodes(g)| && forall i :: 0 <= i < |Nodes(g)| ==> Get(Nodes(r)[i], "id") == Get(Nodes(g)[i], "id")
  }

  lemma IdsStay(g: Json, r: Json, id: string, change: Json -> Json)
    requires Reconfigured(g, r, id, change)
    ensures SameIds(g, r)
  {
    forall i | 0 <= i < |Nodes(g)| ensures Get(Nodes(r)[i], "id") == Get(Nodes(g)[i], "id") {
      assert Look(Nodes(r)[i], "id") == Look(Nodes(g)[i], "id");
      GetIsLook(Nodes(r)[i], "id");
      GetIsLook(Nodes(g)[i], "id");
    }
  }

  lemma GetIsLook(j: Json, k: string)
    ensures Get(j, k) == match Look(j, k) case Some(v) => v case None => Null
  {
  }

  lemma FirstStays(g: Json, r: Json, id: string, i: nat)
    requires SameIds(g, r)
    ensures First(g, id, i) <==> First(r, id, i)
  {
  }

  lemma OneId(g: Json, a: string, b: string, i: nat)
    requires a != b
    ensures !(First(g, a, i) && First(g, b, i))
  {
  }

  // ---- The derivation ------------------------------------------------------------------------------------------

  /** Reconfiguring four different nodes in turn. */
  lemma ChainNode(g0: Json, g1: Json, g2: Json, g3: Json, g4: Json, f: Json -> Json, listen: Json -> Json, h: Json -> Json, i: nat)
    requires Reconfigured(g0, g1, "source", f) && Reconfigured(g1, g2, "preamble", listen)
    requires Reconfigured(g2, g3, "assembler", listen) && Reconfigured(g3, g4, "channelizer", h)
    requires i < |Nodes(g0)|
    ensures |Nodes(g4)| == |Nodes(g0)|
    ensures !IsConfigured(g0, i) ==> Nodes(g4)[i] == Nodes(g0)[i]
    ensures forall k :: k != "node_config" ==> Look(Nodes(g4)[i], k) == Look(Nodes(g0)[i], k)
    ensures Config(g4, i) == if First(g0, "source", i) then f(Config(g0, i)) else if IsListener(g0, i) then listen(Config(g0, i))
                             else if First(g0, "channelizer", i) then h(Config(g0, i)) else Config(g0, i)
  {
    IdsStay(g0, g1, "source", f);
    IdsStay(g1, g2, "preamble", listen);
    IdsStay(g2, g3, "assembler", listen);
    hide First, Nodes, Get, Look;
    FirstStays(g0, g1, "preamble", i);
    FirstStays(g0, g2, "assembler", i);
    FirstStays(g0, g3, "channelizer", i);
    OneId(g0, "source", "preamble", i);
    OneId(g0, "source", "assembler", i);
    OneId(g0, "source", "channelizer", i);
    OneId(g0, "preamble", "assembler", i);
    OneId(g0, "preamble", "channelizer", i);
    OneId(g0, "assembler", "channelizer", i);
  }

  lemma FedSays(config: Json, input: Json, k: string)
    ensures Look(Fed(config, input), k) == if IsReceiverField(k) && Look(input, k).Some? then Look(input, k) else Look(config, k)
  {
    hide Look, Assigned;
    AssignedLook(config, input, RECEIVER_FIELDS, k);
  }

  lemma ListeningSays(config: Json, preamble: Json, k: string)
    ensures Look(Listening(config, preamble), k)
            == if k == "preamble_pulses" then Some(preamble) else if IsTruth(k) then None else Look(config, k)
  {
    hide Look, EraseAll, Put;
    EraseAllLook(Put(config, "preamble_pulses", preamble), ["active_frequency_indices", "messages", "truth_from_fixture"], k);
    PutLook(config, "preamble_pulses", preamble, k);
  }

  lemma UnbiasedSays(config: Json, k: string)
    ensures Look(Unbiased(config), k) == if IsBias(k) then None else Look(config, k)
  {
    hide Look, EraseAll;
    EraseAllLook(config, ["transmitted_active_frequency_indices", "transmitted_pulse_frequency_indices"], k);
  }

  /** One node under the four reconfigurations. */
  lemma ConfiguredNode(template: Json, input: Json, preamble: Json, i: nat)
    requires i < |Nodes(template)|
    ensures var g := Configured(template, input, preamble);
            && |Nodes(g)| == |Nodes(template)|
            && (!IsConfigured(template, i) ==> Nodes(g)[i] == Nodes(template)[i])
            && (forall k :: k != "node_config" ==> Look(Nodes(g)[i], k) == Look(Nodes(template)[i], k))
            && (First(template, "source", i) ==> Config(g, i) == Fed(Config(template, i), input))
            && (IsListener(template, i) ==> Config(g, i) == Listening(Config(template, i), preamble))
            && (First(template, "channelizer", i) ==> Config(g, i) == Unbiased(Config(template, i)))
  {
    hide WithConfig, Nodes, Get, Look, Fed, Listening, Unbiased, First, Reconfigured;
    var f, listen, h := (c: Json) => Fed(c, input), (c: Json) => Listening(c, preamble), (c: Json) => Unbiased(c);
    var g1 := WithConfig(template, "source", f);
    var g2 := WithConfig(g1, "preamble", listen);
    var g3 := WithConfig(g2, "assembler", listen);
    var g4 := WithConfig(g3, "channelizer", h);
    WithConfigSays(template, "source", f);
    WithConfigSays(g1, "preamble", listen);
    WithConfigSays(g2, "assembler", listen);
    WithConfigSays(g3, "channelizer", h);
    ChainNode(template, g1, g2, g3, g4, f, listen, h, i);
    OneRole(template, i);
  }

  lemma ConfiguredTop(template: Json, input: Json, preamble: Json, k: string)
    requires k != "nodes"
    ensures var g := Configured(template, input, preamble);
            |Nodes(g)| == |Nodes(template)| && Look(g, k) == Look(template, k)
  {
    hide WithConfig, Nodes, Look, Fed, Listening, Unbiased, First;
    var f, listen, h := (c: Json) => Fed(c, input), (c: Json) => Listening(c, preamble), (c: Json) => Unbiased(c);
    var g1 := WithConfig(template, "source", f);
    var g2 := WithConfig(g1, "preamble", listen);
    var g3 := WithConfig(g2, "assembler", listen);
    WithConfigSays(template, "source", f);
    WithConfigSays(g1, "preamble", listen);
    WithConfigSays(g2, "assembler", listen);
    WithConfigSays(g3, "channelizer", h);
  }

  lemma PutTop(g: Json, key: string, value: Json)
    requires key != "nodes"
    ensures Nodes(Put(g, key, value)) == Nodes(g)
    ensures forall k :: Look(Put(g, key, value), k) == if k == key then Some(value) else Look(g, k)
  {
  }

  lemma AnnotatedSays(g: Json, preamble: Json, active: Json, k: string)
    ensures var e := Annotated(g, preamble, active);
            && Nodes(e) == Nodes(g) && Look(e, "active_frequency_indices") == Some(active)
            && Look(e, "preamble_pulses") == Some(preamble)
            && Look(e, "dashboard_derived") == Some(Object(map["active_frequency_indices" := active,
                                                               "preamble_pulses" := preamble, "timing" := Timing()]))
            && (!IsDerived(k) ==> Look(e, k) == Look(g, k))
  {
    hide Put, Nodes, Look;
    var derived := Object(map["active_frequency_indices" := active, "preamble_pulses" := preamble, "timing" := Timing()]);
    var g1 := Put(g, "dashboard_derived", derived);
    var g2 := Put(g1, "active_frequency_indices", active);
    PutTop(g, "dashboard_derived", derived);
    PutTop(g1, "active_frequency_indices", active);
    PutTop(g2, "preamble_pulses", preamble);
  }

  /** The effective graph is the template with the scenario's receiver fields in its source node, the
      preamble in its two listeners, generator truth removed, and the derived values on top. */
  lemma EffectiveGraph(template: Json, scenario: Json)
    ensures EffectiveSays(template, scenario, DeriveEffective(template, scenario))
  {
    hide Preamble, ActiveSet, First, Nodes, Look, Configured, Annotated, IsDerived, NodeSays;
    var preamble, active := Array(Preamble(scenario)), Array(ActiveSet(Preamble(scenario)));
    var g := Configured(template, Get(scenario, "receiver_input"), preamble);
    hide Get;
    forall k ensures k != "nodes" && !IsDerived(k) ==> Look(DeriveEffective(template, scenario), k) == Look(template, k) {
      AnnotatedSays(g, preamble, active, k);
      if k != "nodes" { ConfiguredTop(template, Get(scenario, "receiver_input"), preamble, k); }
    }
    ConfiguredTop(template, Get(scenario, "receiver_input"), preamble, "id");
    AnnotatedSays(g, preamble, active, "id");
    DerivedIsSaid(scenario);
    forall i | 0 <= i < |Nodes(template)| ensures NodeSays(template, scenario, DeriveEffective(template, scenario), i) {
      NodeIsSaid(template, scenario, i);
    }
  }

  lemma DerivedIsSaid(scenario: Json)
    ensures DerivedSays(scenario, Object(map["active_frequency_indices" := Array(ActiveSet(Preamble(scenario))),
                                             "preamble_pulses" := Array(Preamble(scenario)), "timing" := Timing()]))
  {
    hide Preamble, ActiveSet;
  }

  lemma NodeIsSaid(template: Json, scenario: Json, i: nat)
    requires i < |Nodes(template)|
    ensures |Nodes(DeriveEffective(template, scenario))| == |Nodes(template)|
    ensures NodeSays(template, scenario, DeriveEffective(template, scenario), i)
  {
    hide Preamble, ActiveSet, First, Nodes, Look, Configured, Annotated, Fed, Listening, Unbiased, IsTruth, IsBias, IsReceiverField;
    var preamble, active, input := Array(Preamble(scenario)), Array(ActiveSet(Preamble(scenario))), Get(scenario, "receiver_input");
    var g := Configured(template, input, preamble);
    hide Get;
    AnnotatedSays(g, preamble, active, "id");
    ConfiguredNode(template, input, preamble, i);
    OneRole(template, i);
    forall k ensures IsConfigured(template, i) ==> Look(Config(g, i), k) == Effective(template, scenario, i, k) {
      FedSays(Config(template, i), input, k);
      ListeningSays(Config(template, i), preamble, k);
      UnbiasedSays(Config(template, i), k);
    }
  }

  lemma OneRole(g: Json, i: nat)
    ensures First(g, "source", i) ==> !IsListener(g, i) && !First(g, "channelizer", i)
    ensures IsListener(g, i) ==> !First(g, "channelizer", i)
  {
  }

  // ---- The receiver's graph --------------------------------------------------------------------------------------

  /** A value under a key after stripping. */
  function Stripped(key: string, value: Option<Json>): Option<Json> {
    if key in FORBIDDEN || value.None? then None else Some(StripTruth(value.value))
  }

  lemma StripLook(j: Json, k: string)
    ensures Look(StripTruth(j), k) == Stripped(k, Look(j, k))
  {
  }

  lemma StripNodes(g: Json)
    ensures |Nodes(StripTruth(g))| == |Nodes(g)|
    ensures forall i :: 0 <= i < |Nodes(g)| ==> Nodes(StripTruth(g))[i] == StripTruth(Nodes(g)[i])
  {
    StripLook(g, "nodes");
    GetIsLook(g, "nodes");
    GetIsLook(StripTruth(g), "nodes");
    assert "nodes" !in FORBIDDEN;
  }

  lemma StripGet(j: Json, k: string)
    requires k !in FORBIDDEN
    ensures Get(StripTruth(j), k) == StripTruth(Get(j, k))
  {
  }

  /** A text is what it was before, and nothing else becomes one. */
  lemma StripId(j: Json, id: string)
    ensures Get(StripTruth(j), "id") == Text(id) <==> Get(j, "id") == Text(id)
  {
    assert "id" !in FORBIDDEN;
    StripGet(j, "id");
  }

  lemma FirstAfterStrip(g: Json, id: string, i: nat)
    ensures First(StripTruth(g), id, i) <==> First(g, id, i)
  {
    hide Nodes, Get, StripTruth;
    StripNodes(g);
    forall j | 0 <= j < |Nodes(g)| ensures Get(Nodes(StripTruth(g))[j], "id") == Text(id) <==> Get(Nodes(g)[j], "id") == Text(id) {
      StripId(Nodes(g)[j], id);
    }
  }

  lemma EraseTop(g: Json, keys: seq<string>)
    requires "nodes" !in keys
    ensures Nodes(EraseAll(g, keys)) == Nodes(g)
  {
    hide EraseAll;
    EraseAllLook(g, keys, "nodes");
    GetIsLook(g, "nodes");
    GetIsLook(EraseAll(g, keys), "nodes");
  }

  function Bare(e: Json): Json { EraseAll(e, ["dashboard_derived", "active_frequency_indices", "preamble_pulses"]) }

  function Quiet(config: Json): Json { Policy.Erase(config, "active_frequency_indices") }

  lemma BareSays(e: Json, k: string)
    ensures Nodes(Bare(e)) == Nodes(e) && Look(Bare(e), k) == if IsDerived(k) then None else Look(e, k)
  {
    hide EraseAll, Look, Nodes;
    EraseTop(e, ["dashboard_derived", "active_frequency_indices", "preamble_pulses"]);
    EraseAllLook(e, ["dashboard_derived", "active_frequency_indices", "preamble_pulses"], k);
  }

  lemma QuietSays(config: Json, k: string)
    ensures Look(Quiet(config), k) == if k == "active_frequency_indices" then None else Look(config, k)
  {
  }

  /** What becomes of one node of an effective graph. */
  lemma MinimalNode(e: Json, i: nat)
    requires i < |Nodes(e)|
    ensures var r := ReceiverMinimalGraph(e);
            && |Nodes(r)| == |Nodes(e)|
            && (!IsListener(e, i) ==> Nodes(r)[i] == StripTruth(Nodes(e)[i]))
            && (forall k :: k != "node_config" ==> Look(Nodes(r)[i], k) == Stripped(k, Look(Nodes(e)[i], k)))
            && (IsListener(e, i) ==> Config(r, i) == Quiet(StripTruth(Config(e, i))))
  {
    hide WithConfig, Nodes, Get, Look, First, Stripped, EraseAll, Policy.Erase, StripTruth;
    var quiet := (c: Json) => Policy.Erase(c, "active_frequency_indices");
    var g := StripTruth(Bare(e));
    var g1 := WithConfig(g, "preamble", quiet);
    WithConfigSays(g, "preamble", quiet);
    WithConfigSays(g1, "assembler", quiet);
    IdsStay(g, g1, "preamble", quiet);
    FirstStays(g, g1, "assembler", i);
    BareSays(e, "id");
    StripNodes(Bare(e));
    SameFirst(e, Bare(e), "preamble", i);
    SameFirst(e, Bare(e), "assembler", i);
    FirstAfterStrip(Bare(e), "preamble", i);
    FirstAfterStrip(Bare(e), "assembler", i);
    OneId(e, "preamble", "assembler", i);
    forall k ensures Look(StripTruth(Nodes(e)[i]), k) == Stripped(k, Look(Nodes(e)[i], k)) { StripLook(Nodes(e)[i], k); }
    assert Get(StripTruth(Nodes(e)[i]), "node_config") == StripTruth(Get(Nodes(e)[i], "node_config")) by {
      StripConfig(Nodes(e)[i]);
    }
  }

  lemma StripConfig(node: Json)
    ensures Get(StripTruth(node), "node_config") == StripTruth(Get(node, "node_config"))
  {
    assert "node_config" !in FORBIDDEN;
    StripGet(node, "node_config");
  }

  lemma SameFirst(g: Json, r: Json, id: string, i: nat)
    requires Nodes(g) == Nodes(r)
    ensures First(g, id, i) <==> First(r, id, i)
  {
  }

  lemma MinimalTop(e: Json, k: string)
    requires k != "nodes"
    ensures |Nodes(ReceiverMinimalGraph(e))| == |Nodes(e)|
    ensures Look(ReceiverMinimalGraph(e), k) == if IsDerived(k) then None else Stripped(k, Look(e, k))
  {
    hide WithConfig, Nodes, Look, First, EraseAll, StripTruth, Policy.Erase;
    var quiet := (c: Json) => Policy.Erase(c, "active_frequency_indices");
    var g := StripTruth(Bare(e));
    WithConfigSays(g, "preamble", quiet);
    WithConfigSays(WithConfig(g, "preamble", quiet), "assembler", quiet);
    StripNodes(Bare(e));
    BareSays(e, k);
    StripLook(Bare(e), k);
  }

  /** The value of a configuration key of node `i` that the receiver gets to see. */
  ghost function Received(template: Json, scenario: Json, i: nat, key: string): Option<Json>
    requires i < |Nodes(template)|
  {
    var given := Look(Get(scenario, "receiver_input"), key);
    if First(template, "source", i) && IsReceiverField(key) && given.Some? then Some(StripTruth(given.value))
    else if IsListener(template, i) && key == "preamble_pulses" then Some(Array(Preamble(scenario)))
    else if IsListener(template, i) && key == "active_frequency_indices" then None
    else Stripped(key, Look(Config(template, i), key))
  }

  ghost predicate ReceiverNodeSays(template: Json, scenario: Json, r: Json, i: nat)
    requires i < |Nodes(template)| && |Nodes(r)| == |Nodes(template)|
  {
    if IsConfigured(template, i) then
      && (forall k :: k != "node_config" ==> Look(Nodes(r)[i], k) == Stripped(k, Look(Nodes(template)[i], k)))
      && forall k :: Look(Config(r, i), k) == Received(template, scenario, i, k)
    else Nodes(r)[i] == StripTruth(Nodes(template)[i])
  }

  lemma {:induction false} PreambleIsClean(scenario: Json)
    ensures StripTruth(Array(Preamble(scenario))) == Array(Preamble(scenario))
  {
    forall p <- Preamble(scenario) ensures Clean(p) {}
    StripKeepsClean(Array(Preamble(scenario)));
  }

  lemma FieldsPass(k: string)
    ensures IsReceiverField(k) || k == "preamble_pulses" || k == "active_frequency_indices" ==> k !in FORBIDDEN
    ensures IsBias(k) || (IsTruth(k) && k != "active_frequency_indices") ==> k in FORBIDDEN
    ensures IsReceiverField(k) ==> k != "preamble_pulses" && k != "active_frequency_indices"
  {
  }

  /** The receiver's graph is the stripped template with the scenario's five receiver fields in its
      source node and the preamble in its listeners; nothing else of the scenario reaches it. */
  lemma ReceiverGraph(template: Json, scenario: Json)
    ensures var r := ReceiverMinimalGraph(DeriveEffective(template, scenario));
            && |Nodes(r)| == |Nodes(template)|
            && (forall k :: k != "nodes" ==> Look(r, k) == if IsDerived(k) then None else Stripped(k, Look(template, k)))
            && (forall i :: 0 <= i < |Nodes(template)| ==> ReceiverNodeSays(template, scenario, r, i))
  {
    hide DeriveEffective, ReceiverMinimalGraph, NodeSays, DerivedSays, ReceiverNodeSays, Stripped, Look, Nodes, IsDerived;
    var e := DeriveEffective(template, scenario);
    EffectiveGraph(template, scenario);
    forall k | k != "nodes"
      ensures Look(ReceiverMinimalGraph(e), k) == if IsDerived(k) then None else Stripped(k, Look(template, k))
    {
      MinimalTop(e, k);
    }
    MinimalTop(e, "id");
    forall i | 0 <= i < |Nodes(template)| ensures ReceiverNodeSays(template, scenario, ReceiverMinimalGraph(e), i) {
      ReceiverNode(template, scenario, e, i);
    }
  }

  lemma ReceiverNode(template: Json, scenario: Json, e: Json, i: nat)
    requires i < |Nodes(template)| && EffectiveSays(template, scenario, e)
    ensures |Nodes(ReceiverMinimalGraph(e))| == |Nodes(template)|
    ensures ReceiverNodeSays(template, scenario, ReceiverMinimalGraph(e), i)
  {
    hide ReceiverMinimalGraph, Stripped, Look, Nodes, Get, StripTruth, First, Effective, Received, DerivedSays, Quiet, IsDerived, Preamble, ActiveSet;
    var r := ReceiverMinimalGraph(e);
    MinimalNode(e, i);
    assert NodeSays(template, scenario, e, i);
    ListenersStay(template, scenario, e, i);
    if IsConfigured(template, i) {
      forall k ensures Look(Config(r, i), k) == Received(template, scenario, i, k) {
        StripLook(Config(e, i), k);
        QuietSays(StripTruth(Config(e, i)), k);
        StripConfig(Nodes(e)[i]);
        ReceivedIsStripped(template, scenario, i, k);
      }
    }
  }

  /** The receiver's value of a key is the stripped effective value. */
  lemma ReceivedIsStripped(template: Json, scenario: Json, i: nat, k: string)
    requires i < |Nodes(template)| && IsConfigured(template, i)
    ensures var v := Stripped(k, Effective(template, scenario, i, k));
            Received(template, scenario, i, k) == if IsListener(template, i) && k == "active_frequency_indices" then None else v
  {
    hide Look, Nodes, Get, StripTruth, First, Preamble, IsReceiverField, IsTruth, IsBias;
    FieldsPass(k);
    PreambleIsClean(scenario);
    OneRole(template, i);
  }

  lemma ListenersStay(template: Json, scenario: Json, e: Json, i: nat)
    requires i < |Nodes(template)| && EffectiveSays(template, scenario, e)
    ensures IsListener(e, i) <==> IsListener(template, i)
  {
    hide Look, Nodes, First, Effective, Get, DerivedSays;
    forall j | 0 <= j < |Nodes(template)| ensures Get(Nodes(e)[j], "id") == Get(Nodes(template)[j], "id") {
      assert NodeSays(template, scenario, e, j);
      assert Look(Nodes(e)[j], "id") == Look(Nodes(template)[j], "id");
      GetIsLook(Nodes(e)[j], "id");
      GetIsLook(Nodes(template)[j], "id");
    }
    FirstStays(template, e, "preamble", i);
    FirstStays(template, e, "assembler", i);
  }

  // ---- No truth anywhere -------------------------------------------------------------------------------------------

  predicate IsTruthKey(k: string) {
    || k == "messages" || k == "truth_from_fixture" || k == "truth_path" || k == "truth_file" || k == "generator_metadata"
    || k == "transmitted_active_frequency_indices" || k == "transmitted_pulse_frequency_indices"
  }

  lemma TruthKeysAreForbidden(k: string)
    ensures IsTruthKey(k) <==> k in FORBIDDEN
  {
  }

  lemma {:induction false} CleanAt(j: Json, path: seq<Step>, i: nat)
    requires Clean(j) && i < |path| && path[i].Key? && path[i].key in FORBIDDEN
    ensures At(j, path).None?
    decreases path
  {
    if i > 0 {
      match path[0]
      case Key(k) => if j.Object? && k in j.fields { CleanAt(j.fields[k], path[1..], i - 1); }
      case Index(x) => if j.Array? && x < |j.items| { CleanAt(j.items[x], path[1..], i - 1); }
    }
  }

  /** Whatever the receiver's graph was made from, no path in it passes a key of generator truth. */
  lemma NoTruthAtAnyPath(effective: Json, path: seq<Step>, i: nat)
    requires i < |path| && path[i].Key? && IsTruthKey(path[i].key)
    ensures At(ReceiverMinimalGraph(effective), path).None?
  {
    hide ReceiverMinimalGraph, Clean, At;
    ReceiverGraphIsClean(effective);
    TruthKeysAreForbidden(path[i].key);
    CleanAt(ReceiverMinimalGraph(effective), path, i);
  }
}
