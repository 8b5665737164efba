/** `ConfigGenerator.generateAgentConfig`: a per-role agent configuration
    and a coordination plan derived from a workflow document. */
module Config {
  import opened Wrappers
  import opened Json
  import opened Validation

  datatype Priority = High | Medium

  /** `{ role, priority }` of one agent. */
  datatype AgentSpec = AgentSpec(role: string, priority: Priority)

  /** `{ timing, type, participants }` of one sync point. */
  datatype SyncPoint = SyncPoint(timing: Json, kind: string, participants: seq<string>)

  datatype Coordination = Coordination(mode: string, syncPoints: seq<SyncPoint>, communication: string)

  datatype Execution = Execution(timeout: int, retryCount: int, checkpointFrequency: string)

  /** The generated configuration; `agents` keeps the order of its keys. */
  datatype AgentConfig = AgentConfig(agents: seq<(string, AgentSpec)>, coordination: Coordination, execution: Execution)

  const BaseCoordination := Coordination("parallel", [], "shared_context")
  const BaseExecution := Execution(3600, 3, "daily")

  /** `workflow.metadata?.focus_area` (for a workflow other than `null`). */
  function FocusArea(w: Json): Option<Json> {
    var metadata := Get(w, "metadata");
    if metadata.Some? then Get(metadata.value, "focus_area") else None
  }

  /** `workflow.sections?.rapid_iteration_checkpoints` (for a workflow other
      than `null`). */
  function IterationCheckpoints(w: Json): Option<Json> {
    var sections := Get(w, "sections");
    if sections.Some? then Get(sections.value, "rapid_iteration_checkpoints") else None
  }

  /** The agents the `switch (focusArea)` assigns; strict equality, so only
      the three strings select a table. */
  function Roles(focusArea: Option<Json>): seq<(string, AgentSpec)> {
    if focusArea == Some(JStr("technical")) then
      [("architect", AgentSpec("system_design", High)),
       ("developer", AgentSpec("implementation", High)),
       ("tester", AgentSpec("quality_assurance", Medium)),
       ("devops", AgentSpec("deployment", Medium))]
    else if focusArea == Some(JStr("product")) then
      [("product_manager", AgentSpec("requirements", High)),
       ("designer", AgentSpec("user_experience", High)),
       ("researcher", AgentSpec("user_research", Medium)),
       ("analyst", AgentSpec("metrics", Medium))]
    else if focusArea == Some(JStr("research")) then
      [("researcher", AgentSpec("investigation", High)),
       ("analyst", AgentSpec("data_analysis", High)),
       ("reviewer", AgentSpec("peer_review", Medium)),
       ("writer", AgentSpec("documentation", Medium))]
    else []
  }

  /** `Object.keys(agents)` */
  function AgentNames(agents: seq<(string, AgentSpec)>): (names: seq<string>)
    ensures |names| == |agents|
    ensures forall i :: 0 <= i < |agents| ==> names[i] == agents[i].0
  {
    if agents == [] then [] else [agents[0].0] + AgentNames(agents[1..])
  }

  /** `generateAgentConfig(workflow)`: start from the base configuration,
      assign the agents of the focus area, then one review sync point per
      rapid-iteration checkpoint. Reading `metadata` of `null` throws, and
      so does calling `.map` on a truthy value that is not an array. */
  method GenerateAgentConfig(w: Json) returns (r: Result<AgentConfig, string>)
    ensures r.Failure? <==>
      w.JNull? || (Present(IterationCheckpoints(w)) && !IterationCheckpoints(w).value.JArr?)
    ensures r.Failure? ==> r.error == TypeError
    ensures r.Success? ==>
      && r.value.coordination.mode == "parallel"
      && r.value.coordination.communication == "shared_context"
      && r.value.execution == Execution(3600, 3, "daily")
      && r.value.agents == Roles(FocusArea(w))
    ensures r.Success? && !Present(IterationCheckpoints(w)) ==> r.value.coordination.syncPoints == []
    ensures r.Success? && Present(IterationCheckpoints(w)) ==>
      var items := IterationCheckpoints(w).value.items;
      && |r.value.coordination.syncPoints| == |items|
      && forall i :: 0 <= i < |items| ==>
           r.value.coordination.syncPoints[i] == SyncPoint(items[i], "review", AgentNames(r.value.agents))
  {
    if w.JNull? {
      return Failure(TypeError);
    }
    var config := AgentConfig([], BaseCoordination, BaseExecution);

    var focusArea := FocusArea(w);
    if focusArea == Some(JStr("technical")) || focusArea == Some(JStr("product")) ||
       focusArea == Some(JStr("research")) {
      config := config.(agents := Roles(focusArea));
    }

    var checkpoints := IterationCheckpoints(w);
    if Present(checkpoints) {
      if !checkpoints.value.JArr? {
        return Failure(TypeError);
      }
      var items := checkpoints.value.items;
      var participants := AgentNames(config.agents);
      var syncPoints := seq(|items|, i requires 0 <= i < |items| => SyncPoint(items[i], "review", participants));
      config := config.(coordination := config.coordination.(syncPoints := syncPoints));
    }
    r := Success(config);
  }

  /** The three known focus areas get four agents each, every other value
      (or none) gets no agent; the four names are distinct. */
  lemma RolesByFocusArea(focusArea: Option<Json>)
    ensures var roles := Roles(focusArea);
      && (|roles| == 4 <==> focusArea in {Some(JStr("technical")), Some(JStr("product")), Some(JStr("research"))})
      && (|roles| == 0 <==> focusArea !in {Some(JStr("technical")), Some(JStr("product")), Some(JStr("research"))})
      && (forall i, j :: 0 <= i < j < |roles| ==> roles[i].0 != roles[j].0)
      && (forall i :: 0 <= i < |roles| ==> (roles[i].1.priority == High <==> i < 2))
  {
  }
}
