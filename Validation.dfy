/** `WorkflowValidator`: the fixed structural checks on a workflow document,
    reported as error and warning lists, and the check that the day numbers
    embedded in a list of checkpoints strictly increase. */
module Validation {
  import opened Wrappers
  import opened Text
  import opened Json

  /** The result of `validateWorkflow`. */
  datatype Report = Report(valid: bool, errors: seq<string>, warnings: seq<string>)

  /** The exception JavaScript raises when a property of `null` is read or
      a method is called on a value that does not have it. */
  const TypeError := "TypeError"

  const RequiredSections: seq<string> := ["metadata", "sections"]
  const RequiredMetadata: seq<string> := ["template_name", "focus_area"]

  function MissingSection(key: string): string {
    "Missing required section: " + key
  }

  function MissingField(field: string): string {
    "Missing metadata field: " + field
  }

  function PhaseFieldWarning(name: string, field: string): string {
    "Phase " + name + " missing " + field + " array"
  }

  /** One message per key of `keys` whose property in `obj` is falsy or
      absent, in the order of `keys`. */
  function Missing(obj: Json, keys: seq<string>, message: string -> string): (r: seq<string>)
    ensures |r| <= |keys|
    ensures forall m :: m in r ==> exists k :: k in keys && !Present(Get(obj, k)) && m == message(k)
    ensures ReportsEveryMissing(obj, keys, message, r)
  {
    if keys == [] then []
    else
      var last := keys[|keys| - 1];
      Missing(obj, keys[..|keys| - 1], message) + (if Present(Get(obj, last)) then [] else [message(last)])
  }

  /** Every key whose property in `obj` is falsy or absent has its
      message among `messages`. */
  predicate ReportsEveryMissing(obj: Json, keys: seq<string>, message: string -> string, messages: seq<string>) {
    forall k :: k in keys && !Present(Get(obj, k)) ==> message(k) in messages
  }

  /** The messages of each item, in order, or `None` as soon as one item
      throws. */
  function Collect<T>(xs: seq<T>, f: T -> Option<seq<string>>): Option<seq<string>>
  {
    if xs == [] then Some([])
    else
      match Collect(xs[..|xs| - 1], f)
      case None => None
      case Some(p) =>
        match f(xs[|xs| - 1])
        case None => None
        case Some(q) => Some(p + q)
  }

  /** A key of `sections` that holds phases: `key.includes('phases') || key.includes('phase')`. */
  predicate IsPhaseKey(key: string) {
    Contains(key, "phases") || Contains(key, "phase")
  }

  /** `phase[field]` is an array (`!x || !Array.isArray(x)` fails). */
  predicate HasArray(phase: Json, field: string) {
    Get(phase, field).Some? && Get(phase, field).value.JArr?
  }

  /** The warnings for one `[phaseName, phase]` entry; reading a property
      of a `null` phase throws. */
  function PhaseWarnings(entry: (string, Json)): Option<seq<string>> {
    if entry.1.JNull? then None
    else Some(
      (if HasArray(entry.1, "deliverables") then [] else [PhaseFieldWarning(entry.0, "deliverables")]) +
      (if HasArray(entry.1, "success_criteria") then [] else [PhaseFieldWarning(entry.0, "success_criteria")]))
  }

  /** The warnings for the value under a phase key: `typeof phases ===
      'object'` holds for `null` (where `Object.entries` throws), arrays and
      objects; other values are skipped. */
  function ContainerWarnings(phases: Json): Option<seq<string>> {
    match phases
    case JNull => None
    case JArr(_) => Collect(Entries(phases), PhaseWarnings)
    case JObj(_) => Collect(Entries(phases), PhaseWarnings)
    case _ => Some([])
  }

  /** The warnings for one entry of `sections`. */
  function SectionWarnings(entry: (string, Json)): Option<seq<string>> {
    if IsPhaseKey(entry.0) then ContainerWarnings(entry.1) else Some([])
  }

  /** What `validateWorkflow(workflow)` returns or throws. */
  function Validate(w: Json): (r: Result<Report, string>)
    ensures r.Failure? ==> r.error == TypeError
    ensures r.Success? ==> r.value.valid == (r.value.errors == [])
  {
    if w.JNull? then Failure(TypeError)
    else
      var errors := Missing(w, RequiredSections, MissingSection);
      var metadata := Get(w, "metadata");
      var fieldWarnings := if Present(metadata) then Missing(metadata.value, RequiredMetadata, MissingField) else [];
      var sections := Get(w, "sections");
      var phaseWarnings := if Present(sections) then Collect(Entries(sections.value), SectionWarnings) else Some([]);
      match phaseWarnings
      case None => Failure(TypeError)
      case Some(p) => Success(Report(errors == [], errors, fieldWarnings + p))
  }

  /** `validateWorkflow(workflow)`: loops that push onto `errors` and
      `warnings`; an exception in the phase loops escapes. */
  method ValidateWorkflow(w: Json) returns (r: Result<Report, string>)
    ensures r == Validate(w)
  {
    if w.JNull? {
      return Failure(TypeError);
    }
    var errors := CheckPresent(w, RequiredSections, MissingSection);
    var warnings: seq<string> := [];
    var metadata := Get(w, "metadata");
    if Present(metadata) {
      warnings := CheckPresent(metadata.value, RequiredMetadata, MissingField);
    }
    var sections := Get(w, "sections");
    if Present(sections) {
      var phaseWarnings := CheckSections(Entries(sections.value));
      if phaseWarnings.None? {
        return Failure(TypeError);
      }
      warnings := warnings + phaseWarnings.value;
    } else {
      assert warnings == warnings + [];
    }
    r := Success(Report(errors == [], errors, warnings));
  }

  /** `for (const key of keys) if (!obj[key]) messages.push(message(key))` */
  method CheckPresent(obj: Json, keys: seq<string>, message: string -> string) returns (messages: seq<string>)
    ensures messages == Missing(obj, keys, message)
  {
    messages := [];
    for k := 0 to |keys|
      invariant messages == Missing(obj, keys[..k], message)
    {
      assert keys[..k + 1][..k] == keys[..k];
      if !Present(Get(obj, keys[k])) {
        messages := messages + [message(keys[k])];
      }
    }
    assert keys[..|keys|] == keys;
  }

  /** The loop over the phase keys of `sections`; `None` when reading a
      phase container or a phase throws. */
  method CheckSections(keys: seq<(string, Json)>) returns (warnings: Option<seq<string>>)
    ensures warnings == Collect(keys, SectionWarnings)
  {
    var found: seq<string> := [];
    for i := 0 to |keys|
      invariant Collect(keys[..i], SectionWarnings) == Some(found)
    {
      assert keys[..i + 1][..i] == keys[..i];
      if IsPhaseKey(keys[i].0) {
        var phases := keys[i].1;
        if phases.JNull? {
          CollectThrows(keys, SectionWarnings, i);
          return None;
        }
        if phases.JArr? || phases.JObj? {
          var more := CheckPhases(Entries(phases));
          if more.None? {
            CollectThrows(keys, SectionWarnings, i);
            return None;
          }
          found := found + more.value;
        } else {
          assert found == found + [];
        }
      } else {
        assert found == found + [];
      }
    }
    assert keys[..|keys|] == keys;
    warnings := Some(found);
  }

  /** `for (const [phaseName, phase] of Object.entries(phases))`; `None` when
      a phase is `null`. */
  method CheckPhases(entries: seq<(string, Json)>) returns (warnings: Option<seq<string>>)
    ensures warnings == Collect(entries, PhaseWarnings)
  {
    var found: seq<string> := [];
    for j := 0 to |entries|
      invariant Collect(entries[..j], PhaseWarnings) == Some(found)
    {
      assert entries[..j + 1][..j] == entries[..j];
      var (name, phase) := entries[j];
      if phase.JNull? {
        CollectThrows(entries, PhaseWarnings, j);
        return None;
      }
      ghost var before := found;
      if !HasArray(phase, "deliverables") {
        found := found + [PhaseFieldWarning(name, "deliverables")];
      }
      if !HasArray(phase, "success_criteria") {
        found := found + [PhaseFieldWarning(name, "success_criteria")];
      }
      assert found == before + PhaseWarnings(entries[j]).value;
    }
    assert entries[..|entries|] == entries;
    warnings := Some(found);
  }

  /** Once an item throws, the whole collection throws. */
  lemma {:induction false} CollectThrows<T>(xs: seq<T>, f: T -> Option<seq<string>>, i: nat)
    requires i < |xs| && f(xs[i]).None?
    ensures Collect(xs[..i + 1], f).None? && Collect(xs, f).None?
    decreases |xs|
  {
    assert xs[..i + 1][..i] == xs[..i];
    if i + 1 < |xs| {
      CollectThrows(xs[..|xs| - 1], f, i);
      assert xs[..|xs| - 1][..i + 1] == xs[..i + 1];
    } else {
      assert xs[..i + 1] == xs;
    }
  }

  /** The collection succeeds exactly when no item throws. */
  lemma {:induction false} CollectSome<T>(xs: seq<T>, f: T -> Option<seq<string>>)
    ensures Collect(xs, f).Some? <==> forall i :: 0 <= i < |xs| ==> f(xs[i]).Some?
    decreases |xs|
  {
    if xs != [] {
      var init := xs[..|xs| - 1];
      CollectSome(init, f);
      assert forall i :: 0 <= i < |init| ==> init[i] == xs[i];
    }
  }

  /** Every message of every item is among the collected messages. */
  lemma {:induction false} CollectContains<T>(xs: seq<T>, f: T -> Option<seq<string>>, i: nat, m: string)
    requires Collect(xs, f).Some? && i < |xs|
    requires f(xs[i]).Some? && m in f(xs[i]).value
    ensures m in Collect(xs, f).value
    decreases |xs|
  {
    if i < |xs| - 1 {
      var init := xs[..|xs| - 1];
      assert init[i] == xs[i];
      CollectContains(init, f, i, m);
    }
  }

  /** Every collected message is a message of some item. */
  lemma {:induction false} CollectMember<T>(xs: seq<T>, f: T -> Option<seq<string>>, m: string)
    requires Collect(xs, f).Some? && m in Collect(xs, f).value
    ensures exists i :: 0 <= i < |xs| && f(xs[i]).Some? && m in f(xs[i]).value
    decreases |xs|
  {
    var init := xs[..|xs| - 1];
    if m in Collect(init, f).value {
      CollectMember(init, f, m);
      var i :| 0 <= i < |init| && f(init[i]).Some? && m in f(init[i]).value;
      assert init[i] == xs[i];
    } else {
      assert m in f(xs[|xs| - 1]).value;
    }
  }

  /** The messages for two keys, spelled out. */
  lemma MissingPair(obj: Json, a: string, b: string, message: string -> string)
    ensures Missing(obj, [a, b], message) ==
      (if Present(Get(obj, a)) then [] else [message(a)]) +
      (if Present(Get(obj, b)) then [] else [message(b)])
  {
    assert [a, b][..1] == [a];
    assert [a][..0] == [];
  }

  /** The errors are exactly one `Missing required section` per missing
      section, metadata first. */
  lemma ValidateErrors(w: Json)
    requires Validate(w).Success?
    ensures Validate(w).value.errors ==
      (if Present(Get(w, "metadata")) then [] else [MissingSection("metadata")]) +
      (if Present(Get(w, "sections")) then [] else [MissingSection("sections")])
  {
    MissingPair(w, "metadata", "sections", MissingSection);
  }

  /** Warnings never decide validity: the document is valid exactly when
      both required sections are present (truthy). */
  lemma ValidIffSectionsPresent(w: Json)
    requires Validate(w).Success?
    ensures Validate(w).value.valid <==> Present(Get(w, "metadata")) && Present(Get(w, "sections"))
  {
    ValidateErrors(w);
  }

  /** A phase container that can be read without an exception. */
  predicate ReadablePhases(phases: Json) {
    && !phases.JNull?
    && ((phases.JArr? || phases.JObj?) ==>
          forall j :: 0 <= j < |Entries(phases)| ==> !Entries(phases)[j].1.JNull?)
  }

  /** Validation throws exactly when the document is `null`, or a phase key
      of its sections holds `null` or a container with a `null` phase. */
  lemma ValidateThrows(w: Json)
    ensures Validate(w).Success? <==>
      && !w.JNull?
      && (Present(Get(w, "sections")) ==>
            var keys := Entries(Get(w, "sections").value);
            forall i :: 0 <= i < |keys| && IsPhaseKey(keys[i].0) ==> ReadablePhases(keys[i].1))
  {
    var sections := Get(w, "sections");
    if !w.JNull? && Present(sections) {
      var keys := Entries(sections.value);
      CollectSome(keys, SectionWarnings);
      forall i | 0 <= i < |keys|
        ensures SectionWarnings(keys[i]).Some? <==> (IsPhaseKey(keys[i].0) ==> ReadablePhases(keys[i].1))
      {
        var phases := keys[i].1;
        if phases.JArr? || phases.JObj? {
          CollectSome(Entries(phases), PhaseWarnings);
        }
      }
    }
  }

  /** A `Missing metadata field` warning is given for a field exactly when
      the metadata section is present and lacks that required field: absent
      metadata gives only the error, never field warnings. */
  lemma MetadataFieldWarning(w: Json, field: string)
    requires Validate(w).Success?
    ensures MissingField(field) in Validate(w).value.warnings <==>
      && Present(Get(w, "metadata"))
      && field in RequiredMetadata
      && !Present(Get(Get(w, "metadata").value, field))
  {
    var m := MissingField(field);
    var metadata := Get(w, "metadata");
    var sections := Get(w, "sections");
    if Present(sections) {
      var keys := Entries(sections.value);
      if m in Collect(keys, SectionWarnings).value {
        PhaseWarningShape(keys, m);
        assert false;
      }
    }
    if Present(metadata) {
      var fieldWarnings := Missing(metadata.value, RequiredMetadata, MissingField);
      if m in fieldWarnings {
        var k :| k in RequiredMetadata && !Present(Get(metadata.value, k)) && m == MissingField(k);
        assert k == field by {
          assert k == m[|"Missing metadata field: "|..];
        }
      }
      MissingPair(metadata.value, "template_name", "focus_area", MissingField);
    }
  }

  /** Every warning coming from the phase loops starts with `Phase `. */
  lemma PhaseWarningShape(keys: seq<(string, Json)>, m: string)
    requires Collect(keys, SectionWarnings).Some? && m in Collect(keys, SectionWarnings).value
    ensures |m| > 0 && m[0] == 'P'
  {
    CollectMember(keys, SectionWarnings, m);
    var i :| 0 <= i < |keys| && SectionWarnings(keys[i]).Some? && m in SectionWarnings(keys[i]).value;
    var phases := keys[i].1;
    assert phases.JArr? || phases.JObj?;
    var entries := Entries(phases);
    CollectMember(entries, PhaseWarnings, m);
    var j :| 0 <= j < |entries| && PhaseWarnings(entries[j]).Some? && m in PhaseWarnings(entries[j]).value;
    PhaseWarningsShape(entries[j], m);
  }

  /** The warnings of one phase name that phase. */
  lemma PhaseWarningsShape(entry: (string, Json), m: string)
    requires PhaseWarnings(entry).Some? && m in PhaseWarnings(entry).value
    ensures |m| > 0 && m[0] == 'P'
  {
    assert m == PhaseFieldWarning(entry.0, "deliverables") || m == PhaseFieldWarning(entry.0, "success_criteria");
  }

  /** Each phase, under a phase key of `sections`, whose `deliverables` or
      `success_criteria` is not an array gets that phase's warning. */
  lemma PhaseWarningReported(w: Json, i: nat, j: nat, field: string)
    requires Validate(w).Success? && Present(Get(w, "sections"))
    requires i < |Entries(Get(w, "sections").value)|
    requires
      var (key, phases) := Entries(Get(w, "sections").value)[i];
      && IsPhaseKey(key)
      && (phases.JArr? || phases.JObj?)
      && j < |Entries(phases)|
      && !HasArray(Entries(phases)[j].1, field)
    requires field in ["deliverables", "success_criteria"]
    ensures
      var phases := Entries(Get(w, "sections").value)[i].1;
      PhaseFieldWarning(Entries(phases)[j].0, field) in Validate(w).value.warnings
  {
    var keys := Entries(Get(w, "sections").value);
    var phases := keys[i].1;
    var entries := Entries(phases);
    var m := PhaseFieldWarning(entries[j].0, field);
    CollectSome(keys, SectionWarnings);
    CollectSome(entries, PhaseWarnings);
    CollectContains(entries, PhaseWarnings, j, m);
    CollectContains(keys, SectionWarnings, i, m);
  }

  /** Entry `j` of the container under entry `i` of `sections` is a phase
      named `name`, under a phase key, whose `field` is not an array. */
  predicate PhaseLacks(sections: Json, i: nat, j: nat, name: string, field: string) {
    && i < |Entries(sections)|
    && IsPhaseKey(Entries(sections)[i].0)
    && var phases := Entries(sections)[i].1;
    && (phases.JArr? || phases.JObj?)
    && j < |Entries(phases)|
    && Entries(phases)[j].0 == name
    && !HasArray(Entries(phases)[j].1, field)
  }

  /** A phase warning names its phase and its field. */
  lemma PhaseFieldWarningInjective(n1: string, f1: string, n2: string, f2: string)
    requires f1 in ["deliverables", "success_criteria"] && f2 in ["deliverables", "success_criteria"]
    requires PhaseFieldWarning(n1, f1) == PhaseFieldWarning(n2, f2)
    ensures n1 == n2 && f1 == f2
  {
    var m := PhaseFieldWarning(n1, f1);
    assert m[|m| - 7] == f1[|f1| - 1];
    assert m[|m| - 7] == f2[|f2| - 1];
    assert "deliverables"[11] != "success_criteria"[15];
    assert f1 == f2;
    assert n1 == m[6..6 + |n1|];
    assert n2 == m[6..6 + |n2|];
  }

  /** Conversely, every phase warning in the report comes from a phase,
      under a phase key of `sections`, whose `field` is not an array. */
  lemma PhaseWarningOrigin(w: Json, name: string, field: string)
    requires Validate(w).Success?
    requires field in ["deliverables", "success_criteria"]
    requires PhaseFieldWarning(name, field) in Validate(w).value.warnings
    ensures Present(Get(w, "sections"))
    ensures exists i: nat, j: nat :: PhaseLacks(Get(w, "sections").value, i, j, name, field)
  {
    var m := PhaseFieldWarning(name, field);
    assert m[0] == 'P';
    var metadata := Get(w, "metadata");
    var sections := Get(w, "sections");
    var fieldWarnings := if Present(metadata) then Missing(metadata.value, RequiredMetadata, MissingField) else [];
    if m in fieldWarnings {
      assert false;
    }
    assert Present(sections);
    var keys := Entries(sections.value);
    var warnings := Collect(keys, SectionWarnings).value;
    assert m in warnings;
    CollectMember(keys, SectionWarnings, m);
    var i :| 0 <= i < |keys| && SectionWarnings(keys[i]).Some? && m in SectionWarnings(keys[i]).value;
    var phases := keys[i].1;
    assert IsPhaseKey(keys[i].0) && (phases.JArr? || phases.JObj?);
    var entries := Entries(phases);
    CollectMember(entries, PhaseWarnings, m);
    var j :| 0 <= j < |entries| && PhaseWarnings(entries[j]).Some? && m in PhaseWarnings(entries[j]).value;
    if m == PhaseFieldWarning(entries[j].0, "deliverables") && !HasArray(entries[j].1, "deliverables") {
      PhaseFieldWarningInjective(name, field, entries[j].0, "deliverables");
    } else {
      assert m == PhaseFieldWarning(entries[j].0, "success_criteria") && !HasArray(entries[j].1, "success_criteria");
      PhaseFieldWarningInjective(name, field, entries[j].0, "success_criteria");
    }
    assert PhaseLacks(sections.value, i, j, name, field);
  }

  /** Keys are picked by the substring `phase`; the `phases` test adds
      nothing. */
  lemma PhaseKeyMeansPhase(key: string)
    ensures IsPhaseKey(key) <==> Contains(key, "phase")
  {
    if Contains(key, "phases") {
      assert "phases" == "phase" + "s";
      ContainsExtended(key, "phase", "s");
    }
  }

  /** The number captured by the first match of `/<tag>(\d+)/` in `s` (the
      tag carries its trailing space), as `parseInt` reads it. */
  function FirstTagged(s: string, tag: string): Option<nat>
    decreases |s|
  {
    if StartsWith(s, tag) && |tag| < |s| && IsDigit(s[|tag|]) then
      Some(LeadingNumber(s[|tag|..]))
    else if s == [] then None
    else FirstTagged(s[1..], tag)
  }

  /** The number spelled by the whole run of digits that starts `t`. */
  function LeadingNumber(t: string): nat {
    DigitRunSpec(t);
    ParseDigits(t[..DigitRun(t)])
  }

  /** `tag` occurs at position `p` of `s`, directly followed by a digit. */
  predicate TagAt(s: string, tag: string, p: nat) {
    p + |tag| < |s| && s[p..p + |tag|] == tag && IsDigit(s[p + |tag|])
  }

  lemma TagShift(s: string, tag: string, p: nat)
    requires 1 <= p < |s|
    ensures TagAt(s, tag, p) <==> TagAt(s[1..], tag, p - 1)
  {
    if p + |tag| < |s| {
      assert s[1..][p - 1..p - 1 + |tag|] == s[p..p + |tag|];
    }
  }

  lemma TagAtStart(s: string, tag: string)
    ensures TagAt(s, tag, 0) <==> StartsWith(s, tag) && |tag| < |s| && IsDigit(s[|tag|])
  {
    if |tag| <= |s| {
      assert s[..|tag|] == s[0..|tag|];
    }
  }

  /** `FirstTagged` finds nothing exactly when the tag never occurs directly
      followed by a digit. */
  lemma {:induction false} FirstTaggedNone(s: string, tag: string)
    ensures FirstTagged(s, tag) == None <==> forall p :: 0 <= p < |s| ==> !TagAt(s, tag, p)
    decreases |s|
  {
    TagAtStart(s, tag);
    if !TagAt(s, tag, 0) && s != [] {
      FirstTaggedNone(s[1..], tag);
      forall p | 1 <= p < |s|
        ensures TagAt(s, tag, p) <==> TagAt(s[1..], tag, p - 1)
      {
        TagShift(s, tag, p);
      }
      if forall p :: 0 <= p < |s[1..]| ==> !TagAt(s[1..], tag, p) {
        forall p | 0 <= p < |s| ensures !TagAt(s, tag, p) {
          if p > 0 {
            assert !TagAt(s[1..], tag, p - 1);
          }
        }
      } else {
        var p :| 0 <= p < |s[1..]| && TagAt(s[1..], tag, p);
        assert TagAt(s, tag, p + 1);
      }
    }
  }

  /** At the leftmost occurrence of the tag followed by a digit,
      `FirstTagged` reads the whole digit run after the tag. */
  lemma {:induction false} FirstTaggedAt(s: string, tag: string, p: nat)
    requires TagAt(s, tag, p)
    requires forall q :: 0 <= q < p ==> !TagAt(s, tag, q)
    ensures FirstTagged(s, tag) == Some(LeadingNumber(s[p + |tag|..]))
    decreases p
  {
    TagAtStart(s, tag);
    if p > 0 {
      TagShift(s, tag, p);
      forall q | 0 <= q < p - 1 ensures !TagAt(s[1..], tag, q) {
        TagShift(s, tag, q + 1);
      }
      FirstTaggedAt(s[1..], tag, p - 1);
      assert s[1..][p - 1 + |tag|..] == s[p + |tag|..];
    }
  }

  /** Digits followed by a non-digit spell the leading number. */
  lemma LeadingNumberOf(digits: string, rest: string)
    requires AllDigits(digits)
    requires rest == [] || !IsDigit(rest[0])
    ensures LeadingNumber(digits + rest) == ParseDigits(digits)
  {
    DigitRunOf(digits, rest);
    assert (digits + rest)[..|digits|] == digits;
  }

  /** The day offset a checkpoint names: `Day n` gives n, otherwise
      `Week n` gives 7n, otherwise 0. */
  function CheckpointDay(s: string): nat {
    match FirstTagged(s, "Day ")
    case Some(n) => n
    case None =>
      match FirstTagged(s, "Week ")
      case Some(n) => 7 * n
      case None => 0
  }

  /** `checkpoints.map(…).filter(timing => timing > 0)`: the positive day
      offsets in input order; `None` when an item is not a string, whose
      `.match` is not a function. */
  function Timings(cps: seq<Json>): (r: Option<seq<nat>>)
    ensures r.Some? <==> forall i :: 0 <= i < |cps| ==> cps[i].JStr?
    ensures r.Some? ==> forall i :: 0 <= i < |r.value| ==> r.value[i] > 0
    ensures r.Some? ==> |r.value| <= |cps|
  {
    if cps == [] then Some([])
    else if !cps[0].JStr? then None
    else
      match Timings(cps[1..])
      case None =>
        assert forall i :: 1 <= i < |cps| ==> cps[i] == cps[1..][i - 1];
        None
      case Some(rest) =>
        assert forall i :: 1 <= i < |cps| ==> cps[i] == cps[1..][i - 1];
        var d := CheckpointDay(cps[0].s);
        Some(if d > 0 then [d] + rest else rest)
  }

  /** The leftmost `Day <n>` decides the offset, wherever it is and
      whatever else the text says. */
  lemma DayTagWins(s: string, p: nat)
    requires TagAt(s, "Day ", p)
    requires forall q :: 0 <= q < p ==> !TagAt(s, "Day ", q)
    ensures CheckpointDay(s) == LeadingNumber(s[p + 4..])
  {
    FirstTaggedAt(s, "Day ", p);
  }

  /** Without any `Day <n>`, the leftmost `Week <w>` gives 7w. */
  lemma WeekOfCheckpoint(s: string, p: nat)
    requires forall q :: 0 <= q < |s| ==> !TagAt(s, "Day ", q)
    requires TagAt(s, "Week ", p)
    requires forall q :: 0 <= q < p ==> !TagAt(s, "Week ", q)
    ensures CheckpointDay(s) == 7 * LeadingNumber(s[p + 5..])
  {
    FirstTaggedNone(s, "Day ");
    FirstTaggedAt(s, "Week ", p);
  }

  /** A checkpoint naming neither a day nor a week has offset 0. */
  lemma UntaggedCheckpoint(s: string)
    requires forall q :: 0 <= q < |s| ==> !TagAt(s, "Day ", q) && !TagAt(s, "Week ", q)
    ensures CheckpointDay(s) == 0
  {
    FirstTaggedNone(s, "Day ");
    FirstTaggedNone(s, "Week ");
  }

  /** The day offset of each checkpoint, in order: `checkpoints.map(…)`. */
  function DayOffsets(cps: seq<Json>): (r: seq<nat>)
    requires forall i :: 0 <= i < |cps| ==> cps[i].JStr?
    ensures |r| == |cps|
  {
    seq(|cps|, i requires 0 <= i < |cps| => CheckpointDay(cps[i].s))
  }

  /** The positive entries, in order: `.filter(timing => timing > 0)`. */
  function Positive(xs: seq<nat>): (r: seq<nat>)
    ensures |r| <= |xs|
    ensures forall x :: x in r <==> x in xs && x > 0
  {
    if xs == [] then []
    else
      assert xs == [xs[0]] + xs[1..];
      (if xs[0] > 0 then [xs[0]] else []) + Positive(xs[1..])
  }

  /** Filtering a joined list filters each part in turn, so the kept
      entries keep their order and their repetitions. */
  lemma {:induction false} PositiveAppend(a: seq<nat>, b: seq<nat>)
    ensures Positive(a + b) == Positive(a) + Positive(b)
  {
    if a == [] {
      assert a + b == b;
    } else {
      assert (a + b)[0] == a[0] && (a + b)[1..] == a[1..] + b;
      PositiveAppend(a[1..], b);
      var head: seq<nat> := if a[0] > 0 then [a[0]] else [];
      assert Positive(a + b) == head + (Positive(a[1..]) + Positive(b));
      assert Positive(a) == head + Positive(a[1..]);
    }
  }

  /** A single entry is kept exactly when it is positive. */
  lemma PositiveSingle(x: nat)
    ensures Positive([x]) == if x > 0 then [x] else []
  {
    assert [x][1..] == [];
  }

  /** The timings are the checkpoints' day offsets with the zeros filtered
      out, in input order. */
  lemma {:induction false} TimingsMapFilter(cps: seq<Json>)
    requires forall i :: 0 <= i < |cps| ==> cps[i].JStr?
    ensures Timings(cps) == Some(Positive(DayOffsets(cps)))
  {
    var days := DayOffsets(cps);
    if cps == [] {
      assert days == [];
    } else {
      assert days[1..] == DayOffsets(cps[1..]);
      assert days[0] == CheckpointDay(cps[0].s);
      TimingsMapFilter(cps[1..]);
      var rest := Positive(days[1..]);
      assert Timings(cps) == Some(if days[0] > 0 then [days[0]] + rest else rest);
      assert Positive(days) == (if days[0] > 0 then [days[0]] else []) + rest;
      assert [] + rest == rest;
    }
  }

  predicate StrictlyIncreasing(t: seq<int>) {
    forall i, j :: 0 <= i < j < |t| ==> t[i] < t[j]
  }

  /** What `validateCheckpointTiming(checkpoints)` returns or throws. */
  function CheckpointTiming(cps: Json): (r: Result<bool, string>)
    ensures !cps.JArr? ==> r == Success(false)
    ensures r.Failure? <==> cps.JArr? && exists i :: 0 <= i < |cps.items| && !cps.items[i].JStr?
  {
    if !cps.JArr? then Success(false)
    else
      match Timings(cps.items)
      case None => Failure(TypeError)
      case Some(t) => Success(StrictlyIncreasing(t))
  }

  /** `validateCheckpointTiming(checkpoints)`: compares neighbours and
      returns `false` at the first pair that does not increase. */
  method ValidateCheckpointTiming(cps: Json) returns (r: Result<bool, string>)
    ensures r == CheckpointTiming(cps)
  {
    if !cps.JArr? {
      return Success(false);
    }
    var timings := Timings(cps.items);
    if timings.None? {
      return Failure(TypeError);
    }
    var t := timings.value;
    var i := 1;
    while i < |t|
      invariant 1 <= i
      invariant forall k :: 0 < k < i && k < |t| ==> t[k - 1] < t[k]
    {
      if t[i] <= t[i - 1] {
        return Success(false);
      }
      i := i + 1;
    }
    AdjacentIncreasing(t);
    r := Success(true);
  }

  /** Increasing neighbours make an increasing sequence. */
  lemma AdjacentIncreasing(t: seq<int>)
    requires forall k :: 0 < k < |t| ==> t[k - 1] < t[k]
    ensures StrictlyIncreasing(t)
  {
    forall i, j | 0 <= i < j < |t| ensures t[i] < t[j] {
      IncreasingSpan(t, i, j);
    }
  }

  lemma {:induction false} IncreasingSpan(t: seq<int>, i: nat, j: nat)
    requires forall k :: 0 < k < |t| ==> t[k - 1] < t[k]
    requires i < j < |t|
    ensures t[i] < t[j]
    decreases j - i
  {
    if i + 1 < j {
      IncreasingSpan(t, i + 1, j);
    }
  }

  /** A list of `Day <d>` checkpoints has exactly its days as timings. */
  lemma {:induction false} TimingsOfDays(cps: seq<Json>, days: seq<nat>, rests: seq<string>)
    requires |cps| == |days| == |rests|
    requires forall i :: 0 <= i < |cps| ==>
      && days[i] > 0
      && (rests[i] == [] || !IsDigit(rests[i][0]))
      && cps[i] == JStr("Day " + NatToString(days[i]) + rests[i])
    ensures Timings(cps) == Some(days)
  {
    if cps != [] {
      DayOfCheckpoint(days[0], rests[0]);
      TimingsOfDays(cps[1..], days[1..], rests[1..]);
      assert days == [days[0]] + days[1..];
    }
  }

  /** Each checkpoint is `Day <d>` for its positive day `d`, followed by a
      rest that does not begin with a digit. */
  predicate DayTexts(cps: seq<Json>, days: seq<nat>, rests: seq<string>) {
    && |cps| == |days| == |rests|
    && forall i :: 0 <= i < |cps| ==>
      && days[i] > 0
      && (rests[i] == [] || !IsDigit(rests[i][0]))
      && cps[i] == JStr("Day " + NatToString(days[i]) + rests[i])
  }

  /** Checkpoints naming positive days pass the timing check exactly when
      the days strictly increase. */
  lemma IncreasingDaysPass(cps: seq<Json>, days: seq<nat>, rests: seq<string>)
    requires DayTexts(cps, days, rests)
    ensures CheckpointTiming(JArr(cps)) == Success(StrictlyIncreasing(days))
  {
    TimingsOfDays(cps, days, rests);
  }

  /** `Day <d>` at the start of a checkpoint, followed by anything that does
      not begin with a digit, names day `d`. */
  lemma DayOfCheckpoint(d: nat, rest: string)
    requires d > 0
    requires rest == [] || !IsDigit(rest[0])
    ensures CheckpointDay("Day " + NatToString(d) + rest) == d
  {
    var digits := NatToString(d);
    var s := "Day " + digits + rest;
    assert StartsWith(s, "Day ") by {
      assert s[..4] == "Day ";
    }
    assert s[4..] == digits + rest;
    LeadingNumberOf(digits, rest);
    ParsePrinted(d);
  }

  /** An empty document misses both sections. */
  lemma ValidateEmptyDocument()
    ensures Validate(JObj([])) ==
      Success(Report(false, [MissingSection("metadata"), MissingSection("sections")], []))
  {
    MissingPair(JObj([]), "metadata", "sections", MissingSection);
    assert Get(JObj([]), "metadata") == None && Get(JObj([]), "sections") == None;
    assert Validate(JObj([])).value.warnings == [];
    assert Validate(JObj([])).value.errors == [MissingSection("metadata"), MissingSection("sections")];
  }

  /** Empty sections are valid and warn about both metadata fields. */
  lemma ValidateEmptySections()
    ensures Validate(JObj([("metadata", JObj([])), ("sections", JObj([]))])) ==
      Success(Report(true, [], [MissingField("template_name"), MissingField("focus_area")]))
  {
    var es := [("metadata", JObj([])), ("sections", JObj([]))];
    assert "sections" != "metadata" by {
      assert "sections"[0] != "metadata"[0];
    }
    assert Lookup(es[1..], "sections") == Some(JObj([]));
    assert Get(JObj(es), "sections") == Some(JObj([]));
    assert Get(JObj(es), "metadata") == Some(JObj([]));
    MissingPair(JObj(es), "metadata", "sections", MissingSection);
    MissingPair(JObj([]), "template_name", "focus_area", MissingField);
    assert Collect(Entries(JObj([])), SectionWarnings) == Some([]);
    assert Validate(JObj(es)).value.errors == [];
    assert Validate(JObj(es)).value.warnings == [MissingField("template_name"), MissingField("focus_area")];
  }


}
