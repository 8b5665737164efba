/** The template registry (`TemplateProcessor`): named templates and the
    generation of a workflow instance from one of them. */
module Templates {
  import opened Wrappers
  import opened Json
  import opened Substitution

  /** The message of the error thrown for a name that is not registered. */
  function NotFound(name: string): string {
    "Template " + name + " not found"
  }

  /** What generating from `name` gives against the registry `templates`:
      the error when the name is missing or holds a falsy value, otherwise
      the stored template with the variables substituted. (The deep copy the
      source makes first is the identity on immutable values.) */
  function Generate(templates: map<string, Json>, name: string, vars: Variables): (r: Result<Json, string>)
    ensures r.Failure? <==> !(name in templates && Truthy(templates[name]))
    ensures r.Failure? ==> r.error == NotFound(name)
    ensures r.Success? ==> SameShape(templates[name], r.value)
  {
    if name in templates && Truthy(templates[name]) then Success(Substitute(templates[name], vars))
    else Failure(NotFound(name))
  }

  /** A template without placeholders is generated as it was stored,
      whatever the variables. */
  lemma GenerateVerbatim(templates: map<string, Json>, name: string, vars: Variables)
    requires name in templates && Truthy(templates[name])
    requires NoPlaceholders(templates[name])
    ensures Generate(templates, name, vars) == Success(templates[name])
  {
    SubstituteNoPlaceholders(templates[name], vars);
  }

  /** Generating with no variables gives the stored template back. */
  lemma GenerateWithoutVariables(templates: map<string, Json>, name: string)
    requires name in templates && Truthy(templates[name])
    ensures Generate(templates, name, map[]) == Success(templates[name])
  {
    SubstituteUnresolved(templates[name], map[]);
  }

  class TemplateProcessor {
    /** `this.templates` */
    var templates: map<string, Json>

    constructor ()
      ensures templates == map[]
    {
      templates := map[];
    }

    /** The store step of `loadTemplate`: registers a template under a name,
        replacing any template registered there before. */
    method Register(name: string, template: Json)
      modifies this
      ensures templates == old(templates)[name := template]
    {
      templates := templates[name := template];
    }

    /** `generateWorkflow(templateName, variables)`: it may not modify the
        registry (no `modifies` clause) and says so. */
    method GenerateWorkflow(name: string, vars: Variables) returns (r: Result<Json, string>)
      ensures templates == old(templates)
      ensures r == Generate(templates, name, vars)
    {
      if !(name in templates && Truthy(templates[name])) {
        return Failure(NotFound(name));
      }
      var template := templates[name];
      r := Success(Substitute(template, vars));
    }
  }

  /** Generating never disturbs the registry: after any generations, the
      same template registered under a second name is generated, without
      variables, exactly as it was registered. */
  method GenerateThenReregister(p: TemplateProcessor, name: string, other: string, t: Json, vars: Variables)
    returns (first: Result<Json, string>, again: Result<Json, string>)
    requires Truthy(t)
    modifies p
    ensures first == Success(Substitute(t, vars))
    ensures again == Success(t)
    ensures p.templates == old(p.templates)[name := t][other := t]
  {
    p.Register(name, t);
    first := p.GenerateWorkflow(name, vars);
    var _ := p.GenerateWorkflow(name, map[]);
    p.Register(other, t);
    again := p.GenerateWorkflow(other, map[]);
    GenerateWithoutVariables(p.templates, other);
  }
}
