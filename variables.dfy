/**
 * Variable resolution: turning a template's variable declarations and the
 * caller's values into the context the template engine renders with.
 * The declarations are walked in order; for each one the constant-override
 * check comes first, then the required-value check, and the first failing
 * declaration decides the error.
 */
module Variables {
  import opened Wrappers
  import opened JsValues
  import opened Templates

  /** `values[name]`: Undefined when the key is absent. */
  function ValueOf(values: Values, name: string): Value {
    if name in values then values[name] else Undefined
  }

  /** The declared variable names. */
  function Names(variables: TemplateVariables): set<string> {
    set i | 0 <= i < |variables| :: variables[i].0
  }

  /** No name is declared twice (always so for the keys of an object). */
  ghost predicate UniqueNames(variables: TemplateVariables) {
    forall i, j :: 0 <= i < j < |variables| ==> variables[i].0 != variables[j].0
  }

  /** The two checks on one declaration, in the source's order. */
  function CheckVariable(declaration: (string, VariableDefinition), values: Values): (e: Option<Error>)
    ensures e == Some(TemplateVariableIsConstant(declaration.0))
            <==> declaration.1.isConstant && declaration.0 in values
    ensures e == Some(TemplateVariableValueNotProvided(declaration.0))
            <==> !declaration.1.isConstant && declaration.1.isRequired && declaration.0 !in values
    ensures e.Some? ==> e == Some(TemplateVariableIsConstant(declaration.0))
                        || e == Some(TemplateVariableValueNotProvided(declaration.0))
  {
    var (name, variable) := declaration;
    if variable.isConstant && name in values then Some(TemplateVariableIsConstant(name))
    else if !variable.isConstant && name !in values && variable.isRequired then Some(TemplateVariableValueNotProvided(name))
    else None
  }

  /**
   * The value bound to a declared name, `values[name] || defaultValue || null`:
   * a falsy supplied value falls through to the default, and a falsy default to null.
   */
  function Resolved(declaration: (string, VariableDefinition), values: Values): (v: Value)
    ensures Truthy(ValueOf(values, declaration.0)) ==> v == values[declaration.0]
    ensures !Truthy(ValueOf(values, declaration.0)) && Truthy(declaration.1.defaultValue)
            ==> v == declaration.1.defaultValue
    ensures !Truthy(ValueOf(values, declaration.0)) && !Truthy(declaration.1.defaultValue) ==> v == Null
    ensures v == Null || Truthy(v)
  {
    Or(Or(ValueOf(values, declaration.0), declaration.1.defaultValue), Null)
  }

  /** The error of the first declaration that fails its checks, if any does. */
  function FirstFailure(variables: TemplateVariables, values: Values): (e: Option<Error>)
    ensures e.None? <==> forall i :: 0 <= i < |variables| ==> CheckVariable(variables[i], values).None?
    ensures e.Some? ==> e.value.TemplateVariableIsConstant? || e.value.TemplateVariableValueNotProvided?
    ensures e.Some? ==> e.value.name in Names(variables)
    decreases |variables|
  {
    if variables == [] then None
    else
      var front := variables[..|variables| - 1];
      assert forall i :: 0 <= i < |front| ==> front[i] == variables[i];
      var e := FirstFailure(front, values);
      if e.Some? then e else CheckVariable(variables[|variables| - 1], values)
  }

  /** The declaration that fails first decides the error: later declarations are not checked. */
  lemma {:induction false} FirstFailureAt(variables: TemplateVariables, values: Values, k: int)
    requires 0 <= k < |variables|
    requires CheckVariable(variables[k], values).Some?
    requires forall j :: 0 <= j < k ==> CheckVariable(variables[j], values).None?
    ensures FirstFailure(variables, values) == CheckVariable(variables[k], values)
    decreases |variables|
  {
    var front := variables[..|variables| - 1];
    assert forall i :: 0 <= i < |front| ==> front[i] == variables[i];
    if k < |variables| - 1 {
      FirstFailureAt(front, values, k);
    } else {
      assert FirstFailure(front, values).None?;
    }
  }

  /** The context built from all declarations, later bindings of a name overwriting earlier ones. */
  function Bindings(variables: TemplateVariables, values: Values): (context: Context)
    ensures context.Keys == Names(variables)
    decreases |variables|
  {
    if variables == [] then map[]
    else
      var front := variables[..|variables| - 1];
      var last := variables[|variables| - 1];
      assert Names(variables) == Names(front) + {last.0} by {
        assert forall i :: 0 <= i < |front| ==> front[i] == variables[i];
      }
      Bindings(front, values)[last.0 := Resolved(last, values)]
  }

  /** What `getContext` computes: the first failing declaration's error, or the full context. */
  function ResolveContext(variables: TemplateVariables, values: Values): (r: Result<Context, Error>)
    ensures r.Ok? <==> forall i :: 0 <= i < |variables| ==> CheckVariable(variables[i], values).None?
    ensures r.Ok? ==> r.value.Keys == Names(variables)
    ensures r.Err? ==> (r.error.TemplateVariableIsConstant? || r.error.TemplateVariableValueNotProvided?)
                       && r.error.name in Names(variables)
  {
    match FirstFailure(variables, values)
    case Some(e) => Err(e)
    case None => Ok(Bindings(variables, values))
  }

  /**
   * The source's getContext: a loop over the declarations that throws at the
   * first constant override or missing required value, and otherwise binds
   * each declared name.
   */
  method GetContext(template: EmailTemplate, values: Values) returns (r: Result<Context, Error>)
    ensures r == ResolveContext(template.variables, values)
  {
    var variables := template.variables;
    var context: Context := map[];
    var i := 0;
    while i < |variables|
      invariant 0 <= i <= |variables|
      invariant forall j :: 0 <= j < i ==> CheckVariable(variables[j], values).None?
      invariant context == Bindings(variables[..i], values)
    {
      var (name, variable) := variables[i];
      if variable.isConstant && name in values {
        assert CheckVariable(variables[i], values) == Some(TemplateVariableIsConstant(name));
        FirstFailureAt(variables, values, i);
        return Err(TemplateVariableIsConstant(name));
      }
      if !variable.isConstant && name !in values && variable.isRequired {
        assert CheckVariable(variables[i], values) == Some(TemplateVariableValueNotProvided(name));
        FirstFailureAt(variables, values, i);
        return Err(TemplateVariableValueNotProvided(name));
      }
      context := context[name := Resolved(variables[i], values)];
      assert variables[..i + 1][..i] == variables[..i];
      i := i + 1;
    }
    assert variables[..i] == variables;
    return Ok(context);
  }

  /** With distinct names, every declared name is bound to its resolved value. */
  lemma {:induction false} BindingsAt(variables: TemplateVariables, values: Values, k: int)
    requires UniqueNames(variables)
    requires 0 <= k < |variables|
    ensures Bindings(variables, values)[variables[k].0] == Resolved(variables[k], values)
    decreases |variables|
  {
    var n := |variables|;
    if k < n - 1 {
      var front := variables[..n - 1];
      assert front[k] == variables[k];
      BindingsAt(front, values, k);
    }
  }

  /** A constant variable whose key is supplied makes resolution fail, whether or not it has a default. */
  lemma ConstantOverrideFails(variables: TemplateVariables, values: Values, k: int)
    requires 0 <= k < |variables|
    requires variables[k].1.isConstant && variables[k].0 in values
    ensures ResolveContext(variables, values).Err?
    ensures (forall j :: 0 <= j < k ==> CheckVariable(variables[j], values).None?) ==>
      ResolveContext(variables, values) == Err(TemplateVariableIsConstant(variables[k].0))
  {
    assert CheckVariable(variables[k], values).Some?;
    if forall j :: 0 <= j < k ==> CheckVariable(variables[j], values).None? {
      FirstFailureAt(variables, values, k);
    }
  }

  /** A required, non-constant variable whose key is absent makes resolution fail. */
  lemma RequiredMissingFails(variables: TemplateVariables, values: Values, k: int)
    requires 0 <= k < |variables|
    requires !variables[k].1.isConstant && variables[k].1.isRequired && variables[k].0 !in values
    ensures ResolveContext(variables, values).Err?
    ensures (forall j :: 0 <= j < k ==> CheckVariable(variables[j], values).None?) ==>
      ResolveContext(variables, values) == Err(TemplateVariableValueNotProvided(variables[k].0))
  {
    assert CheckVariable(variables[k], values).Some?;
    if forall j :: 0 <= j < k ==> CheckVariable(variables[j], values).None? {
      FirstFailureAt(variables, values, k);
    }
  }

  /**
   * On success every declared name is bound to `values[name] || defaultValue || null`;
   * in particular a supplied falsy value satisfies the required check and falls through.
   */
  lemma ResolvedContextBindings(variables: TemplateVariables, values: Values)
    requires UniqueNames(variables)
    requires ResolveContext(variables, values).Ok?
    ensures forall k :: 0 <= k < |variables| ==>
      ResolveContext(variables, values).value[variables[k].0] == Resolved(variables[k], values)
  {
    forall k | 0 <= k < |variables|
      ensures ResolveContext(variables, values).value[variables[k].0] == Resolved(variables[k], values)
    {
      BindingsAt(variables, values, k);
    }
  }

  /** Two value maps that agree on the declared names. */
  ghost predicate AgreeOn(names: set<string>, values: Values, values': Values) {
    forall n :: n in names ==> (n in values <==> n in values') && (n in values ==> values[n] == values'[n])
  }

  /** Keys that are not declared are never looked at: resolution depends only on the declared names' values. */
  lemma {:induction false} UndeclaredValuesIgnored(variables: TemplateVariables, values: Values, values': Values)
    requires AgreeOn(Names(variables), values, values')
    ensures ResolveContext(variables, values) == ResolveContext(variables, values')
    decreases |variables|
  {
    if variables != [] {
      var front := variables[..|variables| - 1];
      var last := variables[|variables| - 1];
      assert Names(front) <= Names(variables) by {
        assert forall i :: 0 <= i < |front| ==> front[i] == variables[i];
      }
      assert last.0 in Names(variables);
      UndeclaredValuesIgnored(front, values, values');
      assert CheckVariable(last, values) == CheckVariable(last, values');
      assert Resolved(last, values) == Resolved(last, values');
    }
  }

  /** A template without variables renders with the empty context, whatever values are passed. */
  lemma NoVariablesEmptyContext(values: Values)
    ensures ResolveContext([], values) == Ok(map[])
  {
  }
}
