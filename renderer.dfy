/**
 * The render pipeline and the per-template handle: a factory opened on one
 * template id renders it (lookup, Twig compile, variable resolution, Twig
 * render, minification) and reports its envelope and authorization user.
 */
module Renderer {
  import opened Wrappers
  import opened JsValues
  import opened Templates
  import opened Registry
  import opened Variables

  /** `values = {}`: rendering without values uses the empty map. */
  function ValuesOrEmpty(values: Option<Values>): Values {
    match values
    case None => map[]
    case Some(v) => v
  }

  /** Twig's render of the compiled source followed by the minifier. */
  function Emit(engine: Engine, content: string, context: Context): Result<string, Error> {
    match engine.evaluate(content, context)
    case Err(message) => Err(EngineFailure(message))
    case Ok(html) =>
      match engine.minify(html)
      case Err(message) => Err(EngineFailure(message))
      case Ok(minified) => Ok(minified)
  }

  /**
   * What renderTemplate yields: the template lookup, then Twig compiling the
   * source, then the context, then rendering and minification.
   */
  function RenderedTemplate(store: seq<TemplateMetadata>, templateId: string, values: Values, engine: Engine): (r: Result<string, Error>)
    ensures !Registered(store, templateId) ==> r == Err(TemplateNotFound(templateId))
    ensures r.Err? ==> r.error.TemplateNotFound? || r.error.EngineFailure?
                       || r.error.TemplateVariableIsConstant? || r.error.TemplateVariableValueNotProvided?
    ensures Registered(store, templateId) ==>
      var template := GetTemplate(store, templateId).value;
      engine.parseError(template.content).None? && ResolveContext(template.variables, values).Ok? ==>
        r == Emit(engine, template.content, ResolveContext(template.variables, values).value)
  {
    match GetTemplate(store, templateId)
    case Err(e) => Err(e)
    case Ok(template) =>
      match engine.parseError(template.content)
      case Some(message) => Err(EngineFailure(message))
      case None =>
        match ResolveContext(template.variables, values)
        case Err(e) => Err(e)
        case Ok(context) => Emit(engine, template.content, context)
  }

  /** The error kinds render rethrows unchanged. */
  predicate PassesThrough(e: Error) {
    e.TemplateNotFound? || e.EnvelopeNotFound? || e.TemplateVariableValueNotProvided?
  }

  /** The catch block of render. */
  function CatchRenderError(templateId: string, inner: Result<string, Error>): Result<string, Error> {
    if inner.Err? && !PassesThrough(inner.error) then Err(RenderFailed(templateId, inner.error)) else inner
  }

  /** What render yields for the factory of `templateId`. */
  function RenderResult(store: seq<TemplateMetadata>, templateId: string, values: Option<Values>, engine: Engine): (r: Result<string, Error>)
    ensures !Registered(store, templateId) ==> r == Err(TemplateNotFound(templateId))
    ensures r.Err? ==> PassesThrough(r.error)
                       || (r.error.RenderFailed? && r.error.templateId == templateId && !PassesThrough(r.error.cause))
    ensures r.Err? ==> !r.error.TemplateVariableIsConstant?
    ensures r.Ok? <==> RenderedTemplate(store, templateId, ValuesOrEmpty(values), engine).Ok?
    ensures r.Ok? ==> r == RenderedTemplate(store, templateId, ValuesOrEmpty(values), engine)
  {
    CatchRenderError(templateId, RenderedTemplate(store, templateId, ValuesOrEmpty(values), engine))
  }

  /** The sender address a template's envelope names (`envelope?.from`). */
  function Sender(template: EmailTemplate): Option<EmailAddress> {
    match template.envelope
    case None => None
    case Some(envelope) => envelope.from
  }

  /**
   * The three-way decision of getAuthorizationUser once the template is found:
   * its authorization user, else FromEmailAddressNotAuthorized for a sender
   * address, else a generic error naming the template.
   */
  function AuthorizationUserOf(templateId: string, template: EmailTemplate): (r: Result<AuthorizationUser, Error>)
    ensures r.Ok? <==> template.authorizationUser.Some?
    ensures r.Ok? ==> r.value == template.authorizationUser.value
    ensures r.Err? ==> (r.error.FromEmailAddressNotAuthorized? <==> Sender(template).Some?)
    ensures r.Err? && Sender(template).Some? ==> r.error == FromEmailAddressNotAuthorized(Sender(template).value.value)
    ensures r.Err? && Sender(template).None? ==> r.error == AuthorizationUserMissing(templateId)
  {
    match template.authorizationUser
    case Some(user) => Ok(user)
    case None =>
      match Sender(template)
      case Some(from) => Err(FromEmailAddressNotAuthorized(from.value))
      case None => Err(AuthorizationUserMissing(templateId))
  }

  /** A handle on one registered template. */
  class EmailTemplateFactory {
    const registry: TemplateRegistry
    const templateId: string
    const emailTemplate: EmailTemplate

    /** The template is still registered under the handle's id. */
    ghost predicate Valid()
      reads registry
    {
      registry.Valid() && GetTemplate(registry.templates, templateId) == Ok(emailTemplate)
    }

    constructor Bind(registry: TemplateRegistry, templateId: string, emailTemplate: EmailTemplate)
      requires GetTemplate(registry.templates, templateId) == Ok(emailTemplate)
      ensures this.registry == registry && this.templateId == templateId && this.emailTemplate == emailTemplate
    {
      this.registry := registry;
      this.templateId := templateId;
      this.emailTemplate := emailTemplate;
    }

    /** The source's constructor: fails fast with TemplateNotFound on an unknown id. */
    static method Open(registry: TemplateRegistry, templateId: string) returns (r: Result<EmailTemplateFactory, Error>)
      ensures r.Err? <==> !Registered(registry.templates, templateId)
      ensures r.Err? ==> r.error == TemplateNotFound(templateId)
      ensures r.Ok? ==> fresh(r.value) && r.value.registry == registry && r.value.templateId == templateId
      ensures r.Ok? ==> GetTemplate(registry.templates, templateId) == Ok(r.value.emailTemplate)
      ensures r.Ok? && registry.Valid() ==> r.value.Valid()
    {
      var found := GetTemplate(registry.templates, templateId);
      if found.Err? {
        return Err(found.error);
      }
      var factory := new EmailTemplateFactory.Bind(registry, templateId, found.value);
      return Ok(factory);
    }

    /** The source's renderTemplate: each step's failure ends the pipeline. */
    static method RenderTemplate(registry: TemplateRegistry, templateId: string, values: Values, engine: Engine)
      returns (r: Result<string, Error>)
      ensures r == RenderedTemplate(registry.templates, templateId, values, engine)
    {
      var found := GetTemplate(registry.templates, templateId);
      if found.Err? {
        return Err(found.error);
      }
      var template := found.value;
      var parseError := engine.parseError(template.content);
      if parseError.Some? {
        return Err(EngineFailure(parseError.value));
      }
      var context := GetContext(template, values);
      if context.Err? {
        return Err(context.error);
      }
      var rendered := engine.evaluate(template.content, context.value);
      if rendered.Err? {
        return Err(EngineFailure(rendered.error));
      }
      var minified := engine.minify(rendered.value);
      if minified.Err? {
        return Err(EngineFailure(minified.error));
      }
      return Ok(minified.value);
    }

    /** Renders the handle's template, rethrowing the classified errors and wrapping every other one. */
    method Render(values: Option<Values>, engine: Engine) returns (r: Result<string, Error>)
      ensures r == RenderResult(registry.templates, templateId, values, engine)
    {
      var inner := RenderTemplate(registry, templateId, ValuesOrEmpty(values), engine);
      if inner.Err? && !PassesThrough(inner.error) {
        return Err(RenderFailed(templateId, inner.error));
      }
      return inner;
    }

    /** The envelope of the handle's template, exactly as registered (possibly absent). */
    function GetEnvelope(): (r: Result<Option<EmailEnvelope>, Error>)
      reads registry
      ensures r.Err? <==> !Registered(registry.templates, templateId)
      ensures r.Err? ==> r.error == TemplateNotFound(templateId)
      ensures Valid() ==> r == Ok(emailTemplate.envelope)
    {
      match GetTemplate(registry.templates, templateId)
      case Err(e) => Err(e)
      case Ok(template) => Ok(template.envelope)
    }

    /** The authorization user of the handle's template, or why there is none. */
    function GetAuthorizationUser(): (r: Result<AuthorizationUser, Error>)
      reads registry
      ensures !Registered(registry.templates, templateId) ==> r == Err(TemplateNotFound(templateId))
      ensures Valid() ==> r == AuthorizationUserOf(templateId, emailTemplate)
    {
      match GetTemplate(registry.templates, templateId)
      case Err(e) => Err(e)
      case Ok(template) => AuthorizationUserOf(templateId, template)
    }
  }

  /** Registrations after a handle was opened never invalidate it: the registry is append-only. */
  twostate lemma FactoryStaysValid(factory: EmailTemplateFactory)
    requires old(factory.Valid())
    requires factory.registry.Valid()
    requires old(factory.registry.templates) <= factory.registry.templates
    ensures factory.Valid()
  {
    var before := old(factory.registry.templates);
    var now := factory.registry.templates;
    assert now == before + now[|before|..];
    GetTemplateStable(before, now[|before|..], factory.templateId);
  }

  /**
   * A required, non-constant variable without a value fails render with
   * TemplateVariableValueNotProvided, unwrapped, when it is the first failing declaration.
   */
  lemma RenderMissingRequiredPassesThrough(
    store: seq<TemplateMetadata>, templateId: string, values: Option<Values>, engine: Engine,
    template: EmailTemplate, k: int)
    requires GetTemplate(store, templateId) == Ok(template)
    requires engine.parseError(template.content).None?
    requires 0 <= k < |template.variables|
    requires var (name, variable) := template.variables[k];
             !variable.isConstant && variable.isRequired && name !in ValuesOrEmpty(values)
    requires forall j :: 0 <= j < k ==> CheckVariable(template.variables[j], ValuesOrEmpty(values)).None?
    ensures RenderResult(store, templateId, values, engine)
            == Err(TemplateVariableValueNotProvided(template.variables[k].0))
  {
    RequiredMissingFails(template.variables, ValuesOrEmpty(values), k);
  }

  /**
   * A supplied value for a constant variable fails render, but the
   * TemplateVariableIsConstant error is wrapped in the generic render failure.
   */
  lemma RenderConstantOverrideIsWrapped(
    store: seq<TemplateMetadata>, templateId: string, values: Option<Values>, engine: Engine,
    template: EmailTemplate, k: int)
    requires GetTemplate(store, templateId) == Ok(template)
    requires engine.parseError(template.content).None?
    requires 0 <= k < |template.variables|
    requires template.variables[k].1.isConstant && template.variables[k].0 in ValuesOrEmpty(values)
    requires forall j :: 0 <= j < k ==> CheckVariable(template.variables[j], ValuesOrEmpty(values)).None?
    ensures RenderResult(store, templateId, values, engine)
            == Err(RenderFailed(templateId, TemplateVariableIsConstant(template.variables[k].0)))
  {
    ConstantOverrideFails(template.variables, ValuesOrEmpty(values), k);
  }

  /**
   * Twig compiles the source before the context is built, so a template that
   * does not compile fails with the wrapped engine error whatever values are passed.
   */
  lemma RenderCompileErrorFirst(
    store: seq<TemplateMetadata>, templateId: string, values: Option<Values>, engine: Engine,
    template: EmailTemplate)
    requires GetTemplate(store, templateId) == Ok(template)
    requires engine.parseError(template.content).Some?
    ensures RenderResult(store, templateId, values, engine)
            == Err(RenderFailed(templateId, EngineFailure(engine.parseError(template.content).value)))
  {
  }

  /** Values under undeclared names never change what render yields. */
  lemma RenderIgnoresUndeclaredValues(
    store: seq<TemplateMetadata>, templateId: string, values: Values, values': Values, engine: Engine,
    template: EmailTemplate)
    requires GetTemplate(store, templateId) == Ok(template)
    requires AgreeOn(Names(template.variables), values, values')
    ensures RenderResult(store, templateId, Some(values), engine) == RenderResult(store, templateId, Some(values'), engine)
  {
    UndeclaredValuesIgnored(template.variables, values, values');
  }

  /**
   * Render succeeds exactly when the template is registered, compiles, every
   * declaration passes its checks and Twig and the minifier succeed on the
   * resolved context; the output is then the minified rendering.
   */
  lemma RenderSucceeds(store: seq<TemplateMetadata>, templateId: string, values: Option<Values>, engine: Engine)
    ensures RenderResult(store, templateId, values, engine).Ok? <==>
      && Registered(store, templateId)
      && var template := GetTemplate(store, templateId).value;
      && engine.parseError(template.content).None?
      && (forall i :: 0 <= i < |template.variables| ==>
            CheckVariable(template.variables[i], ValuesOrEmpty(values)).None?)
      && Emit(engine, template.content, Bindings(template.variables, ValuesOrEmpty(values))).Ok?
    ensures RenderResult(store, templateId, values, engine).Ok? ==>
      var template := GetTemplate(store, templateId).value;
      var html := engine.evaluate(template.content, Bindings(template.variables, ValuesOrEmpty(values)));
      && html.Ok?
      && engine.minify(html.value).Ok?
      && RenderResult(store, templateId, values, engine) == Ok(engine.minify(html.value).value)
  {
  }

  /**
   * Once the context is resolved, a failure of Twig's render or of the
   * minifier with message `message` reaches the caller wrapped with the template id.
   */
  lemma RenderEngineFailureIsWrapped(
    store: seq<TemplateMetadata>, templateId: string, values: Option<Values>, engine: Engine,
    template: EmailTemplate, message: string)
    requires GetTemplate(store, templateId) == Ok(template)
    requires engine.parseError(template.content).None?
    requires forall i :: 0 <= i < |template.variables| ==>
               CheckVariable(template.variables[i], ValuesOrEmpty(values)).None?
    requires var html := engine.evaluate(template.content, Bindings(template.variables, ValuesOrEmpty(values)));
             html == Err(message) || (html.Ok? && engine.minify(html.value) == Err(message))
    ensures RenderResult(store, templateId, values, engine) == Err(RenderFailed(templateId, EngineFailure(message)))
  {
  }

  /** The "welcome" template: one required variable `name`. */
  function Welcome(): EmailTemplate {
    EmailTemplate("Hello {{name}}", [("name", VariableDefinition(Undefined, true, false))], None, None, None, None)
  }

  /** A template whose `discount` is a constant with default 10. */
  function Discount(): EmailTemplate {
    EmailTemplate("{{ discount|format_currency }}", [("discount", VariableDefinition(Number(10.0), false, true))],
                  None, None, None, None)
  }

  lemma WelcomeExample(engine: Engine)
    requires engine.parseError(Welcome().content).None?
    ensures var store := [TemplateMetadata("welcome", Welcome())];
      && RenderResult(store, "welcome", Some(map["name" := Str("Ada")]), engine)
         == CatchRenderError("welcome", Emit(engine, Welcome().content, map["name" := Str("Ada")]))
      && RenderResult(store, "welcome", None, engine) == Err(TemplateVariableValueNotProvided("name"))
      && RenderResult(store, "welcome", Some(map["name" := Str("")]), engine)
         == CatchRenderError("welcome", Emit(engine, Welcome().content, map["name" := Null]))
  {
    var store := [TemplateMetadata("welcome", Welcome())];
    assert store[0].id == "welcome";
  }

  lemma DiscountExample(engine: Engine)
    requires engine.parseError(Discount().content).None?
    ensures var store := [TemplateMetadata("offer", Discount())];
      && RenderResult(store, "offer", None, engine)
         == CatchRenderError("offer", Emit(engine, Discount().content, map["discount" := Number(10.0)]))
      && RenderResult(store, "offer", Some(map["discount" := Number(5.0)]), engine)
         == Err(RenderFailed("offer", TemplateVariableIsConstant("discount")))
  {
    var store := [TemplateMetadata("offer", Discount())];
    assert store[0].id == "offer";
  }

  lemma SenderWithoutAuthorizationExample()
    ensures var from := EmailAddress("a@b.com", PlainAddress);
            var template := EmailTemplate("", [], Some(EmailEnvelope(Some(from), None, None, None)), None, None, None);
            AuthorizationUserOf("t", template) == Err(FromEmailAddressNotAuthorized("a@b.com"))
  {
  }
}
