# Email template registry and renderer, in Dafny

This project models the `EmailTemplateFactory` of the mailpress service
(`src/email-template-factory.ts`). It holds an in-memory registry of email
templates, each stored under a string id. The factory renders a template by
looking it up, checking the caller's variable values against the template's
declarations, evaluating the template with Twig and minifying the HTML. It also
reports a template's envelope and its authorization user.

Layout:

- `wrappers.dfy`: `Option` and `Result`. They replace the source's exceptions.
- `js_values.dfy`: JavaScript values, their truthiness, and `||`.
- `templates.dfy`: `EmailTemplate`, `VariableDefinition`, `EmailEnvelope`,
  `EmailAddress`, the registry entry, the errors, and the `Engine`.
  The `Engine` is the two foreign libraries (Twig and html-minifier) given as
  function values.
- `registry.dfy`: the lookups as functions of the entry list, and the
  `TemplateRegistry` class. This class stands for the static `templates`
  array, and its `CreateTemplate` appends to it.
- `variables.dfy`: `getContext`. It has a specification (`ResolveContext`)
  and the loop method `GetContext` proved against it.
- `renderer.dfy`: `renderTemplate`, `render`'s catch block, and the
  `EmailTemplateFactory` handle with `Open`, `Render`, `GetEnvelope` and
  `GetAuthorizationUser`.

Two orderings in the code decide which error a caller sees:

- `Twig.twig` compiles the template source
  (src/email-template-factory.ts:184) before the context is built (:186). A
  template that fails to compile therefore fails first, whatever values are
  passed (`RenderCompileErrorFirst`).
- `render` rethrows only `TemplateNotFoundError`, `EnvelopeNotFoundError` and
  `TemplateVariableValueNotProvidedError` (:211-215).
  `TemplateVariableIsConstantError` is not in that list. A constant override
  therefore reaches the caller wrapped in the generic render error
  (`RenderConstantOverrideIsWrapped`).

## Model

| member | source | states |
|---|---|---|
| `Registry.Find` | src/email-template-factory.ts:84-86 | finds nothing exactly when no entry has the id; otherwise finds the first entry with that id |
| `Registry.GetTemplateMetadata` | src/email-template-factory.ts:83-93 | succeeds exactly when the id is registered, else fails with TemplateNotFound(id); the entry has that id and is in the store; with unique ids it is the entry registered under the id |
| `Registry.GetTemplate` | src/email-template-factory.ts:114-116 | succeeds exactly when the id is registered, else TemplateNotFound(id); the returned template is one registered under that id |
| `Registry.GetTemplates` | src/email-template-factory.ts:118-122 | one template per entry, in registration order |
| `Registry.FindAfterAppend` | src/email-template-factory.ts:83-112 | appending an entry leaves the lookup of an already-registered id unchanged; an unregistered id then finds the new entry exactly when the ids match |
| `Registry.GetTemplateStable` | src/email-template-factory.ts:83-116 | once an id is registered, any later registrations leave its lookup result unchanged (the registry is append-only) |
| `Registry.RegisterThenGet` | src/email-template-factory.ts:99-116 | after registering a fresh id, looking it up returns the same template, and every other id looks up as before |
| `Registry.GetTemplatesAfterRegister` | src/email-template-factory.ts:99-122 | a registration adds exactly its template at the end of the listing |
| `Registry.TemplateRegistry.constructor` | src/email-template-factory.ts:81 | the registry starts empty, with unique ids |
| `Registry.TemplateRegistry.CreateTemplate` | src/email-template-factory.ts:99-112 | a taken id fails with TemplateAlreadyExists and leaves the registry unchanged; otherwise exactly one entry (id, template) is appended, the same template is returned, ids stay unique and the id now looks up to that template |
| `Variables.CheckVariable` | src/email-template-factory.ts:149-161 | fails with TemplateVariableIsConstant exactly when the variable is constant and its key is supplied, whatever its default or the supplied value; fails with TemplateVariableValueNotProvided exactly when it is required, not constant and its key is absent; a supplied falsy value passes the required check |
| `Variables.Resolved` | src/email-template-factory.ts:163-165 | the bound value is the supplied value if truthy, else the default if truthy, else null |
| `Variables.FirstFailure` | src/email-template-factory.ts:145-161 | there is no failure exactly when every declaration passes its checks; a failure is a constant-override or missing-value error naming a declared variable |
| `Variables.FirstFailureAt` | src/email-template-factory.ts:145-161 | the first declaration, in declaration order, that fails its checks decides the error |
| `Variables.Bindings` | src/email-template-factory.ts:143-167 | the context's keys are exactly the declared names |
| `Variables.ResolveContext` | src/email-template-factory.ts:139-173 | succeeds exactly when every declaration passes; the context then has exactly the declared names as keys; an error is a constant-override or missing-value error naming a declared variable |
| `Variables.GetContext` | src/email-template-factory.ts:139-173 | the loop returns exactly what ResolveContext specifies: the first failing declaration's error, or the full context |
| `Variables.BindingsAt` | src/email-template-factory.ts:163-165 | with distinct names, each declared name is bound to its resolved value |
| `Variables.ConstantOverrideFails` | src/email-template-factory.ts:150-152 | supplying a constant variable fails resolution, with TemplateVariableIsConstant(name) when no earlier declaration fails |
| `Variables.RequiredMissingFails` | src/email-template-factory.ts:155-161 | omitting a required, non-constant variable fails resolution, with TemplateVariableValueNotProvided(name) when no earlier declaration fails |
| `Variables.ResolvedContextBindings` | src/email-template-factory.ts:143-167 | on success every declared name is bound to `values[name] \|\| defaultValue \|\| null` |
| `Variables.UndeclaredValuesIgnored` | src/email-template-factory.ts:145-167 | two value maps that agree on the declared names resolve to the same result, so extra keys are ignored |
| `Variables.NoVariablesEmptyContext` | src/email-template-factory.ts:143-172 | a template without variables gets the empty context |
| `Renderer.RenderedTemplate` | src/email-template-factory.ts:175-191 | an unregistered id fails with TemplateNotFound; every failure is not-found, an engine failure, or a variable error; a registered template that compiles and whose context resolves yields Twig's rendering of that context, then minified |
| `Renderer.RenderResult` | src/email-template-factory.ts:207-223 | an unregistered id fails with TemplateNotFound unchanged; every error is a rethrown one or RenderFailed(templateId, cause) with a cause that is not rethrown; TemplateVariableIsConstant never reaches the caller unwrapped; success is exactly renderTemplate's success, with the same output |
| `Renderer.AuthorizationUserOf` | src/email-template-factory.ts:244-256 | succeeds exactly when the template has an authorization user, and returns it; otherwise FromEmailAddressNotAuthorized(from.value) exactly when the envelope has a sender, else the generic error naming the template |
| `Renderer.EmailTemplateFactory.Open` | src/email-template-factory.ts:196-205 | fails with TemplateNotFound exactly when the id is unknown; otherwise a fresh handle bound to the id and the registered template |
| `Renderer.EmailTemplateFactory.RenderTemplate` | src/email-template-factory.ts:175-191 | returns what RenderedTemplate specifies for the current registry |
| `Renderer.EmailTemplateFactory.Render` | src/email-template-factory.ts:207-223 | returns what RenderResult specifies; absent values are treated as the empty map |
| `Renderer.EmailTemplateFactory.GetEnvelope` | src/email-template-factory.ts:225-235 | fails with TemplateNotFound exactly when the id is not registered; for a valid handle it returns the template's envelope unchanged, possibly absent |
| `Renderer.EmailTemplateFactory.GetAuthorizationUser` | src/email-template-factory.ts:237-257 | an unregistered id fails with TemplateNotFound; for a valid handle the result is the three-way decision of AuthorizationUserOf |
| `Renderer.FactoryStaysValid` | src/email-template-factory.ts:196-205 | a handle stays valid across later registrations, because the registry only grows |
| `Renderer.RenderMissingRequiredPassesThrough` | src/email-template-factory.ts:207-216 | a missing required value fails render with TemplateVariableValueNotProvided(name), unwrapped |
| `Renderer.RenderConstantOverrideIsWrapped` | src/email-template-factory.ts:207-221 | a supplied constant fails render with RenderFailed(templateId, TemplateVariableIsConstant(name)) |
| `Renderer.RenderCompileErrorFirst` | src/email-template-factory.ts:184-186 | a template that Twig cannot compile fails with the wrapped engine error before any variable check |
| `Renderer.RenderIgnoresUndeclaredValues` | src/email-template-factory.ts:186 | render's result does not depend on values under undeclared names |
| `Renderer.RenderSucceeds` | src/email-template-factory.ts:175-191 | render succeeds exactly when the template is registered and compiles, every declaration passes, and Twig and the minifier succeed on the resolved context; the output is then the minifier's result on Twig's rendering of the resolved context |
| `Renderer.RenderEngineFailureIsWrapped` | src/email-template-factory.ts:188-190 | once the context resolves, a failure of Twig's render or of the minifier with message m gives RenderFailed(templateId, EngineFailure(m)) |
| `Renderer.WelcomeExample` | src/email-template-factory.ts:139-191 | "welcome" with a required `name`: rendering with "Ada" renders the context {name: "Ada"}; without values it fails with TemplateVariableValueNotProvided("name"); with "" it renders name as null |
| `Renderer.DiscountExample` | src/email-template-factory.ts:139-221 | a constant `discount` with default 10 renders with 10 when no values are passed; supplying 5 fails with the wrapped constant-override error |
| `Renderer.SenderWithoutAuthorizationExample` | src/email-template-factory.ts:244-249 | a sender "a@b.com" and no authorization user fails with FromEmailAddressNotAuthorized("a@b.com") |

## Left out

- Twig and html-minifier are foreign libraries. They are the uninterpreted
  function values of `Engine`: compile errors, render, and minify. A throw
  from any of them is `EngineFailure`. No property of minification (such as
  idempotence) is assumed.
- The `format_currency` filter (src/email-template-factory.ts:4-9) is
  locale-dependent number formatting and is not modelled. Its currency code
  is the first filter parameter, and "EUR" when none is given.
- Error messages are not modelled. Errors are constructors that carry the id,
  name or address. The two generic `Error`s of the source are
  `RenderFailed(templateId, cause)` and `AuthorizationUserMissing(templateId)`.
  The errors module is not part of this model, so `EnvelopeNotFound` carries
  nothing. Nothing in the core throws it; it appears only in `render`'s
  rethrow list.
- `getAllTemplatesMetadata` has no member of its own. It returns a copy of
  the array, and Dafny sequences are values, so `GetTemplates` maps over the
  store itself. The copy only protects the array itself. The templates in it
  are still shared, as the next line says.
- Shared template objects are not modelled. The source stores the caller's
  template object by reference (src/email-template-factory.ts:104-109), and
  `createTemplate` returns that same object (:111). `getTemplate`,
  `getTemplates` and `getEnvelope` hand out the same objects (:115, :119-121,
  :232-234). So a caller who changes a returned template or envelope changes
  the registered entry. In the model, templates and envelopes are immutable
  values. Once registered, a template never changes, and the lemmas that a
  lookup stays stable rely on that.
- The static array is process-wide state. Here it is a `TemplateRegistry`
  object that the handle references. Concurrent registration is not modelled.
- A `for...in` loop visits the variables object's own keys in JavaScript
  property order. The model is given that order as the sequence's order.
  Inherited keys and the `in` operator's prototype-chain lookups are not
  modelled: `name in values` is map membership.
- Absent optional flags and an absent default are modelled as `false` and
  `Undefined`, which is how the source reads them. An absent `variables` is
  the empty sequence.
- `render(null)` lies outside the parameter's declared type and is not
  modelled. (A `null` here would make the `in` test throw.)
- The `if (!template)` checks at src/email-template-factory.ts:180, 199, 228
  and 240 cannot fire in the model: a registered template is always an object.
- Infinite numbers and symbols are not separate `Value`s. Both are truthy,
  like `Object`.
- Duplicate variable names: if a name were declared twice, the last binding
  would win.
  JavaScript object keys are never duplicated, so the per-name lemmas assume
  distinct names.
