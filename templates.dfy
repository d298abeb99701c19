/**
 * The data handled by the email template registry: template definitions,
 * their variable declarations, envelopes and authorization users, the
 * errors the registry and renderer raise, and the two foreign libraries
 * the renderer calls (the Twig template engine and the HTML minifier).
 */
module Templates {
  import opened Wrappers
  import opened JsValues

  /** The three kinds of address an envelope may carry (EMAIL_ADDRESS, EMAIL_ID, USER_ID). */
  datatype EmailAddressType = PlainAddress | EmailId | UserId

  datatype EmailAddress = EmailAddress(value: string, addressType: EmailAddressType)

  datatype EmailEnvelope = EmailEnvelope(
    from: Option<EmailAddress>,
    to: Option<seq<EmailAddress>>,
    subject: Option<string>,
    replyTo: Option<EmailAddress>)

  datatype AuthorizationUser = AuthorizationUser(id: string, authorization: string)

  /**
   * One variable declaration. An absent `defaultValue` reads as Undefined and
   * an absent `isRequired` / `isConstant` as false, which is how the source
   * treats the missing optional properties.
   */
  datatype VariableDefinition = VariableDefinition(defaultValue: Value, isRequired: bool, isConstant: bool)

  /**
   * The `variables` object of a template: its own properties in the order a
   * `for...in` loop enumerates them. An absent `variables` is the empty sequence.
   */
  type TemplateVariables = seq<(string, VariableDefinition)>

  datatype EmailTemplate = EmailTemplate(
    content: string,
    variables: TemplateVariables,
    envelope: Option<EmailEnvelope>,
    verifyReplyTo: Option<bool>,
    authorizationUser: Option<AuthorizationUser>,
    confirmationTemplateId: Option<string>)

  /** One registry entry. */
  datatype TemplateMetadata = TemplateMetadata(id: string, template: EmailTemplate)

  /** Caller-supplied variable values, and the context handed to the template engine. */
  type Values = map<string, Value>
  type Context = map<string, Value>

  /**
   * Everything the core can throw. The two generic `Error`s of the source
   * (the render wrapper and the missing authorization user) are told apart by
   * constructor; a failure inside Twig or the minifier is EngineFailure.
   */
  datatype Error =
    | TemplateAlreadyExists(id: string)
    | TemplateNotFound(id: string)
    | TemplateVariableValueNotProvided(name: string)
    | TemplateVariableIsConstant(name: string)
    | EnvelopeNotFound
    | FromEmailAddressNotAuthorized(address: string)
    | EngineFailure(message: string)
    | RenderFailed(templateId: string, cause: Error)
    | AuthorizationUserMissing(templateId: string)

  /**
   * The foreign libraries, as uninterpreted function values:
   * `parseError` is the error Twig raises when it compiles the template
   * source (None when it compiles), `evaluate` renders the source against a
   * context, and `minify` is html-minifier with the fixed option set.
   */
  datatype Engine = Engine(
    parseError: string -> Option<string>,
    evaluate: (string, Context) -> Result<string, string>,
    minify: string -> Result<string, string>)
}
