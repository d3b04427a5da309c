/**
 * The parts of a parsed deployment template that the code lenses and the
 * linked-template lookup read. Parsing itself is not part of this model; these
 * are the shapes its results take.
 */
module Templates {
  import opened Wrappers

  /** A URI in its string form. */
  type Uri = string

  /** A region of document text: start offset and length. */
  datatype Span = Span(startIndex: int, length: int)

  /** A JSON value: what `toFullFriendlyString` renders it as, and where it lies. */
  datatype Value = Value(friendlyString: string, span: Span)

  /** A JSON string value with its quotes removed. */
  datatype StringValue = StringValue(unquotedValue: string, span: Span)

  /** One entry of a template's "parameters" section. */
  datatype ParameterDefinition = ParameterDefinition(nameValue: StringValue, defaultValue: Option<Value>)

  /**
   * The kind of a template scope. Only the two nested-deployment kinds are
   * told apart by the code lenses; every other kind is carried by name.
   */
  datatype ScopeKind =
    | NestedDeploymentWithInnerScope
    | NestedDeploymentWithOuterScope
    | OtherScopeKind(name: string)

  /** A scope of a template document: its kind, its document and its parameter definitions. */
  datatype TemplateScope = TemplateScope(
    scopeKind: ScopeKind,
    documentUri: Uri,
    parameterDefinitions: seq<ParameterDefinition>)

  /** A parsed deployment template document. */
  datatype DeploymentTemplateDoc = DeploymentTemplateDoc(documentUri: Uri, topLevelScope: TemplateScope)

  /** What a parameter values source knows about one parameter: a given value or a KeyVault reference. */
  datatype ParameterValueDefinition = ParameterValueDefinition(value: Option<Value>, reference: Option<Value>)

  /**
   * A source of parameter values (a parameter file): its document, its lookup of a
   * parameter by name and the name span of its "parameters" property, if any.
   */
  datatype ParameterValuesSource = ParameterValuesSource(
    documentUri: Uri,
    getParameterValue: string -> Option<ParameterValueDefinition>,
    parameterValuesPropertyNameSpan: Option<Span>)
}
