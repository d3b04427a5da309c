/**
 * A linked-template reference as the language server reports it, and the
 * lookup of a linked template's parameter definitions among the templates
 * already loaded.
 *
 * The loaded templates sit in a map from normalised URI keys to documents.
 * Parsing a URI string and normalising the parsed URI are collaborators not
 * part of this model; the lookup takes them as function-typed parameters, so
 * every property below holds whatever their rules are.
 */
module LinkedTemplates {
  import opened Wrappers
  import opened Templates

  /**
   * How far loading a linked file got; `LoadStateCode` gives the wire encoding.
   * Which number belongs to which state is fixed by that function's table; the
   * contracts below hold for any numbering of the states by 0..5.
   */
  datatype LinkedFileLoadState =
    | NotLoaded
    | Loading
    | SuccessfullyLoaded
    | LoadFailed
    | TooDeep
    | NotSupported

  function LoadStateCode(state: LinkedFileLoadState): (n: nat)
    ensures n <= 5
  {
    match state
    case NotLoaded => 0
    case Loading => 1
    case SuccessfullyLoaded => 2
    case LoadFailed => 3
    case TooDeep => 4
    case NotSupported => 5
  }

  function LoadStateFromCode(n: int): (r: Option<LinkedFileLoadState>)
    ensures r.Some? <==> 0 <= n <= 5
  {
    if n == 0 then Some(NotLoaded)
    else if n == 1 then Some(Loading)
    else if n == 2 then Some(SuccessfullyLoaded)
    else if n == 3 then Some(LoadFailed)
    else if n == 4 then Some(TooDeep)
    else if n == 5 then Some(NotSupported)
    else None
  }

  /** Every state has its own number, and every number in 0..5 stands for exactly one state. */
  lemma LoadStateCodeRoundTrip(state: LinkedFileLoadState, n: int)
    ensures LoadStateFromCode(LoadStateCode(state)) == Some(state)
    ensures LoadStateFromCode(n).Some? ==> LoadStateCode(LoadStateFromCode(n).value) == n
  {
  }

  /** A parameter value supplied at a link site; its content is not interpreted here. */
  datatype LinkParameterValue = LinkParameterValue(json: string)

  /** One link from a parent template to a linked file. */
  datatype LinkedTemplateReference = LinkedTemplateReference(
    id: string,
    fullUri: string,
    originalPath: string,
    lineNumberInParent: int,
    columnNumberInParent: int,
    parameterValues: map<string, LinkParameterValue>,
    loadState: LinkedFileLoadState,
    loadErrorMessage: Option<string>)

  /**
   * What the lookup gives: the parameter definitions, or the error that strict
   * URI parsing throws (and the lookup does not catch) for a malformed `fullUri`.
   */
  datatype LookupOutcome =
    | Definitions(definitions: seq<ParameterDefinition>)
    | UriParseError

  /**
   * The parameter definitions of the linked template, taken from the loaded
   * templates; none when that template has not been loaded. `parseUri` is strict
   * URI parsing (None where it throws), `normalize` the map's key normalisation.
   * Nothing is loaded and the map is only read.
   */
  function GetParameterDefinitionsFromLinkedTemplate<U, K>(
    linkedTemplate: LinkedTemplateReference,
    loadedTemplates: map<K, DeploymentTemplateDoc>,
    parseUri: string -> Option<U>,
    normalize: U -> K): (r: LookupOutcome)
    ensures r.UriParseError? <==> parseUri(linkedTemplate.fullUri).None?
    ensures r.Definitions? && r.definitions != [] ==>
      exists key :: key in loadedTemplates && loadedTemplates[key].topLevelScope.parameterDefinitions == r.definitions
  {
    var uri := parseUri(linkedTemplate.fullUri);
    if uri.None? then UriParseError
    else
      var key := normalize(uri.value);
      if key in loadedTemplates then Definitions(loadedTemplates[key].topLevelScope.parameterDefinitions)
      else Definitions([])
  }

  /** A loaded linked template gives exactly its top-level parameter definitions; an absent one gives none. */
  lemma LookupFindsLoadedTemplate<U, K>(
    linkedTemplate: LinkedTemplateReference,
    loadedTemplates: map<K, DeploymentTemplateDoc>,
    parseUri: string -> Option<U>,
    normalize: U -> K)
    requires parseUri(linkedTemplate.fullUri).Some?
    ensures var key := normalize(parseUri(linkedTemplate.fullUri).value);
            var r := GetParameterDefinitionsFromLinkedTemplate(linkedTemplate, loadedTemplates, parseUri, normalize);
            && (key in loadedTemplates ==> r == Definitions(loadedTemplates[key].topLevelScope.parameterDefinitions))
            && (key !in loadedTemplates ==> r == Definitions([]))
  {
  }

  /** Only the reference's `fullUri` matters: two references with the same one look up the same definitions. */
  lemma LookupDependsOnlyOnFullUri<U, K>(
    a: LinkedTemplateReference,
    b: LinkedTemplateReference,
    loadedTemplates: map<K, DeploymentTemplateDoc>,
    parseUri: string -> Option<U>,
    normalize: U -> K)
    requires a.fullUri == b.fullUri
    ensures GetParameterDefinitionsFromLinkedTemplate(a, loadedTemplates, parseUri, normalize)
         == GetParameterDefinitionsFromLinkedTemplate(b, loadedTemplates, parseUri, normalize)
  {
  }

  /** Two URI spellings that parse and normalise to the same key look up the same definitions. */
  lemma LookupRespectsNormalization<U, K>(
    a: LinkedTemplateReference,
    b: LinkedTemplateReference,
    loadedTemplates: map<K, DeploymentTemplateDoc>,
    parseUri: string -> Option<U>,
    normalize: U -> K)
    requires parseUri(a.fullUri).Some? && parseUri(b.fullUri).Some?
    requires normalize(parseUri(a.fullUri).value) == normalize(parseUri(b.fullUri).value)
    ensures GetParameterDefinitionsFromLinkedTemplate(a, loadedTemplates, parseUri, normalize)
         == GetParameterDefinitionsFromLinkedTemplate(b, loadedTemplates, parseUri, normalize)
  {
  }
}
