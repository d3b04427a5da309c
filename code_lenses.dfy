/**
 * The code lenses shown in a deployment template: the current parameter file,
 * the "select parameter file" action, the value of each parameter at its
 * definition, and the display-only lenses over nested, linked and top-level
 * deployments.
 *
 * A lens whose `resolve` assigns its command is a class with a mutable
 * `command` field; each `Resolve` method is proved against a pure function of
 * its inputs, and the lemmas at the end of the module state what those
 * functions promise. The file-system probe (`pathExists`) and the parameter
 * values provider are inputs to `Resolve`; the collaborators that compute a
 * relative path or a friendly scope name are function-typed parameters.
 */
module CodeLenses {
  import opened Wrappers
  import opened Templates

  /** One argument of a lens command. */
  datatype CommandArgument =
    | DocumentUri(uri: Uri)
    | GotoParameterValue(args: GotoParameterValueArgs)

  /** Where the "go to parameter value" command navigates. */
  datatype GotoParameterValueArgs =
    | InParameterFile(parameterFileUri: Uri, parameterName: string)
    | InTemplateFile(documentUri: Uri, span: Span)

  /** The command attached to a lens: the title shown, the command id and its arguments. */
  datatype Command = Command(title: string, command: string, arguments: seq<CommandArgument>)

  /** A lens whose command is fixed when it is created. */
  datatype StaticCodeLens = StaticCodeLens(scope: TemplateScope, span: Span, command: Command)

  /**
   * How the parameter values provider answered: it resolved (to a source or,
   * as the call site allows, to nothing), or it threw an error with this message.
   */
  datatype ValuesSourceOutcome =
    | Resolved(source: Option<ParameterValuesSource>)
    | Threw(message: string)

  const OpenParameterFileCommandId := "azurerm-vscode-tools.openParameterFile"
  const SelectParameterFileCommandId := "azurerm-vscode-tools.selectParameterFile"
  const GotoParameterValueCommandId := "azurerm-vscode-tools.codeLens.gotoParameterValue"

  const NotFoundSuffix := " $(error) Not found"
  const ChangeTitle := "Change..."
  const SelectTitle := "Select or create a parameter file to enable full validation..."

  const KeyVaultReferenceTitle := "Value: (KeyVault reference)"
  const GivenValuePrefix := "Value: "
  const DefaultValueTitle := "Using default value"
  const NoValueFoundTitle := "$(warning) No value found"
  const ParameterFileNotFound := "$(error) Parameter file not found"
  const CouldNotOpenPrefix := "$(error) Could not open parameter file: "
  const NoParameterValueTitle := "Could not find parameter value"

  /** Longest value title shown before it is cut, counted in chars (UTF-16 units for text in the Basic Multilingual Plane). */
  const MaxCharactersInValue: nat := 120
  const Ellipsis := "..."

  const LinkedTemplateTitle := "Linked template to a resource group"
  const InnerScopedNestedPrefix := "Nested template (inner-scoped) to a "
  const OuterScopedNestedPrefix := "Nested template (outer-scoped) to a "
  const TopLevelDeploymentPrefix := "Deployment to a "
  const ParameterFilePrefix := "Parameter file: \""

  predicate EndsWith(s: string, suffix: string)
  {
    |suffix| <= |s| && s[|s| - |suffix|..] == suffix
  }

  predicate StartsWith(s: string, prefix: string)
  {
    |prefix| <= |s| && s[..|prefix|] == prefix
  }

  // ---------------------------------------------------------------------------
  // The current parameter file

  /** The title naming the parameter file: its relative path, quoted. */
  function ParameterFileTitle(relativePath: string): (t: string)
    ensures StartsWith(t, ParameterFilePrefix) && EndsWith(t, "\"")
    ensures |t| == |ParameterFilePrefix| + |relativePath| + 1 && t[|ParameterFilePrefix|..|t| - 1] == relativePath
  {
    ParameterFilePrefix + relativePath + "\""
  }

  /** The command of the current-parameter-file lens once it has resolved. */
  function ShowCurrentParameterFileCommand(templateUri: Uri, relativePath: string, parameterFileExists: bool): (c: Command)
    ensures StartsWith(c.title, ParameterFileTitle(relativePath))
    ensures |c.title| == |ParameterFileTitle(relativePath)| + (if parameterFileExists then 0 else |NotFoundSuffix|)
    ensures c.command == OpenParameterFileCommandId && c.arguments == [DocumentUri(templateUri)]
  {
    var title := ParameterFileTitle(relativePath);
    Command(if parameterFileExists then title else title + NotFoundSuffix,
            OpenParameterFileCommandId, [DocumentUri(templateUri)])
  }

  /** A lens naming the current parameter file, which opens it when clicked. */
  class ShowCurrentParameterFileCodeLens {
    const scope: TemplateScope
    const span: Span
    const parameterFileUri: Option<Uri>
    var command: Option<Command>

    constructor (scope: TemplateScope, span: Span, parameterFileUri: Option<Uri>)
      ensures this.scope == scope && this.span == span && this.parameterFileUri == parameterFileUri
      ensures command == None
    {
      this.scope := scope;
      this.span := span;
      this.parameterFileUri := parameterFileUri;
      command := None;
    }

    /**
     * Resolves the lens. `relativePath` is the collaborator that writes the
     * parameter file's path relative to the template; `parameterFileExists` is
     * what probing the file system for the parameter file answers.
     */
    method Resolve(relativePath: (Uri, Uri) -> string, parameterFileExists: bool) returns (resolved: bool)
      modifies this
      ensures resolved <==> parameterFileUri.Some?
      ensures resolved ==> command == Some(ShowCurrentParameterFileCommand(
        scope.documentUri, relativePath(scope.documentUri, parameterFileUri.value), parameterFileExists))
      ensures !resolved ==> command == old(command)
    {
      if parameterFileUri.Some? {
        var paramFile := relativePath(scope.documentUri, parameterFileUri.value);
        command := Some(Command(ParameterFileTitle(paramFile), OpenParameterFileCommandId, [DocumentUri(scope.documentUri)]));
        if !parameterFileExists {
          command := Some(command.value.(title := command.value.title + NotFoundSuffix));
        }
        return true;
      }
      return false;
    }
  }

  // ---------------------------------------------------------------------------
  // Selecting a parameter file

  /** The command of the select-parameter-file lens. */
  function SelectParameterFileCommand(templateUri: Uri, parameterFileUri: Option<Uri>): (c: Command)
    ensures c.title == ChangeTitle <==> parameterFileUri.Some?
    ensures c.title == SelectTitle <==> parameterFileUri.None?
    ensures c.command == SelectParameterFileCommandId && c.arguments == [DocumentUri(templateUri)]
  {
    Command(if parameterFileUri.Some? then ChangeTitle else SelectTitle,
            SelectParameterFileCommandId, [DocumentUri(templateUri)])
  }

  /** A lens that changes the template's parameter file, or associates one. */
  class SelectParameterFileCodeLens {
    const scope: TemplateScope
    const span: Span
    const parameterFileUri: Option<Uri>
    var command: Option<Command>

    constructor (scope: TemplateScope, span: Span, parameterFileUri: Option<Uri>)
      ensures this.scope == scope && this.span == span && this.parameterFileUri == parameterFileUri
      ensures command == None
    {
      this.scope := scope;
      this.span := span;
      this.parameterFileUri := parameterFileUri;
      command := None;
    }

    method Resolve() returns (resolved: bool)
      modifies this
      ensures resolved
      ensures command == Some(SelectParameterFileCommand(scope.documentUri, parameterFileUri))
    {
      var title: string;
      if parameterFileUri.Some? {
        title := ChangeTitle;
      } else {
        title := SelectTitle;
      }
      command := Some(Command(title, SelectParameterFileCommandId, [DocumentUri(scope.documentUri)]));
      return true;
    }
  }

  // ---------------------------------------------------------------------------
  // The value of a parameter, shown at its definition

  /** The title as displayed: cut to MaxCharactersInValue characters and marked with "..." when longer. */
  function Truncated(title: string): (r: string)
    ensures |r| <= MaxCharactersInValue + |Ellipsis|
    ensures |title| <= MaxCharactersInValue ==> r == title
    ensures |title| > MaxCharactersInValue ==>
      |r| == MaxCharactersInValue + |Ellipsis| && StartsWith(r, title[..MaxCharactersInValue]) && EndsWith(r, Ellipsis)
  {
    if |title| > MaxCharactersInValue then title[..MaxCharactersInValue] + Ellipsis else title
  }

  /** The message recorded when the parameter values provider throws `message`. */
  function LoadErrorMessage(parameterFileUri: Option<Uri>, parameterFileExists: bool, message: string): (m: string)
    ensures parameterFileUri.Some? && !parameterFileExists ==> m == ParameterFileNotFound
    ensures parameterFileUri.Some? && parameterFileExists ==>
      StartsWith(m, CouldNotOpenPrefix) && m[|CouldNotOpenPrefix|..] == message
    ensures parameterFileUri.None? ==> m == message
  {
    if parameterFileUri.Some? then
      if !parameterFileExists then ParameterFileNotFound else CouldNotOpenPrefix + message
    else
      message
  }

  /** The error message of the resolution, if the provider threw. */
  function ErrorMessage(parameterFileUri: Option<Uri>, outcome: ValuesSourceOutcome, parameterFileExists: bool): (e: Option<string>)
    ensures e.Some? <==> outcome.Threw?
    ensures outcome.Threw? ==> e.value == LoadErrorMessage(parameterFileUri, parameterFileExists, outcome.message)
  {
    match outcome
    case Resolved(_) => None
    case Threw(message) => Some(LoadErrorMessage(parameterFileUri, parameterFileExists, message))
  }

  /** The title drawn from what the values source holds for the parameter. */
  function ValueTitle(definition: ParameterDefinition, param: Option<ParameterValueDefinition>): (t: string)
    ensures t != ""
  {
    if param.Some? && param.value.reference.Some? then KeyVaultReferenceTitle
    else if param.Some? && param.value.value.Some? then GivenValuePrefix + param.value.value.value.friendlyString
    else if definition.defaultValue.Some? then DefaultValueTitle
    else NoValueFoundTitle
  }

  /** The lens title before truncation. */
  function UntruncatedTitle(definition: ParameterDefinition, parameterFileUri: Option<Uri>,
                            outcome: ValuesSourceOutcome, parameterFileExists: bool): (t: string)
    ensures outcome.Resolved? && outcome.source.Some? ==>
      t == ValueTitle(definition, outcome.source.value.getParameterValue(definition.nameValue.unquotedValue))
    ensures outcome.Resolved? && outcome.source.None? ==> t == NoParameterValueTitle
    ensures outcome.Threw? ==> t == LoadErrorMessage(parameterFileUri, parameterFileExists, outcome.message)
  {
    var errorMessage := ErrorMessage(parameterFileUri, outcome, parameterFileExists);
    var title: Option<string> :=
      if outcome.Resolved? && outcome.source.Some? && !Truthy(errorMessage) then
        Some(ValueTitle(definition, outcome.source.value.getParameterValue(definition.nameValue.unquotedValue)))
      else
        None;
    if !Truthy(title) then errorMessage.GetOr(NoParameterValueTitle) else title.value
  }

  /** The span navigated to in a values source: the value's, else the "parameters" name's, else the top. */
  function FallbackSpan(source: ParameterValuesSource, parameterName: string): (span: Span)
    ensures var param := source.getParameterValue(parameterName);
            && (param.Some? && param.value.value.Some? ==> span == param.value.value.value.span)
            && (!(param.Some? && param.value.value.Some?) && source.parameterValuesPropertyNameSpan.Some? ==>
                  span == source.parameterValuesPropertyNameSpan.value)
            && (!(param.Some? && param.value.value.Some?) && source.parameterValuesPropertyNameSpan.None? ==>
                  span == Span(0, 0))
  {
    var param := source.getParameterValue(parameterName);
    if param.Some? && param.value.value.Some? then param.value.value.value.span
    else source.parameterValuesPropertyNameSpan.GetOr(Span(0, 0))
  }

  /** Where the lens navigates, if anywhere. */
  function NavigationTarget(definition: ParameterDefinition, parameterFileUri: Option<Uri>,
                            outcome: ValuesSourceOutcome): (target: Option<GotoParameterValueArgs>)
    ensures target.Some? <==> parameterFileUri.Some? || (outcome.Resolved? && outcome.source.Some?)
    ensures parameterFileUri.Some? ==> target == Some(InParameterFile(parameterFileUri.value, definition.nameValue.unquotedValue))
    ensures parameterFileUri.None? && target.Some? ==>
      target.value.InTemplateFile? && target.value.documentUri == outcome.source.value.documentUri
  {
    if parameterFileUri.Some? then
      Some(InParameterFile(parameterFileUri.value, definition.nameValue.unquotedValue))
    else if outcome.Resolved? && outcome.source.Some? then
      Some(InTemplateFile(outcome.source.value.documentUri,
                          FallbackSpan(outcome.source.value, definition.nameValue.unquotedValue)))
    else
      None
  }

  /** The command a parameter-definition lens resolves to, or None when `resolve` gives up. */
  function ParameterValueCommand(definition: ParameterDefinition, parameterFileUri: Option<Uri>,
                                 outcome: ValuesSourceOutcome, parameterFileExists: bool): (c: Option<Command>)
    ensures c.Some? ==> c.value.command == GotoParameterValueCommandId
    ensures c.Some? ==> |c.value.title| <= MaxCharactersInValue + |Ellipsis|
  {
    var target := NavigationTarget(definition, parameterFileUri, outcome);
    if target.None? then None
    else Some(Command(Truncated(UntruncatedTitle(definition, parameterFileUri, outcome, parameterFileExists)),
                      GotoParameterValueCommandId, [GotoParameterValue(target.value)]))
  }

  /**
   * The provider of parameter values that a lens consults. Its parameter file
   * can change over the lens's lifetime, so the lens reads it when it resolves.
   */
  class ParameterValuesSourceProvider {
    var parameterFileUri: Option<Uri>

    constructor (parameterFileUri: Option<Uri>)
      ensures this.parameterFileUri == parameterFileUri
    {
      this.parameterFileUri := parameterFileUri;
    }
  }

  /** A lens showing a parameter's value at its definition and navigating to that value. */
  class ParameterDefinitionCodeLens {
    const scope: TemplateScope
    const parameterDefinition: ParameterDefinition
    /** The lens sits on the parameter's name. */
    const span: Span
    const parameterValuesSourceProvider: ParameterValuesSourceProvider
    var command: Option<Command>

    constructor (scope: TemplateScope, parameterDefinition: ParameterDefinition,
                 parameterValuesSourceProvider: ParameterValuesSourceProvider)
      ensures this.scope == scope && this.parameterDefinition == parameterDefinition
      ensures this.parameterValuesSourceProvider == parameterValuesSourceProvider
      ensures span == parameterDefinition.nameValue.span
      ensures command == None
    {
      this.scope := scope;
      this.parameterDefinition := parameterDefinition;
      this.span := parameterDefinition.nameValue.span;
      this.parameterValuesSourceProvider := parameterValuesSourceProvider;
      command := None;
    }

    /**
     * Resolves the lens. `valuesSource` is how the provider's `getValuesSource`
     * answered; `parameterFileExists` is what probing the parameter file answers
     * (it is consulted only when the provider threw). The provider's parameter
     * file is read as it stands when the lens resolves; the provider is not changed.
     */
    method Resolve(valuesSource: ValuesSourceOutcome, parameterFileExists: bool) returns (resolved: bool)
      modifies this
      ensures var c := ParameterValueCommand(parameterDefinition, parameterValuesSourceProvider.parameterFileUri,
                                             valuesSource, parameterFileExists);
              && (resolved <==> c.Some?)
              && (resolved ==> command == c)
      ensures !resolved ==> command == old(command)
    {
      var parameterFileUri := parameterValuesSourceProvider.parameterFileUri;
      var name := parameterDefinition.nameValue.unquotedValue;
      var paramsSource: Option<ParameterValuesSource> := None;
      var errorMessage: Option<string> := None;
      match valuesSource {
        case Resolved(source) =>
          paramsSource := source;
        case Threw(message) =>
          if parameterFileUri.Some? {
            if !parameterFileExists {
              errorMessage := Some(ParameterFileNotFound);
            } else {
              errorMessage := Some(CouldNotOpenPrefix + message);
            }
          } else {
            errorMessage := Some(message);
          }
      }

      var title: Option<string> := None;
      if paramsSource.Some? && !Truthy(errorMessage) {
        var param := paramsSource.value.getParameterValue(name);
        if param.Some? && param.value.reference.Some? {
          title := Some(KeyVaultReferenceTitle);
        } else if param.Some? && param.value.value.Some? {
          title := Some(GivenValuePrefix + param.value.value.value.friendlyString);
        } else if parameterDefinition.defaultValue.Some? {
          title := Some(DefaultValueTitle);
        } else {
          title := Some(NoValueFoundTitle);
        }
      }

      if !Truthy(title) {
        title := Some(errorMessage.GetOr(NoParameterValueTitle));
      }

      var shown := title.value;
      if |shown| > MaxCharactersInValue {
        shown := shown[..MaxCharactersInValue] + Ellipsis;
      }

      var args: GotoParameterValueArgs;
      if parameterFileUri.Some? {
        args := InParameterFile(parameterFileUri.value, name);
      } else if paramsSource.Some? {
        args := InTemplateFile(paramsSource.value.documentUri, FallbackSpan(paramsSource.value, name));
      } else {
        return false;
      }

      command := Some(Command(shown, GotoParameterValueCommandId, [GotoParameterValue(args)]));
      return true;
    }
  }

  // ---------------------------------------------------------------------------
  // Display-only lenses, whose command is fixed at creation

  /** The lens over a nested deployment: only the inner- and outer-scoped kinds get one. */
  function NestedTemplateCodeLens(scope: TemplateScope, span: Span, friendlyName: TemplateScope -> string): (r: Option<StaticCodeLens>)
    ensures r.Some? <==> scope.scopeKind.NestedDeploymentWithInnerScope? || scope.scopeKind.NestedDeploymentWithOuterScope?
    ensures r.Some? ==> r.value.scope == scope && r.value.span == span
    ensures r.Some? ==> r.value.command.command == "" && r.value.command.arguments == []
    ensures r.Some? ==> EndsWith(r.value.command.title, friendlyName(scope))
    ensures var prefix := if scope.scopeKind.NestedDeploymentWithInnerScope? then InnerScopedNestedPrefix else OuterScopedNestedPrefix;
            r.Some? ==> StartsWith(r.value.command.title, prefix)
                        && |r.value.command.title| == |prefix| + |friendlyName(scope)|
  {
    var friendly := friendlyName(scope);
    match scope.scopeKind
    case NestedDeploymentWithInnerScope =>
      Some(StaticCodeLens(scope, span, Command(InnerScopedNestedPrefix + friendly, "", [])))
    case NestedDeploymentWithOuterScope =>
      Some(StaticCodeLens(scope, span, Command(OuterScopedNestedPrefix + friendly, "", [])))
    case OtherScopeKind(_) =>
      None
  }

  /** The lens over a linked deployment, whose title is a fixed text. */
  function LinkedTemplateCodeLens(scope: TemplateScope, span: Span): (r: StaticCodeLens)
    ensures r.scope == scope && r.span == span
    ensures r.command.command == "" && r.command.arguments == []
    ensures r.command.title == LinkedTemplateTitle
  {
    StaticCodeLens(scope, span, Command(LinkedTemplateTitle, "", []))
  }

  /** The lens over the top-level deployment, naming its deployment scope. */
  function TopLevelDeploymentCodeLens(scope: TemplateScope, span: Span, friendlyName: TemplateScope -> string): (r: StaticCodeLens)
    ensures r.scope == scope && r.span == span
    ensures r.command.command == "" && r.command.arguments == []
    ensures StartsWith(r.command.title, TopLevelDeploymentPrefix) && EndsWith(r.command.title, friendlyName(scope))
    ensures |r.command.title| == |TopLevelDeploymentPrefix| + |friendlyName(scope)|
  {
    StaticCodeLens(scope, span, Command(TopLevelDeploymentPrefix + friendlyName(scope), "", []))
  }

  // ---------------------------------------------------------------------------
  // What the lenses promise

  /** The current-parameter-file title ends in the "not found" marker exactly when the file is missing. */
  lemma NotFoundMarkerIffMissing(templateUri: Uri, relativePath: string, parameterFileExists: bool)
    ensures EndsWith(ShowCurrentParameterFileCommand(templateUri, relativePath, parameterFileExists).title, NotFoundSuffix)
            <==> !parameterFileExists
  {
    var title := ParameterFileTitle(relativePath);
    assert title[|title| - 1] == '"' != NotFoundSuffix[|NotFoundSuffix| - 1];
  }

  /** With a values source available, the title follows a fixed priority of what the source holds. */
  lemma AvailableSourceTitlePriority(definition: ParameterDefinition, parameterFileUri: Option<Uri>,
                                     source: ParameterValuesSource, parameterFileExists: bool)
    ensures var c := ParameterValueCommand(definition, parameterFileUri, Resolved(Some(source)), parameterFileExists);
            var param := source.getParameterValue(definition.nameValue.unquotedValue);
            && c.Some?
            && (param.Some? && param.value.reference.Some? ==> c.value.title == KeyVaultReferenceTitle)
            && (param.Some? && param.value.reference.None? && param.value.value.Some? ==>
                  c.value.title == Truncated(GivenValuePrefix + param.value.value.value.friendlyString))
            && ((param.None? || (param.value.reference.None? && param.value.value.None?)) ==>
                  c.value.title == (if definition.defaultValue.Some? then DefaultValueTitle else NoValueFoundTitle))
  {
  }

  /** When the provider throws, the error message distinguishes a missing file, an unopenable one and no file. */
  lemma ThrownErrorMessage(definition: ParameterDefinition, parameterFileUri: Option<Uri>,
                           message: string, parameterFileExists: bool)
    ensures var t := UntruncatedTitle(definition, parameterFileUri, Threw(message), parameterFileExists);
            && (parameterFileUri.Some? && !parameterFileExists ==> t == ParameterFileNotFound)
            && (parameterFileUri.Some? && parameterFileExists ==> t == CouldNotOpenPrefix + message)
            && (parameterFileUri.None? ==> t == message)
  {
  }

  /**
   * A failed provider still gives a lens when a parameter file is associated
   * (titled with the error), and no lens otherwise: the raw message chosen
   * without a parameter file is never shown.
   */
  lemma ThrownErrorCommand(definition: ParameterDefinition, parameterFileUri: Option<Uri>,
                           message: string, parameterFileExists: bool)
    ensures var c := ParameterValueCommand(definition, parameterFileUri, Threw(message), parameterFileExists);
            && (c.Some? <==> parameterFileUri.Some?)
            && (parameterFileUri.Some? && !parameterFileExists ==> c.value.title == ParameterFileNotFound)
            && (parameterFileUri.Some? && parameterFileExists ==> c.value.title == Truncated(CouldNotOpenPrefix + message))
  {
  }

  /** A provider that resolves to no source leaves the fallback title, and a lens only with a parameter file. */
  lemma MissingSourceTitle(definition: ParameterDefinition, parameterFileUri: Option<Uri>, parameterFileExists: bool)
    ensures var c := ParameterValueCommand(definition, parameterFileUri, Resolved(None), parameterFileExists);
            && (c.Some? <==> parameterFileUri.Some?)
            && (c.Some? ==> c.value.title == NoParameterValueTitle)
  {
  }

  /**
   * Conversely, a shown "Could not find parameter value" title means the provider
   * resolved to no source while a parameter file was associated.
   */
  lemma FallbackTitleOnlyWithoutSource(definition: ParameterDefinition, parameterFileUri: Option<Uri>,
                                       outcome: ValuesSourceOutcome, parameterFileExists: bool)
    requires var c := ParameterValueCommand(definition, parameterFileUri, outcome, parameterFileExists);
             c.Some? && c.value.title == NoParameterValueTitle
    ensures outcome == Resolved(None) && parameterFileUri.Some?
  {
    var t := UntruncatedTitle(definition, parameterFileUri, outcome, parameterFileExists);
    assert Truncated(t)[0] == t[0];
  }

  /** Resolution gives a command exactly when there is a parameter file or a values source. */
  lemma ResolvesIff(definition: ParameterDefinition, parameterFileUri: Option<Uri>,
                    outcome: ValuesSourceOutcome, parameterFileExists: bool)
    ensures ParameterValueCommand(definition, parameterFileUri, outcome, parameterFileExists).Some?
            <==> parameterFileUri.Some? || (outcome.Resolved? && outcome.source.Some?)
  {
  }

  /**
   * With a parameter file the lens navigates into it by parameter name; otherwise
   * into the values source's document, at the value, else at the "parameters"
   * name, else at the top.
   */
  lemma NavigationTargetChoice(definition: ParameterDefinition, parameterFileUri: Option<Uri>,
                               outcome: ValuesSourceOutcome, parameterFileExists: bool)
    ensures var c := ParameterValueCommand(definition, parameterFileUri, outcome, parameterFileExists);
            var name := definition.nameValue.unquotedValue;
            && (parameterFileUri.Some? ==>
                  c.Some? && c.value.arguments == [GotoParameterValue(InParameterFile(parameterFileUri.value, name))])
            && (parameterFileUri.None? && outcome.Resolved? && outcome.source.Some? ==>
                  var source := outcome.source.value;
                  var param := source.getParameterValue(name);
                  && c.Some? && |c.value.arguments| == 1
                  && c.value.arguments[0].GotoParameterValue?
                  && c.value.arguments[0].args.InTemplateFile?
                  && c.value.arguments[0].args.documentUri == source.documentUri
                  && c.value.arguments[0].args.span ==
                       if param.Some? && param.value.value.Some? then param.value.value.value.span
                       else if source.parameterValuesPropertyNameSpan.Some? then source.parameterValuesPropertyNameSpan.value
                       else Span(0, 0))
  {
  }

  /** Truncation keeps the start of the title: all of it when short, its first 120 characters otherwise. */
  lemma TruncatedKeepsPrefix(title: string)
    ensures var n := if |title| <= MaxCharactersInValue then |title| else MaxCharactersInValue;
            n <= |Truncated(title)| && Truncated(title)[..n] == title[..n]
  {
  }

  /** Truncating a displayed title again changes nothing. */
  lemma TruncatedIdempotent(title: string)
    ensures Truncated(Truncated(title)) == Truncated(title)
  {
  }

  /**
   * A title is left as it is exactly when it is short, or when it already has
   * the displayed form: 120 characters followed by "...".
   */
  lemma TruncatedFixedPoints(title: string)
    ensures Truncated(title) == title
            <==> |title| <= MaxCharactersInValue
                 || (|title| == MaxCharactersInValue + |Ellipsis| && title[MaxCharactersInValue..] == Ellipsis)
  {
  }
}
