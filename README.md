# Deployment-template code lenses and linked-template parameter lookup

This project models two parts of the Azure Resource Manager Tools extension.

- **Code lenses of a deployment template.** These lenses show which parameter file is current and let the user select another one. At each parameter definition they show the parameter's value (or why there is none) and navigate to that value. Nested, linked and top-level deployments get display-only lenses. A lens whose `resolve` assigns its `command` becomes a Dafny class with a mutable `command: Option<Command>` field. Its `Resolve` method carries out the same steps as the source and is proved equal to a pure specification function. Lemmas state what the resolved command is: the title's priority order, the error wording, the 120-character truncation and the navigation fallbacks. The static `create` factories are pure functions.
- **Parameter definitions of a linked template.** The lookup parses a linked-template reference's `fullUri` and looks it up in the map of loaded templates. It returns the loaded document's top-level parameter definitions, or none when the document is not loaded.

Modules:

- `Wrappers`: `Option`, and JavaScript truthiness of an optional string.
- `Templates`: the entities the code reads, as values. These are spans, JSON values, parameter definitions, scopes, template documents, parameter values and parameter values sources.
- `CodeLenses`: `deploymentTemplateCodeLenses.ts`.
- `LinkedTemplates`: the load-state enum, the reference record, and `getParameterDefinitionsFromLinkedTemplate`.

Modelling choices:

- Strings are `seq<char>`, and the model counts one unit per `char`. JavaScript `length` and `slice` count UTF-16 code units. The two counts agree for characters in the Basic Multilingual Plane. A Dafny `char` is a Unicode scalar value, so a character outside that plane (an emoji, say) is one `char` but two UTF-16 units. `slice(0, 120)` can also split such a pair. Titles containing these characters are outside the model.
- URIs are strings. A VS Code `Uri` object is truthy exactly when it is present, so an optional URI is an `Option<Uri>`.
- The file-system probe `pathExists` is a `bool` input to `Resolve`.
- A parameter-definition lens keeps a reference to its `ParameterValuesSourceProvider` object, as the source does. `Resolve` reads the provider's `parameterFileUri` when it runs. The model gives `IParameterValuesSourceProvider` (parameters/IParameterValuesSourceProvider.ts) only its `parameterFileUri` field.
- The provider's `getValuesSource` is an input `ValuesSourceOutcome`. It either resolved or threw the message that `parseError(err).message` gives. The call site tests the resolved value with `paramsSource && …`, so the model lets it resolve to no source as well.
- These collaborators are function-typed parameters, and every property holds for any function given:
  - `getRelativeParameterFilePath`;
  - `getScopeDeploymentScopeFriendlyName`;
  - the values source's `getParameterValue` (a field of `ParameterValuesSource`);
  - `Uri.parse(…, true)`;
  - the key normalisation of the URI-normalising map.
- The TypeScript checks `!title`, `!errorMessage` and `??` are written with their JavaScript meaning. `""` is falsy, and `??` replaces only an absent value.
- `Uri.parse(fullUri, true)` is strict, and it throws on a malformed string such as one with no scheme. The lookup does not catch that error. The model therefore returns `UriParseError` in that case, instead of calling the lookup total.
- `ScopeKind` stands in for `TemplateScopeKind` (scopes/TemplateScope.ts): it names the two nested-deployment kinds the lenses test for and carries every other kind by name.
- The static lenses build their command without `arguments`. The model represents that as an empty argument list.

Consequences the lemmas make explicit:

- A title is not left unchanged *only* when it has at most 120 characters. A 123-character title whose last three characters are `...` also comes out of truncation as it went in (`TruncatedFixedPoints`).
- When getting the values source fails and no parameter file is associated, `resolve` returns false. The raw error message chosen on that path is computed (`ThrownErrorMessage`) but never shown (`ThrownErrorCommand`).
- The fallback title "Could not find parameter value" is shown when the provider resolves to no source and a parameter file is associated (`MissingSourceTitle`), and only then (`FallbackTitleOnlyWithoutSource`).

## Model

| member | source | states |
|---|---|---|
| `CodeLenses.ShowCurrentParameterFileCodeLens.constructor` | src/documents/templates/deploymentTemplateCodeLenses.ts:26-32 | a new lens keeps its scope, span and parameter-file URI and has no command yet |
| `CodeLenses.ShowCurrentParameterFileCommand` | src/documents/templates/deploymentTemplateCodeLenses.ts:36-44 | the resolved title is exactly `Parameter file: "<relative path>"` when the file exists, and that text followed by " $(error) Not found" when it does not; the command opens the parameter file and takes the template URI as its argument |
| `CodeLenses.ShowCurrentParameterFileCodeLens.Resolve` | src/documents/templates/deploymentTemplateCodeLenses.ts:34-48 | returns true exactly when a parameter-file URI is set, and then sets the command built from that file's relative path and existence; with no URI it returns false and leaves the command as it was |
| `CodeLenses.NotFoundMarkerIffMissing` | src/documents/templates/deploymentTemplateCodeLenses.ts:42-44 | the title ends in " $(error) Not found" if and only if the parameter file does not exist, whatever the relative path is |
| `CodeLenses.SelectParameterFileCodeLens.constructor` | src/documents/templates/deploymentTemplateCodeLenses.ts:56-62 | a new lens keeps its scope, span and parameter-file URI and has no command yet |
| `CodeLenses.SelectParameterFileCommand` | src/documents/templates/deploymentTemplateCodeLenses.ts:65-76 | the title is "Change..." exactly when a parameter-file URI exists, and the select-or-create title exactly when none does; the command selects a parameter file for the template URI |
| `CodeLenses.SelectParameterFileCodeLens.Resolve` | src/documents/templates/deploymentTemplateCodeLenses.ts:64-78 | always returns true and sets the select-parameter-file command |
| `CodeLenses.Truncated` | src/documents/templates/deploymentTemplateCodeLenses.ts:137-140 | the shown title has at most 123 characters; a title of at most 120 is unchanged; a longer one becomes its first 120 characters followed by "..." |
| `CodeLenses.TruncatedKeepsPrefix` | src/documents/templates/deploymentTemplateCodeLenses.ts:137-140 | truncation keeps the original's start: all of a short title, the first 120 characters of a long one |
| `CodeLenses.TruncatedIdempotent` | src/documents/templates/deploymentTemplateCodeLenses.ts:137-140 | truncating an already displayed title changes nothing |
| `CodeLenses.TruncatedFixedPoints` | src/documents/templates/deploymentTemplateCodeLenses.ts:137-140 | a title is left unchanged if and only if it has at most 120 characters, or has exactly 123 characters and ends in "..." |
| `CodeLenses.ValueTitle` | src/documents/templates/deploymentTemplateCodeLenses.ts:115-131 | a title drawn from the values source is never empty, so the `!title` fallback never replaces it |
| `CodeLenses.AvailableSourceTitlePriority` | src/documents/templates/deploymentTemplateCodeLenses.ts:115-131 | with a values source the lens always resolves. Its title is "Value: (KeyVault reference)" for a reference; otherwise "Value: <value>" (truncated) for a given value; otherwise "Using default value" when there is a default; otherwise "$(warning) No value found" |
| `CodeLenses.ThrownErrorMessage` | src/documents/templates/deploymentTemplateCodeLenses.ts:100-111 | when getting the values source throws, the message is "$(error) Parameter file not found" when the URI is set and the file is missing; "$(error) Could not open parameter file: " + message when the file exists; the raw message when no URI is set |
| `CodeLenses.ThrownErrorCommand` | src/documents/templates/deploymentTemplateCodeLenses.ts:100-167 | after a thrown error a command exists exactly when a parameter-file URI is set, and its title is the chosen error message (truncated) |
| `CodeLenses.MissingSourceTitle` | src/documents/templates/deploymentTemplateCodeLenses.ts:133-135 | when no title was produced and there is no error message, the title is "Could not find parameter value" |
| `CodeLenses.ParameterFileTitle` | src/documents/templates/deploymentTemplateCodeLenses.ts:38 | the title quotes the relative path after "Parameter file: "; the quoted part is exactly the path |
| `CodeLenses.LoadErrorMessage` | src/documents/templates/deploymentTemplateCodeLenses.ts:103-111 | a missing parameter file gives exactly "$(error) Parameter file not found"; an existing one gives "$(error) Could not open parameter file: " followed by exactly the thrown message; no parameter file gives the raw message (`ThrownErrorMessage` states it for the whole title) |
| `CodeLenses.ErrorMessage` | src/documents/templates/deploymentTemplateCodeLenses.ts:98-112 | an error message is recorded exactly when getting the values source threw, and it is the one `LoadErrorMessage` chooses |
| `CodeLenses.UntruncatedTitle` | src/documents/templates/deploymentTemplateCodeLenses.ts:114-135 | with a values source the title is the value title; with no source it is "Could not find parameter value"; after a throw it is the chosen error message, since the `!title` and `??` fallbacks settle it that way (`AvailableSourceTitlePriority`, `MissingSourceTitle`) |
| `CodeLenses.NavigationTarget` | src/documents/templates/deploymentTemplateCodeLenses.ts:142-167 | a target exists exactly when there is a parameter-file URI or a values source; with the URI it is `inParameterFile` for the parameter's unquoted name; otherwise it is `inTemplateFile` in the source's document (`NavigationTargetChoice`) |
| `CodeLenses.FallbackSpan` | src/documents/templates/deploymentTemplateCodeLenses.ts:154-156 | the span is the value's span when there is a value; otherwise the "parameters" property's name span when there is one; otherwise `Span(0,0)` |
| `CodeLenses.FallbackTitleOnlyWithoutSource` | src/documents/templates/deploymentTemplateCodeLenses.ts:133-135 | a shown title "Could not find parameter value" implies that the provider resolved to no source and that a parameter-file URI is set |
| `CodeLenses.ResolvesIff` | src/documents/templates/deploymentTemplateCodeLenses.ts:142-174 | resolution yields a command if and only if there is a parameter-file URI or a values source |
| `CodeLenses.NavigationTargetChoice` | src/documents/templates/deploymentTemplateCodeLenses.ts:142-164 | with a parameter-file URI the target is `inParameterFile` with that URI and the unquoted parameter name; otherwise, with a values source, it is `inTemplateFile` in the source's document at the value's span, else the "parameters" name span, else `Span(0,0)` |
| `CodeLenses.ParameterValueCommand` | src/documents/templates/deploymentTemplateCodeLenses.ts:97-175 | any resolved command is the go-to-parameter-value command and its title has at most 123 characters |
| `CodeLenses.ParameterDefinitionCodeLens.constructor` | src/documents/templates/deploymentTemplateCodeLenses.ts:89-95 | a new lens keeps its scope, its parameter definition and the provider object itself (not a copy of its URI), and has no command yet |
| `CodeLenses.ParameterDefinitionCodeLens.Resolve` | src/documents/templates/deploymentTemplateCodeLenses.ts:97-175 | the step-by-step resolution reads the provider's current parameter-file URI; it returns true exactly when the specified command exists for that URI, and then sets it; when it returns false the command is unchanged |
| `CodeLenses.NestedTemplateCodeLens` | src/documents/templates/deploymentTemplateCodeLenses.ts:191-202 | a lens exists exactly for the inner- and outer-scoped nested-deployment kinds. It is display-only. Its title is "Nested template (inner-scoped) to a " for the inner kind, or "Nested template (outer-scoped) to a " for the outer kind, followed by exactly the friendly deployment-scope name |
| `CodeLenses.LinkedTemplateCodeLens` | src/documents/templates/deploymentTemplateCodeLenses.ts:223-225 | the linked-template lens is display-only (empty command id, no arguments) over the given scope and span, and its title is always "Linked template to a resource group" |
| `CodeLenses.TopLevelDeploymentCodeLens` | src/documents/templates/deploymentTemplateCodeLenses.ts:246-249 | the top-level lens is display-only and its title is "Deployment to a " followed by exactly the friendly deployment-scope name |
| `LinkedTemplates.LoadStateCode` | src/ILinkedTemplateReference.ts:6-13 | every load state is numbered within 0..5; the particular number of each state comes from the body's table, not from the contract |
| `LinkedTemplates.LoadStateFromCode` | src/ILinkedTemplateReference.ts:6-13 | a number names a load state exactly when it is within 0..5 |
| `LinkedTemplates.LoadStateCodeRoundTrip` | src/ILinkedTemplateReference.ts:6-13 | decoding a state's number gives the state back, and encoding a decoded state gives the number back |
| `LinkedTemplates.GetParameterDefinitionsFromLinkedTemplate` | src/documents/templates/linkedTemplates/getParameterDefinitionsFromLinkedTemplate.ts:14-25 | fails exactly when strict parsing of `fullUri` fails; any non-empty result is the parameter definitions of some loaded template |
| `LinkedTemplates.LookupFindsLoadedTemplate` | src/documents/templates/linkedTemplates/getParameterDefinitionsFromLinkedTemplate.ts:19-24 | for a template loaded under the parsed URI's key, the result is exactly its top-level parameter definitions; for one not loaded, it is the empty list |
| `LinkedTemplates.LookupDependsOnlyOnFullUri` | src/documents/templates/linkedTemplates/getParameterDefinitionsFromLinkedTemplate.ts:19 | references that share `fullUri` give the same result, whatever their id, position, parameter values, load state or error message |
| `LinkedTemplates.LookupRespectsNormalization` | src/documents/templates/linkedTemplates/getParameterDefinitionsFromLinkedTemplate.ts:16-19 | two URI strings that parse and normalise to the same key give the same result |

## Left out

- NavigationTargetChoice: the `inTemplateFile` target carries the chosen span. Converting it to an editor range (`getVSCodeRangeFromSpan`) is an editor collaborator and is not modelled.
- The `resolve` methods of the nested, linked and top-level lenses only return true and change nothing. Their commands are fixed by the factories, so they are not modelled separately.
- The `ResolvableCodeLens` base class and its range are not modelled. Each lens class keeps only the scope, span and fields its own code reads; a parameter-definition lens's span is its parameter name's span.
- ParameterDefinitionCodeLens.Resolve: reads the provider's `parameterFileUri` once per resolution. The source reads it twice, at line 103 and at line 143, with an `await` (line 104) in between. A change to the provider by another task during that `await` is not modelled.
- The async/await plumbing is left out. Each `Resolve` takes the answers of its awaited calls (`getValuesSource`, `pathExists`) as inputs, which fixes the order in which they happen.
- That the lookup leaves the map alone has no lemma of its own. The lookup is a function over a map value, so it cannot change the map, and it never loads a file. The load call in the source is commented out (getParameterDefinitionsFromLinkedTemplate.ts:18).
- The URI-normalising map is not part of this model, and neither is strict URI parsing. Their rules are parameters, so no property depends on them.
- `onRequestOpenLinkedFile` and `tryOpenLinkedFile` (src/linkedTemplates.ts:51-130) are workspace, progress-bar and telemetry calls into the editor. Besides the strict `Uri.parse` calls at lines 63-64, which throw on a string with no scheme, their checkable demands are the two assertions that both URIs are absolute paths (lines 66-67). Nothing else here depends on them.
- `onNotifyTemplateGraph` (src/linkedTemplates.ts:88-91) only writes its arguments to the output channel.
- src/tryOpenLinkedFile.ts is commented out in full, so its "Could not find linked … file" wording is not live behaviour and is not modelled.
- Neither deploymentTemplateCodeLenses.ts nor getParameterDefinitionsFromLinkedTemplate.ts synchronises the template graph, matches scopes by span or changes a `loadState`. `LinkedFileLoadState` is modelled as the enum it is, with no transitions, and no link between `loadErrorMessage` and `LoadFailed` is assumed.
- `IParameterDefinitionsSource` declares an interface only; this model has no use for it.
