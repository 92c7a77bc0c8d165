# Spring Test App: a verified model of its core logic

The Spring Test App is a desktop assistant for spring test machines. A user
describes a spring: its free length, wire and outer diameter, coils and set
points. The description can be typed in a chat, filled in a form, pasted as
text or extracted from a PDF. The app asks a language model (Together.ai or a
local Ollama server) for a test sequence. The reply is a table of commands
written as bracketed rows such as `[R00, ZF, Zero Force, , , , ]`. The app
splits those rows into seven cells and shows the result. It keeps a history and
exports sequences as CSV, Excel or TXT.

This project models the in-memory logic of that app in Dafny and proves what
the code promises about it. The parts modelled are:

- the data model and its dictionary round trips (`DataModels`, `Values`);
- the settings service with its set-point editing and recent-sequence list (`SettingsService`);
- the settings file defaults and the provider choice (`AppSettingsFile`, `ApiClient`);
- the chat history (`ChatService`) and the sequence generator's history, parameters and row partition (`SequenceGenerator`);
- the two language-model clients: marker splitting, row parsing, column normalisation, intent classification and chat memory (`TogetherClient`, `OllamaClient`, `ApiText`);
- the row-text codec, that is the character-level cell splitter and the row serializer of the sample sequence (`RowCodec`, `SampleSequence`);
- specification lookup and the TXT export format (`KeySpecs`, `ExportTxt`, `PromptText`, `TxtExport`, `ExportService`);
- the readiness report, command detection and chat parsing of the chat panel (`ChatPanel`);
- the pasted-text and PDF-text parsers of the specifications panel (`SpecificationsPanel`);
- the specification-form wizard (`SpecificationForm`);
- the chat display and the message formatter (`ChatDisplay`, `MessageFormatter`, `Escaping`);
- the table models (`TableModels`).

Modelling choices:

- Python dictionaries are ordered association lists with distinct keys (`Values.Dict`).
- JSON-like data is the `Values.Value` datatype.
- A float carries its numeric value and its `str()` text.
- Regular expressions are an uninterpreted matcher, `Regex.Engine`. It is applied to the application's own pattern texts. The logic around each match is verified; the semantics of `re` are not.
- `json.loads`, `float()` and `datetime` parsing are parameters.
- Saving to disk is a boolean the caller supplies.
- The line loop of the message formatter runs against a renderer: the code-line test, a line's paragraph and a run's block, as function values. `ProcessRegular` hands it the formatter's own. The pattern loop and the indentation loop are the methods `IsCode` and `CodeBlock`, proved to compute those functions.

Where the code's comments or docstrings promise one thing and the code does
another, the model follows the code. The discrepancies found that way are listed
under "Findings", each with a corrected model beside the as-written one.

Each file holds one module, and each module follows one source file. Shared
string and dictionary helpers are in `PyStr`, `Values` and `Wrappers`.

## Model

| member | source | states |
|---|---|---|
| DataModels.ChatMessageToDict | models/data_models.py:18-24 | the dictionary has exactly the keys role, content and timestamp, in that order, each once |
| DataModels.ChatMessageFromDict | models/data_models.py:27-33 | a result exists only when role and content are present (Python raises `KeyError` otherwise); its role, content and a present timestamp are the stored texts, and a missing timestamp becomes the current time; text role and content with no timestamp always give a result |
| DataModels.ChatMessageRoundTrip | models/data_models.py:18-33 | `from_dict(m.to_dict())` gives back `m`: role, content and timestamp |
| DataModels.TestSequenceToDict | models/data_models.py:44-51 | the dictionary has exactly the keys rows, parameters, created_at and name, each once |
| DataModels.TestSequenceFromDict | models/data_models.py:54-61 | a result exists only when rows and parameters are present; the rows are the stored row dictionaries in order, the parameters the stored dictionary and a present created_at the stored text; a missing created_at becomes the current time; a missing name reads as `None` |
| DataModels.RowsRoundTrip | models/data_models.py:46-47 | the stored row list is a list of dictionaries that reads back as the same rows |
| DataModels.TestSequenceRoundTrip | models/data_models.py:44-61 | `from_dict(t.to_dict())` gives back rows, parameters, creation time and name |
| DataModels.TestSequenceKeysDistinct | models/data_models.py:46-51 | the four keys of the dictionary form are distinct |
| DataModels.NewSetPoint | models/data_models.py:74-79 | a set point built from a position and a load has tolerance 10.0 and is enabled |
| DataModels.SetPointToDict | models/data_models.py:81-88 | the dictionary has exactly the four keys position_mm, load_n, tolerance_percent and enabled, each once |
| DataModels.AsFloat | models/data_models.py:94-96 | a stored float is taken as it is, a stored int becomes the float of the same value, and anything else or nothing gives the default |
| DataModels.AsBool | models/data_models.py:97 | a stored value is read by its truthiness, and nothing gives the default |
| DataModels.AsString | models/data_models.py:296-297 | a stored text is taken as it is; anything else or nothing gives the default |
| DataModels.SetPointFromDict | models/data_models.py:91-98 | each missing key takes its default: position 0.0, load 0.0, tolerance 10.0, enabled true; a stored float is taken as it is and a stored enabled flag by its truthiness |
| DataModels.SetPointRoundTrip | models/data_models.py:81-98 | `SetPoint.from_dict(sp.to_dict())` equals `sp` on all four fields |
| DataModels.PostInit | models/data_models.py:130-137 | an empty set-point list with create_defaults on becomes the three default points; in every other case the specification is unchanged |
| DataModels.NewSpec | models/data_models.py:102-137 | the declared defaults: unit "mm", force unit "N", test mode "Height Mode", component type "Compression", not enabled, part id 0; the three default points exactly when create_defaults is on |
| DataModels.DefaultSetPointsAreTheStandardThree | models/data_models.py:130-137 | with defaults requested and no set points, there are exactly three points (40, 23.6), (33, 34.14) and (28, 42.36), each with tolerance 10 and enabled |
| DataModels.AsPartId | models/data_models.py:179 | a stored int is a numeric id, a stored string a text id, and a missing part_id reads as 0 |
| DataModels.SpecToDict | models/data_models.py:139-166 | the dictionary has one entry per field of the specification |
| DataModels.SpecToDictKeys | models/data_models.py:141-165 | the keys are those of `to_dict`, in order, each once |
| DataModels.SpecToDictTruthy | models/data_models.py:141-166 | the dictionary form is never empty, so `AppSettings.to_dict`'s `if self.spring_specification` test and `from_dict`'s `if spring_spec_data` test see it as true |
| DataModels.SpecFields | models/data_models.py:176-201 | the fields as `from_dict` first builds them, before the set points are read: an empty set-point list |
| DataModels.SpecFromDict | models/data_models.py:170-221 | a non-dictionary input returns the default specification with create_defaults off, as the `except` branch does; without a set_points list the fields are read with their defaults and then `__post_init__` runs; with a list of dictionaries the same fields are kept and the set points are exactly `SetPoint.from_dict` of each entry, in order; a list holding a non-dictionary entry raises and gives the default specification |
| DataModels.SpecFromForeignDict | models/data_models.py:176-201 | a dictionary holding none of the keys reads as the declared defaults, with no set points |
| DataModels.SpecFromEmptyDict | models/data_models.py:176-201 | `from_dict({})` is the default specification |
| DataModels.SetPointsRoundTrip | models/data_models.py:149-212 | the stored set-point list reads back as the same set points |
| DataModels.SpecRoundTrip | models/data_models.py:139-217 | `from_dict(s.to_dict())` reproduces every field and the set-point list, also when create_defaults is on, because the stored list replaces the defaults |
| DataModels.EnabledNumbers | models/data_models.py:243-246 | the numbers used are exactly the 1-based positions of the enabled set points, in increasing order |
| DataModels.EnabledPromptLinesAreNumbered | models/data_models.py:243-246 | the set-point lines of the prompt are the enabled points only, each under its 1-based position in the whole list |
| DataModels.PromptNumberingSkipsDisabled | models/data_models.py:243-246 | an enabled, a disabled and an enabled point are listed as Set Point-1 and Set Point-3 |
| DataModels.ToPromptText | models/data_models.py:232-263 | the text built line by line is the fixed header, then the numbered lines of the enabled points, then the fixed trailer |
| DataModels.NewAppSettings | models/data_models.py:266-277 | after construction the specification is never missing: a `None` becomes the default specification; the API key, export format, recent sequences and history bound are as given |
| DataModels.AppSettingsToDict | models/data_models.py:279-287 | the dictionary has exactly the keys api_key, default_export_format, recent_sequences, max_chat_history and spring_specification |
| DataModels.AppSettingsFromDict | models/data_models.py:290-301 | a missing specification becomes the default one, a missing history bound 100 and missing recent sequences an empty list; a stored bound, API key and export format are taken as stored; a truthy stored specification is `SpringSpecification.from_dict` of it and a falsy one becomes the default |
| DataModels.StringsRoundTrip | models/data_models.py:283-297 | the stored recent-sequence list reads back as the same list |
| DataModels.AppSettingsRoundTrip | models/data_models.py:279-301 | `from_dict(a.to_dict())` gives back every field |
| DataModels.AppSettingsFromStored | models/data_models.py:290-301 | any dictionary holding the stored form of every field reads back as those fields |
| ApiClient.ApiProvider | utils/api_client.py:17-44 | the provider is always "together" or "ollama" |
| ApiClient.ChooseProvider | utils/api_client.py:24-44 | whatever the environment value and the stored setting, the provider chosen is "together" or "ollama" |
| ApiClient.ChooseOllama | utils/api_client.py:24-44 | the choice is Ollama exactly when the environment says so in any case, or when the environment is silent or says "together", the settings module exists and the stored setting is "ollama" |
| ApiClient.ApiProviderIsOllama | utils/api_client.py:24-44 | the provider is Ollama exactly when the lowercased environment value is "ollama", or when the environment is silent or says "together", the settings module exists and the settings file names Ollama in any case |
| ApiClient.EnvironmentDecides | utils/api_client.py:24-42 | an environment value other than "together" decides alone, without the settings file: Ollama for "ollama" in any case, the default for anything else |
| ApiClient.DefaultProvider | utils/api_client.py:24-37 | with no environment value and no settings file the provider is "together" |
| ApiClient.MissingFileProvider | utils/api_client.py:31-37 | without a settings file the stored provider reads as the default "together" |
| ApiClient.CreateApiClient | utils/api_client.py:55-68 | the Ollama client is created exactly when the provider is "ollama" |
| AppSettingsFile.GetSettings | utils/settings.py:56-76 | the loop leaves the settings read from the file completed with every missing default key; a missing or unreadable file gives the defaults |
| AppSettingsFile.FillDefaultsGet | utils/settings.py:69-71 | a stored key keeps its stored value; any other key takes its default |
| AppSettingsFile.FillDefaultsExtends | utils/settings.py:69-71 | filling in defaults never drops or reorders a stored key |
| AppSettingsFile.LoadedKeepsStoredAndDefaults | utils/settings.py:56-76 | every default key is present in the result, the stored value wins over the default, and a missing or unreadable file yields the defaults |
| AppSettingsFile.GetSetting | utils/settings.py:100-103 | the loaded value of the key, or the given default when it is absent |
| AppSettingsFile.GetApiProvider | utils/settings.py:114-116 | the stored provider, "together" when there is none |
| AppSettingsFile.SettingsStore.constructor | utils/settings.py:50-53 | the store starts from the given file |
| AppSettingsFile.SettingsStore.UpdateSetting | utils/settings.py:93-97 | the loaded settings with the key set are saved; the result is whether the save worked, and a failed save leaves the file as it was |
| AppSettingsFile.SettingsStore.SetApiProvider | utils/settings.py:106-111 | anything but "together" or "ollama" raises `ValueError` naming it before anything is written; a known provider is written like `update_setting` |
| AppSettingsFile.UpdateSettingChangesOnlyKey | utils/settings.py:93-103 | after a saved update the key reads as the new value and every other key reads as before |
| ApiText.FormatParameterText | utils/together_api_client.py:54-76 | the loop yields one "key: value" line per entry whose key is neither Timestamp nor prompt, in dictionary order, joined by newlines |
| ApiText.ParameterLines | utils/together_api_client.py:64-74 | never more lines than entries, and every line is `key: value` of an entry whose key is not skipped |
| ApiText.ParameterLinesCount | utils/together_api_client.py:64-74 | one line per entry that is not skipped |
| ApiText.SkippedEntryIsInvisible | utils/together_api_client.py:69-70 | removing a Timestamp or prompt entry leaves the listing as it was |
| ApiText.ListedEntryIsLast | utils/together_api_client.py:67-74 | one more listed entry adds exactly its line, at the end |
| ApiText.ExtractErrorMessage | utils/together_api_client.py:112-135 | when none of the error patterns occurs, the message is "" |
| ApiText.ErrorMessageOfFirstMatch | utils/together_api_client.py:122-133 | when pattern `j` is the first in list order that occurs, the result is its stripped first group |
| ApiText.MarkedLayoutFinds | utils/together_api_client.py:271-286 | for text laid out as a, start marker, b, end marker, c, the markers are found at the ends of a and b and the splits give back a, b and c |
| ApiText.PreviousContext | utils/together_api_client.py:196-197 | the prompt suffix is empty exactly when the chat memory is empty |
| ApiText.PreviousContextShowsNewest | utils/together_api_client.py:196-197 | a non-empty memory adds the "Previous context" header and its last three entries, or all of a shorter memory, one per line |
| ChatService.LastIndexOfRole | services/chat_service.py:216-219 | the position of the latest message with the role: -1 exactly when none has it, and otherwise no later message has it |
| ChatService.LastWithRole | services/chat_service.py:216-230 | `None` exactly when no message has the role; otherwise the latest message with it |
| ChatService.ChatService.constructor | services/chat_service.py:24-43 | the bound is as given and the history is what was loaded |
| ChatService.ChatService.AddMessage | services/chat_service.py:74-95 | the returned message has the given role and content and is the last of the history, which keeps the most recent `max_history` messages in order; with 0, `[-0:]` keeps them all |
| ChatService.ChatService.ClearHistory | services/chat_service.py:105-107 | the history is empty |
| ChatService.ChatService.GetMessage | services/chat_service.py:187-198 | `history[i]` for 0 <= i < len, otherwise `None` |
| ChatService.ChatService.LastMessage | services/chat_service.py:200-208 | `None` exactly when the history is empty, otherwise its last message |
| ChatService.ChatService.LastByRole | services/chat_service.py:216-230 | the reverse scan returns the latest message with the role |
| ChatService.ChatService.LastUserMessage | services/chat_service.py:210-219 | the latest message with role "user", `None` exactly when there is none |
| ChatService.ChatService.LastAssistantMessage | services/chat_service.py:221-230 | the latest message with role "assistant", `None` exactly when there is none |
| ExportService.GetSupportedFormats | services/export_service.py:15-157 | exactly "CSV", "JSON" and "Excel", in that order; "TXT" is not among them |
| ExportService.ExtensionStart | services/export_service.py:36 | the extension `os.path.splitext` finds starts at a dot after which the path has no further dot and no slash |
| ExportService.ChooseFormat | services/export_service.py:23-50 | only a supported format is exported; a given format name is exported exactly when it is supported, and otherwise refused with "Unsupported format: ..." |
| ExportService.FormatOfExtension | services/export_service.py:35-46 | without a format name, the lowercased extension decides: .csv gives CSV, .json JSON, .xlsx or .xls Excel, and anything else is refused with "Unsupported file extension: ..." |
| ExportService.NoTextFormat | services/export_service.py:48-50 | the "TXT" format that the text exporter's callers pass is refused as unsupported |
| ExportService.ParameterRows | services/export_service.py:136 | at most one Excel parameter row per parameter |
| ExportService.ParameterRowsOfKept | services/export_service.py:136 | no row is for Timestamp, and without a Timestamp entry the rows are `[key, str(value)]` for every parameter, in order |
| ExportService.OmittedEntryIsInvisible | services/export_service.py:136 | removing a Timestamp entry, wherever it stands, leaves the parameter rows unchanged |
| ExportService.KeptEntryIsLast | services/export_service.py:136 | appending an entry whose key is not Timestamp appends exactly its row `[key, str(value)]` at the end; with the two lemmas above this fixes the rows of every dictionary |
| ExportService.CsvMetadata | services/export_service.py:74-84 | two header lines, "# Spring Test Sequence" and "# Created: ...", then one "# key: value" line per parameter other than Timestamp, in order |
| ExportService.BuildCsvMetadata | services/export_service.py:74-84 | the lines the loop builds are exactly those |
| ExportService.TemplateManager.constructor | services/export_service.py:165-209 | the manager holds the templates loaded from the directory |
| ExportService.TemplateManager.SaveTemplate | services/export_service.py:211-234 | when the file is written, the template is stored under its name and the result is true; otherwise nothing changes and the result is false |
| ExportService.TemplateManager.DeleteTemplate | services/export_service.py:236-260 | true exactly when the name is known and the file removal works, and then the entry is gone; otherwise nothing changes |
| ExportService.TemplateManager.GetTemplate | services/export_service.py:262-271 | `None` exactly for an unknown name |
| ExportService.TemplateManager.GetTemplateNames | services/export_service.py:273-279 | the names, in insertion order |
| ExportService.SavedTemplateIsFound | services/export_service.py:229-271 | after a save, `get_template` returns the saved sequence, and the other names keep theirs |
| ExportService.DeletedTemplateIsGone | services/export_service.py:254-271 | after a delete the name is unknown, and the other names keep theirs |
| Values.StrRepr | services/export_service.py:136 | `str()` of a list or dictionary parameter writes each string inside it as `repr` does: between double quotes exactly when the text holds a single quote and no double one, else between single quotes |
| Values.StrReprRoundTrip | services/export_service.py:136 | the string `repr` loses nothing: stripping the quotes and reading the backslash escapes back gives the original text |
| Values.PlainEscaped | services/export_service.py:136 | a printable text with no quote or backslash is written as it stands, between single quotes |
| ExportTxt.ExtractNestedValue | services/export_service_txt.py:13-33 | the loop walks the path one key at a time and returns what `NestedValue` states |
| ExportTxt.NestedValueCases | services/export_service_txt.py:24-33 | the default when a key of the path is missing, a non-dictionary is reached, or the leaf is None, 'None', 'null' or ''; otherwise the stripped text of the leaf |
| ExportTxt.WalkAppend | services/export_service_txt.py:25-28 | following a path `p + q` is following `p`, then `q` from where `p` ends |
| ExportTxt.WalkShortPaths | services/export_service_txt.py:25-28 | a one-key path reads the top-level entry; a two-key path reads one level down, and only through a dictionary |
| ExportTxt.ExtractParameterValue | services/export_service_txt.py:35-51 | the loop over the keys returns what `ParameterValue` states |
| ExportTxt.ParameterValueFirst | services/export_service_txt.py:46-50 | the first key, in argument order, present with a value that is not None, 'None', 'null' or '' gives the stripped text of that value |
| ExportTxt.ParameterValueNone | services/export_service_txt.py:46-51 | when no key has such a value, the result is the default |
| ExportTxt.FlattenLeaves | services/export_service_txt.py:53-71 | the flattened dictionary has no dictionary values, and below a parent every key starts with the parent's name and `_`, so keys are paths joined by `_` |
| ExportTxt.UpdateFresh | services/export_service_txt.py:71 | `dict(items)` of keys not yet present appends them in order |
| ExportTxt.FlattenOfFlat | services/export_service_txt.py:53-71 | a dictionary without nested dictionaries flattens to itself |
| KeySpecs.FirstUsableValue | services/export_service_txt.py:271-276 | a value found is usable: truthy and not None, 'None', 'null' or '' |
| KeySpecs.FindFirstUsable | services/export_service_txt.py:271-276 | the `for key in keys` loop that breaks at the first usable value returns the first usable value |
| KeySpecs.FirstUsableFirst | services/export_service_txt.py:271-276 | the first key in list order with a usable value decides |
| KeySpecs.FirstUsableOfEmpty | services/export_service_txt.py:271-276 | an empty dictionary has no usable value under any key |
| KeySpecs.FirstDict | services/export_service_txt.py:252-258 | the first non-empty dictionary among the candidate locations, else `{}` |
| KeySpecs.FindFirstDict | services/export_service_txt.py:252-258 | the `for loc in locations` loop returns that dictionary |
| KeySpecs.FirstDictSkips | services/export_service_txt.py:254-258 | empty candidates are passed over |
| KeySpecs.FirstDictOfEmpties | services/export_service_txt.py:252-258 | only empty candidates give `{}` |
| KeySpecs.FirstNested | services/export_service_txt.py:354-383 | a value found along a path is non-empty and stripped |
| KeySpecs.FindFirstNested | services/export_service_txt.py:378-383 | the `for path in possible_paths` loop returns the first non-empty nested value |
| KeySpecs.FirstNestedOfEmpty | services/export_service_txt.py:378-383 | in an empty dictionary every path finds nothing |
| KeySpecs.FirstNamed | services/export_service_txt.py:300-326 | a value found by key name is stripped text |
| KeySpecs.FindFirstNamed | services/export_service_txt.py:300-326 | the scan of the case-insensitive dictionary returns the first entry whose key names the field and whose value is usable |
| KeySpecs.LoweredEntries | services/export_service_txt.py:237-240 | one entry per flattened entry, in order, under its lower-cased key |
| KeySpecs.LowerKeysLast | services/export_service_txt.py:237-240 | a key of the case-insensitive dictionary is present exactly when some flattened key lower-cases to it, and holds the value of the last such entry |
| KeySpecs.ChosenBasicInfo | services/export_service_txt.py:334-352 | the basic-information candidate is always a dictionary, `{}` when none is found |
| KeySpecs.Clean | services/export_service_txt.py:618-622 | the cleaned value is stripped: "None", "null" and "" become "" |
| KeySpecs.DeepSearchKeeps | services/export_service_txt.py:624-646 | the deep search fills only empty fields and leaves the test mode and safety limit alone |
| KeySpecs.NamedKeeps | services/export_service_txt.py:300-326 | the case-insensitive scans keep every field that is already filled |
| KeySpecs.PathKeeps | services/export_service_txt.py:354-516 | the path searches keep every field that is already filled |
| KeySpecs.SpecsKeeps | services/export_service_txt.py:520-568 | the specifications dictionary keeps every filled field, except a safety limit of exactly "300", which may be replaced |
| KeySpecs.BasicKeeps | services/export_service_txt.py:570-598 | the basic information keeps every filled field and does not touch the test mode or safety limit |
| KeySpecs.KeySpecsOfEmpty | services/export_service_txt.py:201-653 | parameters without any entry give five empty specifications, with no invented defaults |
| KeySpecs.PromptDecides | services/export_service_txt.py:217-231 | a non-empty prompt whose five fields are all found decides the result alone |
| KeySpecs.DirectPartNameKept | services/export_service_txt.py:267-646 | unless the prompt decides, a part name found under the top-level keys (other than "None" and "null") is the part name of the result; no later search or clean-up replaces it |
| KeySpecs.DeepSearchLoop | services/export_service_txt.py:628-646 | the loop over the flattened parameters computes the deep search |
| KeySpecs.SearchParameters | services/export_service_txt.py:233-646 | the stages after the prompt, run in the source's order, compute `Search` |
| KeySpecs.DirectSearch | services/export_service_txt.py:267-298 | the loops over the top-level key lists compute the direct stage |
| KeySpecs.NamedSearch | services/export_service_txt.py:300-326 | the scans of the case-insensitive dictionary compute the named stage |
| KeySpecs.PathSearch | services/export_service_txt.py:354-516 | the loops over the path lists compute the path stage, with a test mode cut to its first word |
| KeySpecs.PathField | services/export_service_txt.py:354-384 | an empty field takes the first non-empty value along the paths, else stays empty; a filled field is kept |
| KeySpecs.PathMode | services/export_service_txt.py:455-485 | an empty test mode takes the first word of the first non-empty value along the test-mode paths; a filled one is kept |
| KeySpecs.ChooseSpecs | services/export_service_txt.py:243-332 | the chosen specifications dictionary is the first non-empty location, else "spring", else "spring_specification" |
| KeySpecs.ChooseBasicInfo | services/export_service_txt.py:334-352 | the chosen basic-information dictionary is the first non-empty of the eight locations |
| KeySpecs.FindUsableText | services/export_service_txt.py:530-535 | the stripped text of the first usable value, or the given default |
| KeySpecs.SpecsSearch | services/export_service_txt.py:520-568 | the loops over the specifications dictionary compute the specs stage, including whether the test-mode `split()[0]` raises |
| KeySpecs.UsableField | services/export_service_txt.py:528-558 | a field still at its unset value (empty, or "300" for the safety limit) takes the stripped text of the first usable value under the keys; any other value is kept |
| KeySpecs.SpecsMode | services/export_service_txt.py:561-568 | the test-mode loop of the specs stage: an empty test mode takes the first word of the first usable value, and raising is reported where `split()[0]` has no word |
| KeySpecs.BasicSearch | services/export_service_txt.py:570-598 | the loops over the basic information compute the basic stage |
| KeySpecs.ExtractKeySpecifications | services/export_service_txt.py:191-653 | the whole procedure returns `KeySpecifications` of the sequence's parameters |
| PromptText.FindLabelled | services/export_service_txt.py:105-112 | the `for pattern in [...]` loop of one field, breaking at the first line found, computes `FirstLabelled` |
| PromptText.FirstLabelledFirst | services/export_service_txt.py:106-112 | the first label, in the order listed, that is present and followed by a later newline gives the rest of its line, stripped |
| PromptText.FirstLabelledNone | services/export_service_txt.py:105-115 | when no label gives a line, the field is not found |
| PromptText.LineOfLayout | services/export_service_txt.py:107-111 | in a prompt whose first label ends `a` and is followed by `v` and a newline, the label's line is `v`, and an empty `v` gives no line, since the newline is not later than the start |
| PromptText.LineOfAbsent | services/export_service_txt.py:107 | a label that does not occur gives no line |
| PromptText.CutUnit | services/export_service_txt.py:141-178 | a text without the unit is kept; otherwise the result holds no " mm" or " N" |
| PromptText.CutUnitOfLayout | services/export_service_txt.py:141-142 | a value with its unit reads as the stripped number before the first unit |
| PromptText.FirstWord | services/export_service_txt.py:160 | `split()[0]` raises exactly for a text of whitespace only; otherwise a non-empty word without whitespace |
| PromptText.FirstWordOf | services/export_service_txt.py:160 | the first word of a word followed by whitespace is that word |
| PromptText.UnitField | services/export_service_txt.py:133-182 | a value read with its unit cut holds no unit |
| PromptText.Assemble | services/export_service_txt.py:150-187 | name, number and length are what was read; a whitespace-only test-mode line raises `IndexError`, and the `except` returns the fields read so far with test mode and safety limit empty; otherwise the test mode is the first word and a safety limit of "0.0" is dropped |
| PromptText.PromptFields | services/export_service_txt.py:73-189 | an empty text gives five empty fields; the free length holds no " mm", the safety limit no " N", the safety limit is never "0.0", and a test mode is a single word |
| PromptText.PromptPartName | services/export_service_txt.py:105-116 | a "Part Name:" line, when present, gives the part name, whatever the later labels say |
| PromptText.PromptTestMode | services/export_service_txt.py:151-164 | a test-mode value of several words gives its first word |
| PromptText.ExtractFromPromptText | services/export_service_txt.py:73-189 | the loops, field after field, compute `PromptFields` |
| TxtExport.Dirname | services/export_service_txt.py:682 | `os.path.dirname` on POSIX: a prefix of the path, empty exactly when the path has no `/` |
| TxtExport.JoinPath | services/export_service_txt.py:690 | `os.path.join` ends with the file name joined |
| TxtExport.TxtPath | services/export_service_txt.py:677-690 | the path written always ends with "AS 01~<part number>.txt", or "AS 01~unknown_part.txt" for an empty part number |
| TxtExport.TxtPathOfBareName | services/export_service_txt.py:682-690 | a path without a directory is replaced by the export's name in "." |
| TxtExport.TxtPathInDirectory | services/export_service_txt.py:682-690 | in a directory, the export goes to that directory's "AS 01~<number>.txt" |
| TxtExport.RecordFields | services/export_service_txt.py:697-721 | a line of fields without the bar separator splits back at it into those fields |
| TxtExport.RowCells | services/export_service_txt.py:709-715 | the cells of a row are the six columns CMD, Description, Condition, Unit, Tolerance and Speed rpm, in order, with "" where the row lacks one |
| TxtExport.RowLineFields | services/export_service_txt.py:709-719 | a row whose cells lack the bar separator is read back from its line |
| TxtExport.RowsTextAppend | services/export_service_txt.py:708-720 | the rows' text of `a + b` is the text of `a` followed by that of `b` |
| TxtExport.RowsTextLines | services/export_service_txt.py:708-720 | each row's line sits right after the lines of the rows before it |
| TxtExport.ExportTxt | services/export_service_txt.py:655-729 | the path used is the standard name in the requested directory; on success the message names that path and the content is the four header lines, with "unknown_part" and "--" for blanks, then one line per row; a failure gives "TXT export error: ..." |
| OllamaClient.ClassifyIntent | utils/ollama_client.py:219-237 | generation intent exactly when the lower-cased prompt names a creation keyword together with "sequence" or matches the direct-request pattern; analysis exactly when neither holds and an analysis keyword occurs; conversation otherwise |
| OllamaClient.LowerIdempotent | utils/ollama_client.py:224 | lower-casing an already lower-cased prompt changes nothing |
| OllamaClient.IntentIgnoresCase | utils/ollama_client.py:219-237 | the intent of a prompt and of its lower-cased form agree |
| OllamaClient.ConversationByDefault | utils/ollama_client.py:220-231 | a prompt with no keyword of either list and no direct request is general conversation |
| OllamaClient.FreeLengthValue | utils/ollama_client.py:199-211 | a given `Free Length` other than the placeholder is used as it is; with neither that entry nor a stored specification, the placeholder |
| OllamaClient.FreeLengthFromSpecification | utils/ollama_client.py:205-210 | without a `Free Length` entry, a specification dictionary holding `free_length_mm` supplies its text |
| OllamaClient.FreeLengthInfo | utils/ollama_client.py:254-256 | the free-length sentence is non-empty exactly for a generation request with a known free length |
| OllamaClient.TestTypeText | utils/ollama_client.py:213-217 | empty without a `Test Type`; otherwise the sentence naming it |
| OllamaClient.Fields | utils/ollama_client.py:199-252 | the template gets the classified intent and the parameter listing; each missing speed defaults to "50" |
| OllamaClient.UserPrompt | utils/ollama_client.py:244-261 | with an empty chat memory and no free-length sentence, the user prompt is the filled template alone |
| OllamaClient.Unfenced | utils/ollama_client.py:119-121 | content not both opening and closing with a fence is left as it is; a fenced text shorter than six characters becomes empty |
| OllamaClient.UnfencedOfFence | utils/ollama_client.py:120-121 | a fence pair around any text leaves that text stripped |
| OllamaClient.ExtractCommandSequence | utils/ollama_client.py:84-129 | the parser's value for the extracted, unfenced content, or an empty dictionary when the parser rejects it |
| OllamaClient.CommandContentOfMarkers | utils/ollama_client.py:96-107 | a reply holding the two sequence markers in order yields the stripped text between them, or the whole reply when nothing lies between them |
| OllamaClient.MarkedContentOfLayout | utils/ollama_client.py:100-107 | for any two markers whose first occurrences bound a middle part, the marked content is that part stripped, or the whole text when it is empty |
| OllamaClient.SpanOfLayout | utils/ollama_client.py:101-105 | the slice between the markers is the middle part, and there is none when that part is empty |
| OllamaClient.LayoutFinds | utils/ollama_client.py:101-102 | in such a layout the start marker is first found right after the prefix and the end marker right after the middle part |
| OllamaClient.CommandContentOfBrackets | utils/ollama_client.py:108-117 | without both markers, a reply with one bracketed span is cut to the span from the first `[` to the last `]` |
| OllamaClient.RFindLast | utils/ollama_client.py:112 | the last occurrence of a character is the one after which it no longer occurs |
| OllamaClient.ReplyOutcome | utils/ollama_client.py:332-375 | no reply text exactly when the run fails, with the last request error or the fixed message; a sequence outcome is a non-empty list with the reply kept; otherwise the single CHAT row of the reply |
| OllamaClient.UnparsedReplyIsChat | utils/ollama_client.py:341-375 | a reply whose content the parser rejects becomes the CHAT row holding the whole reply |
| OllamaClient.ParsedListIsSequence | utils/ollama_client.py:341-355 | a reply whose content parses to a non-empty list is that sequence |
| OllamaClient.Or | utils/ollama_client.py:510-512 | `value or default`: the value when it is truthy, the default otherwise |
| OllamaClient.ZeroTemperatureIsReplaced | utils/ollama_client.py:511 | an explicit temperature of zero, like a missing one, is replaced by the client's default |
| OllamaClient.OllamaApiClient.constructor | utils/ollama_client.py:387-410 | the model, temperature and retry count are as given, and the chat memory and request history are empty |
| OllamaClient.OllamaApiClient.AddToChatMemory | utils/ollama_client.py:569-582 | the message is appended and only the ten most recent messages are kept, the new one last; the settings are unchanged |
| OllamaClient.OllamaApiClient.WorkerSettings | utils/ollama_client.py:509-520 | each falsy argument gives way to the client's own setting |
| OllamaClient.OllamaApiClient.Run | utils/ollama_client.py:187-375 | the request history gains the payload built from the prompt and the memory, the outcome is that of the reply, and the memory and settings are unchanged |
| TogetherClient.CleanReplyOfPlain | utils/together_api_client.py:264-265 | a reply without backticks is only stripped by the fence clean-up |
| TogetherClient.HybridSplit | utils/together_api_client.py:275-285 | the sequence text of a hybrid reply carries no surrounding whitespace |
| TogetherClient.HybridSplitOfLayout | utils/together_api_client.py:271-285 | a reply laid out as conversation, start marker, rows, end marker and closing text gives back the stripped rows as sequence text and the stripped conversation, followed by the stripped closing text when there is one |
| TogetherClient.Inner | utils/together_api_client.py:304-306 | the inner text put back between the brackets is the line |
| TogetherClient.ColumnsDistinct | utils/together_api_client.py:405 | the seven required column names are distinct |
| TogetherClient.RowDict | utils/together_api_client.py:380-389 | the row dictionary has exactly the seven columns, in order, each holding its cell |
| TogetherClient.LineRows | utils/together_api_client.py:302-390 | at most one row per line, and every row has the seven columns in order |
| TogetherClient.ParseCustomRows | utils/together_api_client.py:300-390 | the loop over the stripped reply's lines yields the rows of its bracketed lines, in order |
| TogetherClient.ParseRowLines | utils/together_api_client.py:302-390 | each bracketed line, stripped, split, padded and keyed, adds one row; other lines add none |
| TogetherClient.ParseLineRow | utils/together_api_client.py:302-390 | one line of that loop gives exactly the row `LineRow` assigns it: the padded, keyed cells of a bracketed line, and no row for any other line |
| TogetherClient.RenameColumn | utils/together_api_client.py:407-413 | a rename keeps the number of rows |
| TogetherClient.Normalize | utils/together_api_client.py:404-421 | after the renames, the added columns and the reordering, every row has exactly the seven columns in order |
| TogetherClient.NormalRow | utils/together_api_client.py:404-421 | a normalized row has exactly the seven columns, in order, each once, with the row's value under its column or its renamed one |
| TogetherClient.NormalizeKeepsRows | utils/together_api_client.py:404-421 | rows that already have the seven columns in order pass the fix-ups unchanged |
| TogetherClient.ColumnlessRenameKeeps | utils/together_api_client.py:408-413 | renaming a column no row has changes nothing |
| TogetherClient.ChatRow | utils/together_api_client.py:423-433 | the CHAT row has the seven columns |
| TogetherClient.SequenceData | utils/together_api_client.py:289-401 | the sequence data is never empty unless the JSON itself is an empty list: failing JSON and rows, the conversation-only row stands in |
| TogetherClient.HybridFrameShape | utils/together_api_client.py:274-436 | a hybrid reply's frame starts with the CHAT row of its conversation, and every row has the seven columns |
| TogetherClient.PlainReplyIsChat | utils/together_api_client.py:573-577 | a cleaned reply with no start marker and not opening with a bracket becomes one conversation-only row holding all of it |
| TogetherClient.TogetherApiClient.constructor | utils/together_api_client.py:632-640 | the key is as given, the raw reply is empty and so is the chat memory |
| TogetherClient.TogetherApiClient.SetApiKey | utils/together_api_client.py:646-652 | only the key changes |
| TogetherClient.TogetherApiClient.HandleReply | utils/together_api_client.py:250-580 | the parameter listing is appended to the chat memory, which keeps its ten most recent entries; the raw reply is kept and the emitted frame is that of the reply |
| TogetherClient.EmitFrame | utils/together_api_client.py:264-580 | the frame is the hybrid, bracketed-only or conversation-only frame of the reply |
| TogetherClient.SequenceFrame | utils/together_api_client.py:289-401 | the JSON, otherwise the bracketed rows, otherwise the conversation-only row |
| RowCodec.SecondCommaCheckNeverHolds | test_parser_fixed.py:55-60 | the "second comma" test runs on a cell that has just had a comma appended, so it never matches |
| RowCodec.RunAppend | test_parser_fixed.py:27-68 | the character loop over two pieces of text is the loop over the first, continued over the second |
| RowCodec.RunPlain | test_parser_fixed.py:32-68 | text without double quotes, and without separating commas, is appended to the current cell, with only the bracket flag changing |
| RowCodec.RunQuoted | test_parser_fixed.py:28-31 | a quoted run without inner quotes is appended to the current cell whole, its commas kept |
| RowCodec.RunBracketed | test_parser_fixed.py:32-37 | a bracketed run is appended to the current cell whole, and the bracket flag is cleared after it |
| RowCodec.BracketFlagIsNotDepth | test_parser_fixed.py:32-37 | the bracket state is a flag and not a depth: after nested brackets `((v)` one closing bracket clears it |
| RowCodec.EscapedQuotesKeepState | test_parser_fixed.py:28 | double quotes each preceded by a backslash leave the quote state unchanged |
| RowCodec.RunCellText | test_parser_fixed.py:27-68 | the text of one cell is read into the current cell without ending it |
| RowCodec.CellCount | test_parser_fixed.py:61-71 | the splitter returns one cell more than the commas it treats as separators |
| RowCodec.Cleanup | test_parser_fixed.py:73-79 | cleaning a cell never lengthens it |
| RowCodec.CleanupAll | test_parser_fixed.py:73-79 | every cell is cleaned, in place |
| RowCodec.ParseRow | utils/together_api_client.py:308-366 | the worker's splitter loop yields the cleaned cells of the row text |
| RowCodec.Padded | utils/together_api_client.py:370-378 | always seven cells: a short row is padded with empty cells; a long one keeps its first six and joins the rest into the seventh |
| RowCodec.PadToSeven | utils/together_api_client.py:370-378 | the padding loop gives the seven-cell row |
| RowCodec.DropTrailingCommas | test_parser_fixed.py:124-127 | the count is kept and a cell without a trailing comma is kept as it is |
| RowCodec.ScragPairHasComma | test_sequence_sample.py:80-81 | a Scrag reference with its count always holds a comma |
| RowCodec.QuotedValues | test_sequence_sample.py:75-88 | each of the seven values is quoted by the sample's rule for its column |
| RowCodec.FormatRow | test_sequence_sample.py:73-91 | the loop writes the bracketed row text of the seven values |
| RowCodec.GoodCellText | test_sequence_sample.py:79-86 | a value the format can carry is written as one cell text that cleans up back to the value |
| RowCodec.ScragCellText | test_sequence_sample.py:80 | the CMD cell is written `Scrag` exactly when the value is |
| RowCodec.SerializedRowRoundTrip | test_sequence_sample.py:73-91 | writing seven good values as a row and splitting the text again gives back the values, when the Scrag rule leaves the Condition's comma alone |
| RowCodec.CorrectedRowRoundTrip | test_parser_fixed.py:47-65 | with the corrected Scrag rule, every row of good values reads back, a Scrag row whose Condition is a reference with its count included |
| RowCodec.ScragCount | test_parser_fixed.py:43-54 | in a Scrag row, the comma after an unquoted `R03` is kept inside the Condition cell |
| RowCodec.ScragRowAsWritten | test_parser_fixed.py:47-60 | as written, the comma after `R03,2` is kept too, so the next cell is merged into the Condition |
| RowCodec.ScragRowCorrected | test_parser_fixed.py:47-65 | corrected, the comma after `R03,2` ends the Condition cell `R03,2` and the next cell stands alone |
| RowCodec.ScragLineAsWritten | test_parser_fixed.py:27-79 | as written, the line `R09, Scrag, Scragging, R03,2, x, q, ` splits with `x` merged into the Condition |
| RowCodec.ScragLineCorrected | test_parser_fixed.py:27-79 | corrected, the same line splits into the Condition `R03,2` followed by `x`, `q` and an empty cell |
| RowCodec.AsWrittenLosesScragCell | test_sequence_sample.py:80-91 | as written, a serialized Scrag row with a reference and count comes back with six cells, its Unit merged into the Condition |
| SampleSequence.RowDicts | test_sequence_sample.py:27-43 | one dictionary per row, each with exactly the seven column keys, in column order, holding the row's values |
| SampleSequence.SampleRowsHaveColumns | test_sequence_sample.py:27-43 | the fifteen sample rows each have exactly the seven column keys |
| SampleSequence.RowTexts | test_sequence_sample.py:72-92 | one written row per sample row, in order |
| SampleSequence.FormatMessage | test_sequence_sample.py:64-104 | the loop and the template give the chat text, the marked rows and the closing sentence |
| SampleSequence.PrintSequenceAsChatMessage | test_sequence_sample.py:64-106 | the message for the sample sequence and its chat text |
| SampleSequence.QuoteFieldAvoids | test_sequence_sample.py:83-86 | quoting adds no character other than the double quote |
| SampleSequence.RowTextAvoids | test_sequence_sample.py:88-91 | a written row holds no character beyond those of its values and the row syntax |
| SampleSequence.RowTextLine | test_sequence_sample.py:91 | a written row strips to itself, is a bracketed row line, and its inner text is its body |
| SampleSequence.WrittenLineRow | test_sequence_sample.py:91 | a written row of readable values, read back as a line, gives the row dictionary |
| SampleSequence.LineRowsOfWritten | test_sequence_sample.py:91-95 | the written rows read back line by line give the row dictionaries, in order |
| SampleSequence.RowsTextLines | test_sequence_sample.py:94-95 | the joined rows text is trimmed, free of backticks, and parses back to the row dictionaries |
| SampleSequence.ClosingIsPlain | test_sequence_sample.py:104 | the closing sentence is trimmed and free of backticks |
| SampleSequence.MessageReadBack | test_sequence_sample.py:97-104 | the printed message, read back by the worker, gives the CHAT row of the chat text and closing sentence followed by the sample rows |
| SequenceGenerator.EnabledOnly | services/sequence_generator.py:111 | no more points than given, each of them enabled and one of the given points |
| SequenceGenerator.EnabledOnlyAtNumbers | services/sequence_generator.py:104-112 | the enabled set points are those at the positions the prompt text numbers them by, in the same order |
| SequenceGenerator.Prepared | services/sequence_generator.py:79-80 | without a specification, or with a disabled one, the parameters come back as they are |
| SequenceGenerator.PreparedEnabled | services/sequence_generator.py:82-116 | with an enabled specification the prompt, when there is one, gains the specification text in front of it; a `spring_specification` entry is added; every other key keeps its value |
| SequenceGenerator.ContextSetPoints | services/sequence_generator.py:104-112 | the `set_points` entry holds one dictionary per enabled point, in order |
| SequenceGenerator.FirstMissing | services/sequence_generator.py:457-460 | every column before the returned position is present and the one at it is missing |
| SequenceGenerator.ValidateSequence | services/sequence_generator.py:445-467 | an empty sequence is invalid; otherwise valid exactly when the first row has the seven required columns, and invalid naming the first missing one in their fixed order |
| SequenceGenerator.ChatRows | services/sequence_generator.py:346 | every row kept is a CHAT row |
| SequenceGenerator.SequenceRows | services/sequence_generator.py:351 | no row kept is a CHAT row |
| SequenceGenerator.RowsPartition | services/sequence_generator.py:346-351 | the CHAT rows and the sequence rows together are the frame's rows, none lost or repeated |
| SequenceGenerator.NoChatRows | services/sequence_generator.py:342 | a frame has no CHAT rows exactly when none of its rows is one |
| SequenceGenerator.Descriptions | services/sequence_generator.py:347-348 | defined exactly when every CHAT row has a string description, and then those descriptions, in order |
| SequenceGenerator.ParamsOrEmpty | services/sequence_generator.py:367 | the last parameters when non-empty, otherwise an empty dictionary |
| SequenceGenerator.SequenceGenerator.constructor | services/sequence_generator.py:27-44 | no specification, an empty history, no last sequence and no last parameters |
| SequenceGenerator.SequenceGenerator.SetSpec | services/sequence_generator.py:54-60 | the specification is stored and read back; nothing else changes |
| SequenceGenerator.SequenceGenerator.GetSpec | services/sequence_generator.py:62-68 | the stored specification |
| SequenceGenerator.SequenceGenerator.PrepareParameters | services/sequence_generator.py:70-116 | the prepared parameters of the stored specification |
| SequenceGenerator.SequenceGenerator.PromptWithSpec | services/sequence_generator.py:89-91 | the prompt becomes the specification's prompt text, a blank line and the original prompt |
| SequenceGenerator.SequenceGenerator.StartGeneration | services/sequence_generator.py:311-329 | the parameters are kept as the last ones, and the request carries their prepared form |
| SequenceGenerator.SequenceGenerator.AddToHistory | services/sequence_generator.py:431-439 | the sequence is appended and only the ten most recent are kept, the new one last |
| SequenceGenerator.SequenceGenerator.ClearHistory | services/sequence_generator.py:441-443 | the history is empty; nothing else changes |
| SequenceGenerator.SequenceGenerator.Record | services/sequence_generator.py:369-377 | the sequence becomes the last one and joins the history |
| SequenceGenerator.SequenceGenerator.OnSequenceGenerated | services/sequence_generator.py:331-409 | an empty frame emits nothing; CHAT rows alone emit one CHAT row of their joined descriptions; CHAT rows with others make the others the new sequence, carrying the joined text as `chat_message` (also in the shared last parameters); a frame without CHAT rows is the sequence whole |
| SettingsService.Find | services/settings_service.py:195-196 | -1 exactly when the id is absent; otherwise the position of its first occurrence |
| SettingsService.RemoveFirst | services/settings_service.py:195-196 | `remove` drops the first occurrence only, the rest keeping their order; an absent id leaves the list alone |
| SettingsService.PyTake | services/settings_service.py:202 | `[:10]` keeps the first entries, at most ten |
| SettingsService.RemoveAtNoDuplicates | services/settings_service.py:196 | removing one entry of a duplicate-free list leaves it duplicate-free and without that entry |
| SettingsService.RecentAfterShape | services/settings_service.py:186-203 | the new id heads the recent list, which holds at most ten entries and stays free of duplicates |
| SettingsService.RecentAfterKeepsOthers | services/settings_service.py:195-202 | after the new id the other entries keep their order |
| SettingsService.ApplyBasicInfo | services/settings_service.py:253-378 | the basic-information update never touches the set points |
| SettingsService.ApplyNoBasicInfo | services/settings_service.py:253-378 | with no argument given the specification is unchanged |
| SettingsService.ApplyBasicInfoIdempotent | services/settings_service.py:253-378 | applying the same arguments twice is applying them once |
| SettingsService.ApplyBasicInfoFields | services/settings_service.py:253-378 | for each of the 21 basic fields, a given argument replaces the field and an omitted one keeps its value |
| SettingsService.ToleranceIsLost | services/settings_service.py:416-420 | as written, a new tolerance is assigned to an attribute that is never stored, so it does not survive the save |
| SettingsService.UpdatedSetPointIsStored | services/settings_service.py:416-420 | the corrected update stores all four values and reads them back |
| SettingsService.Without | services/settings_service.py:450-451 | `pop(index)` removes that one point, the others keeping their order |
| SettingsService.WithoutInsert | services/settings_service.py:451 | putting the removed point back at its position gives the list again |
| SettingsService.InitialLookups | services/settings_service.py:35-39 | the initial settings hold no specification |
| SettingsService.StoredSpec | services/settings_service.py:213-228 | without a stored specification, the default one without set points |
| SettingsService.StoredSpecRoundTrip | services/settings_service.py:213-244 | a specification stored in its dictionary form is read back unchanged |
| SettingsService.WithDefaultSpec | services/settings_service.py:51-53 | afterwards a specification is always stored, and one already stored is kept |
| SettingsService.WithDefaultSpecIsDefault | services/settings_service.py:51-53 | without a stored specification the service starts from the default one |
| SettingsService.FreshServiceSpec | services/settings_service.py:32-53 | a service started without a settings file holds the default specification, without set points |
| SettingsService.SettingsService.constructor | services/settings_service.py:32-53 | the initial settings updated with the loaded dictionary (left as they are when nothing or no dictionary was loaded), then given the default specification when they hold none |
| SettingsService.SettingsService.ApiKey | services/settings_service.py:152-158 | the stored value under "api_key", or "" when there is none |
| SettingsService.SettingsService.SetApiKey | services/settings_service.py:160-167 | only the key changes, and it reads back |
| SettingsService.SettingsService.DefaultExportFormat | services/settings_service.py:169-175 | the stored value under "default_export_format", or "CSV" when there is none |
| SettingsService.SettingsService.RecentSequences | services/settings_service.py:205-211 | the stored value under "recent_sequences", or an empty list when there is none |
| SettingsService.SettingsService.SetDefaultExportFormat | services/settings_service.py:177-184 | the format is stored and reads back |
| SettingsService.SettingsService.AddRecentSequence | services/settings_service.py:186-203 | the recent list becomes the id followed by the others, at most ten; a stored value that is not a list raises, modelled as changing nothing |
| SettingsService.WithSpec | services/settings_service.py:243-244 | after `self.settings["spring_specification"] = specification.to_dict()` the stored specification reads back as the one given |
| SettingsService.WithSpecKeepsOthers | services/settings_service.py:243-244 | that assignment leaves every other setting as it was |
| SettingsService.WithSpecTwice | services/settings_service.py:243-244 | a second such assignment replaces the first, so a run of updates leaves the settings as one assignment of the last specification |
| SettingsService.SettingsService.SetSpec | services/settings_service.py:230-251 | the specification's dictionary is stored and reads back as the same specification; the result is that of the save |
| SettingsService.SettingsService.UpdateBasicInfo | services/settings_service.py:253-379 | the stored specification gains the given fields and keeps its set points; every other setting keeps its value, since only "spring_specification" is rewritten |
| SettingsService.SettingsService.UpdateSetPoint | services/settings_service.py:381-425 | an index outside the list or a value that is not a number returns false and changes nothing; otherwise the point at the index takes the new position, load and enabled flag and keeps its stored tolerance, as written; with the corrected flag it takes the new tolerance too. On success only "spring_specification" is rewritten, so every other setting keeps its value |
| SettingsService.SettingsService.ClearSetPoints | services/settings_service.py:427-440 | no set points remain; every other field is as it was, and every setting other than "spring_specification" keeps its value |
| SettingsService.SettingsService.DeleteSetPoint | services/settings_service.py:442-454 | a valid index removes that point and stores the result, and no setting other than "spring_specification" changes; any other index changes nothing |
| SettingsService.SettingsService.AddSetPoint | services/settings_service.py:456-470 | one point (0, 0, 10 %, enabled) is appended and stored; no setting other than "spring_specification" changes |
| TableModels.StrLeTotal | models/table_models.py:139-142 | any two strings are ordered one way or the other by Python's string order |
| TableModels.Insert | models/table_models.py:139-142 | the row is added to the others, none lost or repeated |
| TableModels.InsertSorted | models/table_models.py:139-142 | inserting a row into rows sorted by the column keeps them sorted |
| TableModels.SortRows | models/table_models.py:139-142 | the sorted rows are a permutation of the rows |
| TableModels.SortRowsSorted | models/table_models.py:139-142 | the sorted rows are ordered by the column, ascending or descending as asked |
| TableModels.CommandTableModel.constructor | models/table_models.py:83-88 | the rows are the dictionary's (command, description) pairs, in order |
| TableModels.CommandTableModel.RowCount | models/table_models.py:90-92 | one row per command |
| TableModels.CommandTableModel.Data | models/table_models.py:98-124 | a cell exists exactly for a row of the table and one of its two columns, and holds the command or its description |
| TableModels.CommandTableModel.Sort | models/table_models.py:136-143 | the same rows, ordered by the chosen column in the chosen direction |
| TableModels.ParametersText | models/table_models.py:171-179 | the free length when the parameters have one, else the part number, else "No parameters" |
| TableModels.CreatedText | models/table_models.py:180-185 | a timestamp holding `T` is cut at its first `T`; any other value is shown as stored |
| TableModels.CreatedIsDate | models/table_models.py:183-184 | the shown date holds no `T`, and the timestamp continues with one after it |
| TableModels.HistoryTableModel.constructor | models/table_models.py:149-152 | the rows are the given sequences |
| TableModels.HistoryTableModel.RowCount | models/table_models.py:154-156 | one row per sequence |
| TableModels.HistoryTableModel.Data | models/table_models.py:162-188 | a cell exists exactly for a row and one of the four columns: the name (by default "Sequence n", counted from 1), the parameters summary, the date, and "Load" |
| TableModels.HistoryTableModel.AddSequence | models/table_models.py:208-212 | the sequence is appended, and there is one more row |
| TableModels.HistoryTableModel.RemoveSequence | models/table_models.py:214-219 | a valid index deletes exactly that sequence; any other index changes nothing |
| TableModels.HistoryTableModel.GetSequence | models/table_models.py:221-225 | the sequence at a valid index, and `None` exactly for any other |
| ChatPanel.ProgressValue | ui/chat_components/chat_panel.py:711-720 | the bar value is the progress when it lies strictly between 0 and 100 (or is 0), and 0 otherwise |
| ChatPanel.StatusText | ui/chat_components/chat_panel.py:722-726 | a status without "Together.ai" is shown unchanged; one with it has every occurrence shown as "FTS.ai" |
| ChatPanel.StatusRenamesProvider | ui/chat_components/chat_panel.py:724-726 | a status that starts with the provider's name shows "FTS.ai" in its place, and the rest renamed too |
| ChatPanel.ValidSetPoints | ui/chat_components/chat_panel.py:981 | the usable set points are exactly those enabled with a positive position and load, and no more than were given |
| ChatPanel.SpecificationStatus | ui/chat_components/chat_panel.py:956-1005 | no specification, not enabled, incomplete (with the missing items) and complete each get their own report |
| ChatPanel.MissingRequiredIsReady | ui/chat_components/chat_panel.py:976-998 | for an enabled specification, nothing required is missing exactly when it is ready |
| ChatPanel.StatusCompleteIffReady | ui/chat_components/chat_panel.py:965-1005 | the report is the complete one exactly when a specification is present and ready |
| ChatPanel.MissingRequiredItems | ui/chat_components/chat_panel.py:977-984 | a missing item is listed exactly when its check fails: a free length not positive, no usable set point, and so on |
| ChatPanel.IsSpecUpdateRequest | ui/chat_components/chat_panel.py:1365-1389 | the loop answers true exactly when the lower-cased input holds one of the explicit phrases |
| ChatPanel.RemoveAllAbsent | ui/chat_components/chat_panel.py:1461-1467 | removing commands leaves a message that holds none of them unchanged |
| ChatPanel.RemoveAllShortens | ui/chat_components/chat_panel.py:1461-1471 | removing the commands never lengthens a message, and shortens it when one of them occurs |
| ChatPanel.RemovalIffCommand | ui/chat_components/chat_panel.py:1461-1471 | the message changes exactly when one of the commands occurs in it |
| ChatPanel.SpecialCommand | ui/chat_components/chat_panel.py:1448-1552 | a command is handled exactly when a text is stored; when no cancellation is recent, it is handled exactly when a form command or its HTML-escaped form occurs; after a recent cancellation, it is handled exactly when a cancelled-list command occurs |
| ChatPanel.RemoveCommands | ui/chat_components/chat_panel.py:1522-1527 | the removal loops remove every variant, one after the other |
| ChatPanel.Detect | ui/chat_components/chat_panel.py:1500-1516 | the detection loop finds a command exactly when the message mentions one |
| ChatPanel.CheckSpecialCommands | ui/chat_components/chat_panel.py:1448-1552 | the handler's outcome and the stored message are the ones the specification function gives |
| ChatPanel.BasicFields | ui/chat_components/chat_panel.py:804-817 | the dictionary has at most one entry per pattern, each under that pattern's key |
| ChatPanel.BasicFieldsLookup | ui/chat_components/chat_panel.py:805-817 | each field is found or skipped on its own: a failed match or conversion affects no other field |
| ChatPanel.ExtractBasicFields | ui/chat_components/chat_panel.py:804-817 | the loop over the patterns builds the basic-information dictionary |
| ChatPanel.BasicPatternKeysDistinct | ui/chat_components/chat_panel.py:793-802 | the eight pattern keys are distinct, so each field is looked up under its own key |
| ChatPanel.Labels | ui/chat_components/chat_panel.py:820-829 | the set-point numbers are exactly those mentioned, each listed once |
| ChatPanel.CollectLabels | ui/chat_components/chat_panel.py:820-829 | the loop over the matches collects the set-point numbers |
| ChatPanel.PointOf | ui/chat_components/chat_panel.py:832-865 | a point numbered n has index n - 1 and needs both a position and a load match |
| ChatPanel.ParsedPoints | ui/chat_components/chat_panel.py:831-865 | every point kept comes from one of the numbers mentioned, and there are no more points than numbers |
| ChatPanel.CollectPoints | ui/chat_components/chat_panel.py:831-865 | the loop over the numbers builds the parsed set points |
| ChatPanel.WritePoint | ui/chat_components/chat_panel.py:896-900 | an update by index never changes the number of set points |
| ChatPanel.ApplyPointStores | ui/chat_components/chat_panel.py:895-906 | a point inside the list, or just past its end, stores its position and load and is enabled, while its tolerance stays that of the point it overwrote (the new point's default when appended); the list grows only in the second case; no other point changes |
| ChatPanel.ApplyPointsStep | ui/chat_components/chat_panel.py:895-906 | one more parsed point is one more application of the single-point update |
| ChatPanel.ApplyPointBeyond | ui/chat_components/chat_panel.py:901-906 | a point numbered 0 changes nothing; one further than one past the end only appends a default point |
| ChatPanel.AfterBasicFields | ui/chat_components/chat_panel.py:875-892 | a field not found keeps its value; the unit becomes "mm" and the specification is enabled |
| ChatPanel.ApplyParsedPoint | ui/chat_components/chat_panel.py:895-906 | one parsed point goes through the settings service's own operations; only the set points change, and, for a point numbered 1 or more, the settings are the old ones with only the specification rewritten; a point numbered 0 changes nothing |
| ChatPanel.ApplyParsedPoints | ui/chat_components/chat_panel.py:895-906 | every parsed point goes through in turn; when some point is numbered 1 or more the settings are the old ones with only the specification rewritten, and otherwise they are unchanged |
| ChatPanel.ParseSpringSpecs | ui/chat_components/chat_panel.py:771-908 | without a trigger phrase, or with nothing parsed, nothing changes and the result is false; otherwise the basic fields and then the set points are stored and the result is true; whenever anything is written, only "spring_specification" changes among the settings |
| ChatPanel.SafetyLimitIsLost | ui/chat_components/chat_panel.py:1137 | as written, the stored safety limit is 0.0 whatever the user entered |
| ChatPanel.FormBasicStored | ui/chat_components/chat_panel.py:1109-1152 | with the correction, every value the form collected is stored, the specification is enabled and the set points are untouched |
| ChatPanel.FormSetPoints | ui/chat_components/chat_panel.py:1157-1179 | one enabled set point per form set point, in order, with the form's position, load and tolerance |
| ChatPanel.AddFormPoint | ui/chat_components/chat_panel.py:1164-1179 | one form set point appends a new point in the form's values; no setting other than the specification changes |
| ChatPanel.ProcessFormDataAsWritten | ui/chat_components/chat_panel.py:1089-1179 | as written: the basic update, then, when there are set points, the list holds one default point and the call raises; no setting other than the specification changes |
| ChatPanel.ProcessFormData | ui/chat_components/chat_panel.py:1089-1179 | corrected: the basic update with the collected safety limit, then the set points replaced by those of the form, each with its own tolerance; no setting other than the specification changes |
| ChatPanel.StoreFormPoints | ui/chat_components/chat_panel.py:1157-1179 | the list is cleared and ends up holding exactly the form's set points; no setting other than the specification changes |
| SpecificationsPanel.NormalizeTestMode | ui/specifications_panel.py:592-611 | the stripped mode, with " Mode" appended exactly when it is one of the three old names; the result has no surrounding blanks |
| SpecificationsPanel.NormalizeTestModeIdempotent | ui/specifications_panel.py:601-611 | normalising a normalised mode changes nothing |
| SpecificationsPanel.PartIdFromText | ui/specifications_panel.py:687-693 | all-digit text is stored as its number, any other text as itself |
| SpecificationsPanel.PartIdOfNumber | ui/specifications_panel.py:689-690 | the decimal text of a number is stored as that number |
| SpecificationsPanel.SubstituteAll | ui/specifications_panel.py:852-853 | the loop of substitutions applies each one in turn to the previous result |
| SpecificationsPanel.SearchFirst | ui/specifications_panel.py:1382-1386 | the pattern loop with `break` finds a match exactly when one of the patterns matches, and takes the first pattern's |
| SpecificationsPanel.ParseLineBreaks | ui/specifications_panel.py:852-853 | one line-break substitution per key |
| SpecificationsPanel.Fields | ui/specifications_panel.py:882-906 | at most one entry per pattern, each under that pattern's key |
| SpecificationsPanel.FieldsLookup | ui/specifications_panel.py:882-906 | each field is found or skipped on its own: a failed conversion skips that field only |
| SpecificationsPanel.FieldPatternKeysDistinct | ui/specifications_panel.py:859-879 | the field keys are distinct, so each field is looked up under its own key |
| SpecificationsPanel.ExtractFields | ui/specifications_panel.py:882-906 | the loop over the field patterns builds the basic-information dictionary |
| SpecificationsPanel.PositionLines | ui/specifications_panel.py:918-923 | every position line collected comes from the lines already scanned; a failed conversion raises |
| SpecificationsPanel.LoadLines | ui/specifications_panel.py:925-933 | every load line collected comes from the lines already scanned; a failed conversion raises |
| SpecificationsPanel.PositionLinesStayRaised | ui/specifications_panel.py:920-923 | once a position conversion raises, scanning more lines still raises |
| SpecificationsPanel.LoadLinesStayRaised | ui/specifications_panel.py:927-933 | once a load conversion raises, scanning more lines still raises |
| SpecificationsPanel.FirstLoad | ui/specifications_panel.py:940-949 | the load found carries the number asked for; none is found exactly when no load line has that number |
| SpecificationsPanel.FirstLoadAt | ui/specifications_panel.py:940-949 | the load found is the earliest line with that number |
| SpecificationsPanel.Pairs | ui/specifications_panel.py:938-949 | there are no more parsed points than position lines |
| SpecificationsPanel.PairsSpec | ui/specifications_panel.py:938-949 | a parsed point is exactly a position line paired with the first load line of its number, with index one below the number |
| SpecificationsPanel.PairsTakeFirstLoad | ui/specifications_panel.py:939-949 | a position whose number has a load line gets the values of the first such line |
| SpecificationsPanel.ParseSpecificationsText | ui/specifications_panel.py:834-974 | the parse raises exactly when a set-point conversion raises; it gives `None` exactly when no basic field was found, even when set points were; otherwise it gives the fields and the set points |
| SpecificationsPanel.CollectPositionLines | ui/specifications_panel.py:919-923 | the loop over the lines collects the position lines |
| SpecificationsPanel.CollectLoadLines | ui/specifications_panel.py:926-933 | the loop over the lines collects the load lines |
| SpecificationsPanel.FindLoad | ui/specifications_panel.py:940-949 | the inner loop stops at the first load line with the number |
| SpecificationsPanel.PairLines | ui/specifications_panel.py:939-949 | the outer loop builds the pairs |
| SpecificationsPanel.CollectWholePoints | ui/specifications_panel.py:952-966 | the loop over the whole-pattern matches builds the set points |
| SpecificationsPanel.WholePointsRaises | ui/specifications_panel.py:952-958 | once a conversion fails, the later matches change nothing: the parse raises |
| SpecificationsPanel.ParseSpecifications | ui/specifications_panel.py:834-974 | the parser, loop by loop, gives what the parse function gives |
| SpecificationsPanel.PdfLineBreaks | ui/specifications_panel.py:1261-1262 | one line-break substitution per key |
| SpecificationsPanel.CleanLines | ui/specifications_panel.py:1265-1268 | one cleaned line per line, each with its blanks collapsed and stripped |
| SpecificationsPanel.CleanEachLine | ui/specifications_panel.py:1265-1268 | the loop over the lines cleans each one |
| SpecificationsPanel.IgnoringCase | ui/specifications_panel.py:1354-1356 | one case-insensitive pattern per pattern text |
| SpecificationsPanel.Extracted | ui/specifications_panel.py:1353-1359 | at most one entry per field, each under that field's key |
| SpecificationsPanel.ExtractPdfFields | ui/specifications_panel.py:1353-1359 | the nested loops fill the extracted dictionary |
| SpecificationsPanel.PdfFieldKeysDistinct | ui/specifications_panel.py:1274-1351 | the field keys of the table are distinct |
| SpecificationsPanel.ExtractedLookup | ui/specifications_panel.py:1354-1359 | each field comes from the first of its own patterns that matches, whatever the other fields do |
| SpecificationsPanel.ExtractedNothing | ui/specifications_panel.py:1354-1359 | text in which no pattern matches yields no field |
| SpecificationsPanel.PdfIndices | ui/specifications_panel.py:1364-1371 | the set-point numbers are exactly those read from the matches, each listed once; a failed conversion is skipped |
| SpecificationsPanel.CollectPdfIndices | ui/specifications_panel.py:1364-1371 | the loop over the matches collects the set-point numbers |
| SpecificationsPanel.LoadOf | ui/specifications_panel.py:1397-1399 | the stripped load, and the stripped tolerance, or "5" when there is none |
| SpecificationsPanel.PdfPointOf | ui/specifications_panel.py:1374-1400 | a set point has a position exactly when one of its position patterns matches, and a load exactly when one of its load patterns does |
| SpecificationsPanel.FindPdfPoint | ui/specifications_panel.py:1376-1400 | the two pattern loops find the set point's position and load |
| SpecificationsPanel.FindPdfPoints | ui/specifications_panel.py:1373-1400 | every number found gets its set point |
| SpecificationsPanel.InsertAdds | ui/specifications_panel.py:1461 | inserting adds exactly the new element |
| SpecificationsPanel.InsertSorts | ui/specifications_panel.py:1461 | inserting a new number keeps the list ascending |
| SpecificationsPanel.SortedSorts | ui/specifications_panel.py:1461 | distinct numbers come out ascending, with the same elements |
| SpecificationsPanel.LinesWithAppend | ui/specifications_panel.py:1461-1466 | the lines of two runs of numbers are the lines of the first followed by those of the second |
| SpecificationsPanel.PointsTextBlock | ui/specifications_panel.py:1460-1466 | each number's block sits between the blocks of the numbers before it and those after it |
| SpecificationsPanel.EmitPoints | ui/specifications_panel.py:1460-1466 | the output loop writes each number's block, looked up in the map, in turn |
| SpecificationsPanel.MapLinesAgree | ui/specifications_panel.py:1374-1466 | when the map holds each number's own set point, the looked-up blocks are the set-point lines |
| SpecificationsPanel.FieldLinesOfNothing | ui/specifications_panel.py:1403-1458 | no extracted field gives no output line |
| SpecificationsPanel.AnyInIff | ui/specifications_panel.py:1474-1475 | the keyword test finds a keyword exactly when one of them occurs in the lowered line |
| SpecificationsPanel.FallbackTextEmpty | ui/specifications_panel.py:1470-1476 | when no stripped raw line passes the keyword test, the fallback adds nothing |
| SpecificationsPanel.FallbackLines | ui/specifications_panel.py:1470-1476 | the loop over the raw lines builds the fallback text: each stripped line that passes the test, with a newline |
| SpecificationsPanel.CleanPdfText | ui/specifications_panel.py:1247-1482 | non-blank formatted fields and set points are returned as they are; otherwise the result is the original text or the formatted text followed by the raw keyword lines, and a blank result is only ever the original text |
| SpecificationsPanel.CleanPdfNothingFound | ui/specifications_panel.py:1468-1480 | when nothing is found and no raw line holds a keyword, the text comes back unchanged |
| SpecificationsPanel.CleanPdfLines | ui/specifications_panel.py:1259-1268 | the line-break substitutions, the per-line cleaning and the join give the cleaned text |
| SpecificationsPanel.PdfPointLines | ui/specifications_panel.py:1361-1467 | the numbers found, their set points looked up and written in ascending order give the set-point lines |
| SpecificationsPanel.FormatPdf | ui/specifications_panel.py:1256-1467 | the loops give the formatted fields followed by the set-point lines |
| SpecificationsPanel.CleanPdf | ui/specifications_panel.py:1247-1482 | the cleaner, loop by loop, gives what the cleaning function gives |
| SpecificationForm.SummaryLines | ui/chat_components/chat_specification_form.py:970-974 | four summary lines; without basic information the part reads "Not specified" and the free length "0 mm"; the last line gives the number of set points |
| SpecificationForm.SpecificationFormManager.constructor | ui/chat_components/chat_specification_form.py:480-497 | empty form data, index 0, state init, nothing emitted |
| SpecificationForm.SpecificationFormManager.StartFormWorkflow | ui/chat_components/chat_specification_form.py:518-532 | the data is reset, the index set to 0, and the basic section shown; the wizard invariant holds |
| SpecificationForm.SpecificationFormManager.OnBasicInfoCompleted | ui/chat_components/chat_specification_form.py:550-556 | the basic information is stored and the optional question shown; nothing else changes; the invariant is kept |
| SpecificationForm.SpecificationFormManager.SkipOptionalInfo | ui/chat_components/chat_specification_form.py:659-662 | on to the set-point question with the data unchanged; the invariant is kept |
| SpecificationForm.SpecificationFormManager.ShowOptionalInfoSection | ui/chat_components/chat_specification_form.py:664-678 | the optional section is shown with the data unchanged; the invariant is kept |
| SpecificationForm.SpecificationFormManager.OnOptionalInfoCompleted | ui/chat_components/chat_specification_form.py:680-686 | the optional information is stored and the set-point question shown; the invariant is kept |
| SpecificationForm.SpecificationFormManager.SkipSetPoints | ui/chat_components/chat_specification_form.py:795-798 | the form completes with no set points |
| SpecificationForm.SpecificationFormManager.ShowSetPointSection | ui/chat_components/chat_specification_form.py:800-814 | a set-point section is shown, created with the current index; the invariant is kept |
| SpecificationForm.SpecificationFormManager.ContinueSetPoint | ui/chat_components/chat_specification_form.py:816-828 | the section's data, with the index it was created with, is appended; with "add another" the index goes up by one and the next section is shown, otherwise the form completes; the k-th set point keeps index k |
| SpecificationForm.SpecificationFormManager.OnFormDone | ui/chat_components/chat_specification_form.py:1062-1068 | form_completed is emitted with the data collected, and nothing else changes |
| SpecificationForm.SpecificationFormManager.HandleWebFormCompletion | ui/chat_components/chat_specification_form.py:1056-1060 | Done in the web view emits form_completed exactly when it was clicked |
| SpecificationForm.SpecificationFormManager.OnFormCancelled | ui/chat_components/chat_specification_form.py:1070-1076 | form_cancelled is emitted and the data is not touched |
| SpecificationForm.RunWorkflow | ui/chat_components/chat_specification_form.py:518-1065 | a run from a fresh start emits one form_completed holding the basic information, the optional answer and the n set points in order with indices 0 to n - 1 |
| ChatDisplay.FlattenSnoc | ui/chat_components/chat_display.py:251-260 | the messages of a list of groups with one more group are the earlier messages followed by that group's |
| ChatDisplay.AddMessageFlatten | ui/chat_components/chat_display.py:251-256 | adding a message to the groups appends it to the history they hold |
| ChatDisplay.AddMessageWellGrouped | ui/chat_components/chat_display.py:251-256 | adding a message keeps the groups non-empty, single-role and alternating, and the last group has the message's role |
| ChatDisplay.GroupsFlatten | ui/chat_components/chat_display.py:234-260 | the groups' messages, one after the other, are the history in order |
| ChatDisplay.GroupsWellGrouped | ui/chat_components/chat_display.py:234-260 | no group is empty, each holds one role, and neighbouring groups differ in role |
| ChatDisplay.WellGroupedInit | ui/chat_components/chat_display.py:251-256 | a well-grouped split without its last group is still well grouped |
| ChatDisplay.WellGroupedDropLast | ui/chat_components/chat_display.py:251-256 | dropping the last message of a last group that has more than one keeps the split well grouped |
| ChatDisplay.GroupsUnique | ui/chat_components/chat_display.py:234-260 | any well-grouped split of the history is the grouping built, so the groups are exactly the maximal runs of one role |
| ChatDisplay.GroupMessages | ui/chat_components/chat_display.py:234-260 | the grouping loop builds the groups of the history |
| ChatDisplay.PositionClass | ui/chat_components/chat_display.py:285-293 | "" for a one-message group, else first, middle or last by position, prefixed with the role |
| ChatDisplay.FormattedTime | ui/chat_components/chat_display.py:276-282 | no timestamp gives ""; a timestamp that does not parse is shown as it is |
| ChatDisplay.BubbleParts | ui/chat_components/chat_display.py:296-311 | the bubble comes first; a time follows exactly after the group's last bubble, and only when it is not empty |
| ChatDisplay.RenderGroup | ui/chat_components/chat_display.py:265-313 | the loop over a group's messages gives its parts |
| ChatDisplay.AddBubble | ui/chat_components/chat_display.py:272-311 | one message of a group appends exactly its bubble and, after the group's last message, its time |
| ChatDisplay.RenderGroups | ui/chat_components/chat_display.py:263-313 | the loop over the groups gives their parts, one group after the other |
| ChatDisplay.JsSafeIsEscape | ui/chat_components/chat_display.py:319 | the chained replacements are a single escape of backslash, backtick and dollar |
| ChatDisplay.TemplateValueOfEscape | ui/chat_components/chat_display.py:319-324 | the template literal reads an escaped text back exactly |
| ChatDisplay.JsSafeRoundTrip | ui/chat_components/chat_display.py:319-324 | the page's template reads the HTML back unchanged: nothing ends it early or is interpolated |
| ChatDisplay.RefreshDisplay | ui/chat_components/chat_display.py:224-342 | an empty history updates nothing; otherwise the template reads back the groups' parts joined by newlines |
| ChatDisplay.CodeTableOrdered | ui/chat_components/chat_display.py:361-365 | "&amp;" comes first, so no later replacement is replaced again |
| ChatDisplay.EscapeCodeIsEscape | ui/chat_components/chat_display.py:361-365 | the chained replacements escape each special character once |
| ChatDisplay.CodeTableReplacements | ui/chat_components/chat_display.py:361-365 | the table escapes <, > and ", and no replacement holds any of them |
| ChatDisplay.EscapedCodeIsInert | ui/chat_components/chat_display.py:361-365 | no <, > or " is left in escaped code |
| ChatDisplay.Language | ui/chat_components/chat_display.py:357 | the name shown is never empty: the fence's language, or "text" when it has none |
| ChatDisplay.FormatCodeBlocks | ui/chat_components/chat_display.py:344-388 | no newline is left in the formatted content |
| Escaping.EscapeChar | ui/chat_components/chat_display.py:361-365 | a character not in the table stays itself; one in it becomes the replacement of its entry |
| Escaping.ChainAppend | ui/chat_components/chat_display.py:361-365 | the chained replacements of a concatenation are the concatenation of the replacements |
| Escaping.ChainAbsent | ui/chat_components/chat_display.py:361-365 | text holding no replaced character is left alone |
| Escaping.ChainChar | ui/chat_components/chat_display.py:361-365 | with an ordered table, the chain on one character is its single-pass escape |
| Escaping.ChainIsEscape | ui/chat_components/chat_display.py:319 | with an ordered table, the chained replacements are a single left-to-right escape |
| Escaping.EscapeAppend | ui/chat_components/chat_display.py:361-365 | the escape of a concatenation is the concatenation of the escapes |
| Escaping.EscapeAvoids | ui/chat_components/chat_display.py:361-365 | an escaped character that no replacement holds does not survive the escape |
| MessageFormatter.HtmlTableFacts | ui/chat_components/message_formatter.py:111 | "&" is replaced first, so the chain is ordered; the table escapes < and >, and no replacement holds either |
| MessageFormatter.EscapeHtmlIsEscape | ui/chat_components/message_formatter.py:111 | the chained replacements escape each of &, < and > once, and no < or > is left |
| MessageFormatter.FormatRegularTextEscapesFirst | ui/chat_components/message_formatter.py:108-121 | the text is escaped before any tag is put in: the links and emphasis see no raw < or > of the text |
| MessageFormatter.LeadingSpaces | ui/chat_components/message_formatter.py:145 | the count of spaces a line starts with: all of them spaces, and the next character is not one |
| MessageFormatter.Spaces | ui/chat_components/message_formatter.py:145-147 | n spaces |
| MessageFormatter.IndentOf | ui/chat_components/message_formatter.py:146-147 | a line's n leading spaces become exactly n "&nbsp;" and the rest is kept |
| MessageFormatter.LeadingSpacesOf | ui/chat_components/message_formatter.py:145 | n spaces before a non-space are counted as n |
| MessageFormatter.FormatCode | ui/chat_components/message_formatter.py:124-149 | the loop that rewrites each line's indentation in place gives the formatted code, lines joined with <br> |
| MessageFormatter.MatchesAny | ui/chat_components/message_formatter.py:71-75 | the pattern loop with `break` finds a code line exactly when one of the patterns matches at the start |
| MessageFormatter.AnyMatchIff | ui/chat_components/message_formatter.py:71-75 | trying the patterns in list order finds one exactly when some pattern matches at the start of the line |
| MessageFormatter.RunClosedLast | ui/chat_components/message_formatter.py:99-102 | for any rendering, a code run still open at the end is closed as the last part, holding the code lines that end the input |
| MessageFormatter.TrailingRun | ui/chat_components/message_formatter.py:77-87 | the run is made of code lines only |
| MessageFormatter.ScannedRun | ui/chat_components/message_formatter.py:66-97 | after the loop the open block holds exactly the code lines that end the input, and it is open exactly when there are some |
| MessageFormatter.AllCodeLines | ui/chat_components/message_formatter.py:66-102 | input made only of code lines becomes one code block holding them all |
| MessageFormatter.AllCodeScan | ui/chat_components/message_formatter.py:77-80 | scanning code lines only collects them all in one open block |
| MessageFormatter.ProseLines | ui/chat_components/message_formatter.py:89-93 | non-blank lines none of which is code become one paragraph each, in order, with no block left open |
| MessageFormatter.OpenRunClosed | ui/chat_components/message_formatter.py:99-102 | a code block still open when the input ends is closed as the output's last part |
| MessageFormatter.IsCode | ui/chat_components/message_formatter.py:68-75 | the code test, indentation first and then the pattern loop for a non-blank line, computes the code-line predicate the line loop applies |
| MessageFormatter.CodeBlock | ui/chat_components/message_formatter.py:84 | the block of a run of code lines, through the indentation loop, is the block the line loop puts in |
| MessageFormatter.ScanLine | ui/chat_components/message_formatter.py:66-97 | one pass of the loop, with its flag and buffers, is one step of the scan function, for any code test, paragraph and block rendering |
| MessageFormatter.TextLine | ui/chat_components/message_formatter.py:89-97 | a text line appends its paragraph; a blank line appends an empty paragraph only after a part that does not end one |
| MessageFormatter.RenderLines | ui/chat_components/message_formatter.py:62-102 | the line loop and the closing of a run still open give the parts the scan function gives |
| MessageFormatter.ProcessRegular | ui/chat_components/message_formatter.py:57-105 | the split, the line loop and the join give what the regular-text function gives |
| MessageFormatter.NoFenceText | ui/chat_components/message_formatter.py:46-52 | without a fenced block the whole content goes through the regular-text processing |
| MessageFormatter.NoFence | ui/chat_components/message_formatter.py:46-52 | with no fence found the message is processed as regular text |
| MessageFormatter.OneFenceText | ui/chat_components/message_formatter.py:34-48 | with one fence: the text before it, the block, and the text after it |
| MessageFormatter.OneFence | ui/chat_components/message_formatter.py:34-54 | with one fence and text on both sides: the text before it formatted inline, the block, the text after it processed as regular text |
| MessageFormatter.FencesInOrder | ui/chat_components/message_formatter.py:34-43 | fences one right after the other give one block per fence, in the order found |
| MessageFormatter.FenceBlock | ui/chat_components/message_formatter.py:41-42 | the block of one fence |
| MessageFormatter.FormatMessageContent | ui/chat_components/message_formatter.py:21-54 | the loop over the fences gives what the message function gives |
| Regex.FirstSearch | ui/specifications_panel.py:1355-1359 | the first pattern in list order that matches, with its match; none exactly when no pattern matches |
| Regex.FirstSearchIsFirst | ui/specifications_panel.py:1355-1359 | the earliest matching pattern is the one reported |
| Regex.Slice | ui/chat_components/message_formatter.py:37 | Python slicing with non-negative bounds: the text between them, clipped, and empty when they cross |
| Regex.SubWithNone | ui/chat_components/chat_display.py:375 | substitution without a match returns the text as it is |
| Regex.SubWithOne | ui/chat_components/chat_display.py:375 | one match: the text before it, its replacement, the text after it |

## Left out

- Qt widgets, layouts, style sheets, signals, timers and web views are not modelled. These are user-interface plumbing with no logic to state. The form's sections are the records their `collect_data` returns. The web view's `runJavaScript` becomes the text placed in the page's template.
- HTTP requests, threads, retries, sleeps and cancellation are left out. That includes the request loops of both workers, `validate_api_key`, `get_headers` and `check_ollama_availability`, which are network and concurrency. A reply text is an input of the model.
- File persistence is left out: the pickle and encryption in the services, the JSON file in `utils/settings.py`, and the files written by the exporters. These are I/O. Saving and writing are booleans the caller supplies.
- Python `re` semantics are left out. Patterns are matched by the uninterpreted `Regex.Engine`. DOTALL and IGNORECASE are recorded with the pattern but not interpreted.
- `json.loads`, `float()`, `int()` and datetime parsing and formatting are parameters or uninterpreted functions. Timestamps are their ISO text.
- Floating-point arithmetic is left out. A float is its value and its `str()` text, with no link between the two.
- pandas DataFrames are lists of row dictionaries, and a missing key stands for NaN. `PandasModel` (`models/table_models.py:11-77`) is not part of this model: it only forwards DataFrame cells to Qt.
- `str.lower()`, `str.isdigit()` and the regular-expression class `\d` are modelled for ASCII only; `str.strip()` uses Python's whitespace set.
- POSIX path handling in the exporters is reduced to the string operations the code performs.
- `calculate_optimal_speeds` is not modelled: it is a floating-point heuristic with `round`.
- `create_sequence_from_template` is not modelled: it returns `None` without doing anything.
- `reset_settings_state` is not modelled. It is called by the specifications panel but not defined on `SettingsService`, so the call raises `AttributeError`.
- The refresh of the sidebar and the chat messages that `_process_form_data` and `_on_spec_form_completed` produce are not modelled. They are UI updates; the stored specification is modelled.
- `_complete_form`'s HTML page is not modelled; only its fallback summary lines are (`SpecificationForm.SummaryLines`).
- TogetherClient.EmitFrame: the worker's parsing methods run the splitter as written, with the merged Scrag cell. The corrected splitter is `RowCodec.Cells` with its `fixed` flag set, and its round trip is `RowCodec.CorrectedRowRoundTrip`.
- ChatDisplay.FormatCodeBlocks: states only that no newline is left. The escaping and language of a block are stated by `ChatDisplay.EscapeCodeIsEscape`, `ChatDisplay.EscapedCodeIsInert` and `ChatDisplay.Language`; the substitutions themselves are the uninterpreted engine's.
- ChatDisplay.FormattedTime: the `strftime` text of a parsed timestamp is the parameter's result; only the empty and unparsable cases are stated.
- SpecificationsPanel.ParseLineBreaks and SpecificationsPanel.PdfLineBreaks: state only one substitution per key; what a substitution does is the engine's.
- DataModels.AsFloat: a stored value that is not a number reads as the field's default. Python keeps the raw value in the field, whatever its type.
- DataModels.AsBool: a stored flag is reduced to its truthiness. Python keeps the raw value.
- DataModels.AsString: a stored value that is not text reads as the default. Python keeps the raw value.
- DataModels.AsPartId: a stored part id that is neither an int nor a string reads as 0. Python keeps the raw value.
- DataModels.ChatMessageFromDict: a role or content that is not text gives `None`, where Python builds the message with the raw value. A timestamp that is not text gives `None`, as Python's `datetime.fromisoformat` raises `TypeError` on it (models/data_models.py:32). A text timestamp that is not in ISO form is kept as it stands, where `fromisoformat` raises `ValueError`.
- DataModels.TestSequenceFromDict: rows that are not a list of dictionaries, parameters that are not a dictionary give `None`, and a name that is not text reads as `None`; Python keeps these raw values. A created_at that is not text gives `None`, as Python's `datetime.fromisoformat` raises `TypeError` on it (models/data_models.py:59). A text created_at that is not in ISO form is kept as it stands, where `fromisoformat` raises `ValueError`.
- DataModels.SetPointFromDict: ill-typed stored values read as the defaults, through `AsFloat` and `AsBool`. Python keeps the raw values.
- DataModels.SpecFromDict: ill-typed stored fields read as the defaults, through `AsFloat`, `AsString`, `AsBool` and `AsPartId`. Python keeps the raw values.
- DataModels.AppSettingsFromDict: recent sequences that are not a list of text, or a history bound that is not an int, give `None`; an API key or export format that is not text reads as the default. Python keeps the raw values.
- SettingsService.SettingsService.UpdateSetPoint: the `corrected` parameter is not in the source. False is the code as written, which `parse_spring_specs` uses; true is the fix of the first finding, which only the corrected form processing uses.
- Values.StrRepr: characters outside ASCII are written as they stand. Python's `repr` also escapes the non-ASCII characters it does not consider printable, as `\x..`, `\u....` or `\U........`.
- TogetherClient.SequenceData: the `json` parameter stands for `json.loads` followed by `pd.DataFrame`, so it either gives a table or fails to parse. JSON that parses but is not a table cannot be expressed. In the source, an integer such as `5` makes `len(data)` in the debug print at utils/together_api_client.py:292 raise `TypeError`; a string or a dictionary of scalars passes that line and makes `pd.DataFrame(data)` at utils/together_api_client.py:295 raise `ValueError`. Neither is a `json.JSONDecodeError`, so the `except` at utils/together_api_client.py:297 lets it pass; the worker's `except Exception` at utils/together_api_client.py:612 catches it and enters the retry loop, which is not modelled (see the HTTP line above).
- TableModels.ParametersText: stored parameters that are not a dictionary show "No parameters". In Python, `in` runs on the raw value: a string is searched for the key as a substring, and a list is searched as a list; when the key is found, the indexing that follows raises `TypeError`, and `None` raises on `in` at once.
- KeySpecs.ChosenSpecs: the values it chooses among are always dictionaries, so the `isinstance(specs, SpringSpecification)` branch of services/export_service_txt.py:601-616 is not modelled. It cannot run in the application: services/sequence_generator.py:94-96 stores the specification under spring_specification as a dictionary, never as a `SpringSpecification` object.
- The synchronous `SequenceGenerator.generate_sequence` (services/sequence_generator.py:270-309) is not modelled. No file in the repository calls it. It chains the modelled preparation (`PrepareParameters`), a blocking API call and the modelled recording of the result in last_sequence and the history (`Record`).

## Findings

| source | as written | input that shows it | evidently intended | confidence | as-written member | corrected member |
|---|---|---|---|---|---|---|
| services/settings_service.py:419 | `update_set_point` assigns the tolerance to `tolerance_pct`, an attribute `to_dict` never reads | any update whose tolerance differs from the stored one, such as 5.0 over 10.0 | the new tolerance is stored in `tolerance_percent` | high, not executed | SettingsService.ToleranceIsLost | SettingsService.UpdatedSetPointIsStored |
| test_parser_fixed.py:56 | the "second comma" test runs on the cell just after a comma was appended to it, so it can never match | the row `R09, Scrag, Scragging, R03,2, N, x, ` puts `R03,2, N` in the Condition cell | the comma after `R03,2` ends the Condition cell | high, not executed | RowCodec.ScragLineAsWritten | RowCodec.ScragLineCorrected |
| test_sequence_sample.py:80-91 | the serializer quotes `R03,2`, and the splitter as written keeps the comma after the quoted reference | the sample row R09 (Scrag, Condition `R03,2`) reads back with six cells | every serialized row reads back as its seven values | high, not executed | RowCodec.AsWrittenLosesScragCell | RowCodec.CorrectedRowRoundTrip |
| ui/chat_components/chat_panel.py:1137 | the safety limit is read from `optional_info`, which never holds one | a form whose basic section has safety limit 50 stores 0.0 | the limit the basic section collected is stored | high, not executed | ChatPanel.SafetyLimitIsLost | ChatPanel.FormBasicStored |
| ui/chat_components/chat_panel.py:1171-1179 | `update_set_point` is called with `scrag_enabled` and `scrag_value`, which it does not take, so it raises `TypeError` | any form with one set point stores one default point and raises | each form set point is stored with its position, load and tolerance | high, not executed | ChatPanel.ProcessFormDataAsWritten | ChatPanel.ProcessFormData |
