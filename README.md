# demisto-sdk core, modelled in Dafny

This project models three parts of demisto-sdk, the command-line toolkit for Cortex XSOAR content packs.

1. **The deprecation-usage checker.** It is behind the validators' `is_integration_deprecated_and_used`, `is_script_deprecated_and_used` and `is_playbook_deprecated_and_used`.
   - The checker takes an immutable id-set: scripts with `depends_on`, and playbooks and test-playbooks with `implementing_scripts`, `implementing_playbooks` and `command_to_integration`.
   - It decides whether a deprecated integration command, script or playbook is still used by a non-deprecated consumer.
   - It produces the `[IN153]`, `[SC107]` and `[PB118]` reports.
   - The implementing module is not part of this model. Its behaviour is taken from the fixture and the expectation tables of its test file, and every row of those tables is a lemma of `DeprecationFixture`.
2. **The YAML builders of `generate_yml_from_python`.** These are:
   - the YAML file name;
   - the import block put at the head of the Python file while its metadata is collected, and taken off again;
   - the `MetadataToDict` builders of the integration dictionary, its configuration keys, command arguments and command outputs.
3. **The bookkeeping of `UpdateReleaseNotesManager`.** This covers:
   - option normalisation and the `-g` conflict in the constructor;
   - the map of release notes already added per pack;
   - the three-way answer of `get_existing_rn`;
   - which packs `create_release_notes` processes;
   - when a pack is counted as updated.

## Modules

- `wrappers.dfy` (`Wrappers`): Python's optional values.
- `strings.dfy` (`Strings`): Python's `in`, `split` and `join` on strings, and the last index of a character, with the round-trip lemmas the rest uses.
- `diagnostic_texts.dfy` (`DiagnosticTexts`): the fixed wording of the three reports.
- `deprecation.dfy` (`Deprecation`): the id-set as sequences of typed records, the consumer lookups, the three checks as functions returning `(bool, string)`, and their properties.
- `deprecation_fixture.dfy` (`DeprecationFixture`): the test's `mocked_id_set` and one lemma per table row.
- `collector_imports.dfy` (`CollectorImports`): the two import lines and the block built from them.
- `generate_yml.dfy` (`GenerateYml`): the file name, the add/remove transforms, the type mapping and the class `MetadataToDict`.
- `update_rn_manager.dfy` (`UpdateRnManager`): option normalisation, the release-notes map, the per-pack decision and the class `UpdateReleaseNotesManager`.

## Reading choices

- **Which test-playbooks count as consumers.** A test-playbook counts only when three things hold: the validated entity names it in its `tests`, it is not deprecated, and it refers to the entity. `"No Tests"` names no test-playbook.
  - A reading that counts every listed active test-playbook, referring or not, would report `ic7_command2` of `integration_case_7`, which the test says must not be reported.
  - A reading that ignores `tests` and counts every active test-playbook that refers to the entity also fits every row of the test's tables: the fixture cannot tell it apart from the gate. Keeping the gate is a choice of this model.
- **Consumer order in a report:**
  - for commands: test-playbooks, scripts, playbooks;
  - for scripts: scripts, test-playbooks, playbooks;
  - for playbooks: test-playbooks, playbooks.
  - Within each kind, the id-set's order is kept.
- **Consumer paths are not deduplicated.** Each active record that uses the entity adds its own `file_path` once. Two such records with the same path, for example one listed under both `playbooks` and `TestPlaybooks`, put that path in the report twice. No row of the test's tables tells this apart from a report that drops repeated paths and keeps the first occurrence.
- **The fixture is taken as written.** This includes the missing comma in `script_1`'s `depends_on`, which joins two names into the one string `"script_format_case_1ifc1_command3"`. It has no observable effect: `script_1` is deprecated, so it is not a consumer of either name, and the fixture's expectations hold with it.
- **Python sets.** Two loops iterate over a Python set, so their order is whatever the set yields. The model leaves it open in both, and the postconditions hold for every order.
  - `create_release_notes` visits the changed packs in that order. Each step picks any pack not yet visited.
  - `check_existing_rn` visits the added files in that order, modelled as the sequence `addedFiles`. When a pack has two added release-notes files, the one recorded depends on that order. "Last" in `LastReleaseNotes` means last in that order.

## Model

| member | source | states |
|---|---|---|
| Deprecation.ScriptUsersMembers | demisto_sdk/commands/common/tests/deprecation_test.py:12-47 | a path is reported as a script consumer of an id exactly when some non-deprecated script of the id-set with that path lists the id in `depends_on` |
| Deprecation.PlaybookUsersMembers | demisto_sdk/commands/common/tests/deprecation_test.py:48-120 | a path is reported as a (test-)playbook consumer exactly when some non-deprecated record with that path refers to the id through the relevant field and passes the `tests` gate |
| Deprecation.ScriptUsersEmpty | demisto_sdk/commands/common/tests/deprecation_test.py:12-47 | no script consumer is reported exactly when no script of the id-set is an active user |
| Deprecation.PlaybookUsersEmpty | demisto_sdk/commands/common/tests/deprecation_test.py:48-120 | no (test-)playbook consumer is reported exactly when no record is an active, admitted user |
| Deprecation.FlaggedCommands | demisto_sdk/commands/common/tests/deprecation_test.py:131-147 | every reported command carries a non-empty list of consumers, and that list is exactly its consumers in report order; no more entries than commands |
| Deprecation.IsIntegrationDeprecatedAndUsed | demisto_sdk/commands/common/tests/deprecation_test.py:131-147 | the check passes exactly when the report is empty, and exactly when no command is flagged; a failure carries the `[IN153]` report over the flagged commands and their consumers |
| Deprecation.IsScriptDeprecatedAndUsed | demisto_sdk/commands/common/tests/deprecation_test.py:219-226 | a non-deprecated script passes with no report; the check passes exactly when the report is empty; a failure carries the `[SC107]` report over the script's consumers |
| Deprecation.IsPlaybookDeprecatedAndUsed | demisto_sdk/commands/common/tests/deprecation_test.py:281-287 | a non-deprecated playbook passes with no report; the check passes exactly when the report is empty; a failure carries the `[PB118]` report over the playbook's consumers |
| Deprecation.IntegrationVerdict | demisto_sdk/commands/common/tests/deprecation_test.py:139-143 | the integration check fails exactly when some command is deprecated (itself or through its integration) and has an active consumer |
| Deprecation.FlaggedAreViolating | demisto_sdk/commands/common/tests/deprecation_test.py:183-189 | every command named in the report is a declared command that is effectively deprecated and has an active consumer |
| Deprecation.ViolatingAreFlagged | demisto_sdk/commands/common/tests/deprecation_test.py:183-189 | every effectively deprecated command with an active consumer is named in the report |
| Deprecation.FlaggedInDeclarationOrder | demisto_sdk/commands/common/tests/deprecation_test.py:191-195 | of two neighbouring entries of the `[IN153]` report, the first names a command declared before the command the second names |
| Deprecation.ScriptVerdict | demisto_sdk/commands/common/tests/deprecation_test.py:219-226 | the script check passes exactly when the script is not deprecated or no active script, listed test-playbook or playbook uses it |
| Deprecation.PlaybookVerdict | demisto_sdk/commands/common/tests/deprecation_test.py:281-287 | the playbook check passes exactly when the playbook is not deprecated or no active listed test-playbook or playbook uses it |
| Deprecation.NoneFlaggedWhenNoneDeprecated | demisto_sdk/commands/common/tests/deprecation_test.py:137-138 | when neither the integration nor any command is deprecated, no command is reported |
| Deprecation.NonDeprecatedIntegrationPasses | demisto_sdk/commands/common/tests/deprecation_test.py:137-138 | a non-deprecated integration without deprecated commands passes with an empty report, whoever uses its commands |
| Deprecation.InheritedDeprecationIsReported | demisto_sdk/commands/common/tests/deprecation_test.py:131-132 | a command of a deprecated integration, not marked itself, that an active script depends on makes the check fail and is named in the report |
| Deprecation.ListedActiveTestFailsScript | demisto_sdk/commands/common/tests/deprecation_test.py:224 | a deprecated script that lists an active test-playbook implementing it fails the check |
| Deprecation.ListedActiveTestFailsPlaybook | demisto_sdk/commands/common/tests/deprecation_test.py:286 | a deprecated playbook that lists an active test-playbook implementing it fails the check |
| Deprecation.GateDependsOnListedNames | demisto_sdk/commands/common/tests/deprecation_test.py:222 | two `tests` lists that name the same test-playbooks give the same test-playbook consumers |
| Deprecation.NoTestsAdmitsNone | demisto_sdk/commands/common/tests/deprecation_test.py:222 | a `tests` list holding only `"No Tests"` admits no test-playbook consumer |
| Deprecation.NoTestsChangesNothing | demisto_sdk/commands/common/tests/deprecation_test.py:284 | adding `"No Tests"` to `tests` changes neither the script nor the playbook verdict and report |
| Deprecation.FixedTextsHaveNoNewline | demisto_sdk/commands/common/tests/deprecation_test.py:191-195 | the report headers and the per-command line hold no newline, given a name without one |
| Deprecation.ScriptDiagnosticLines | demisto_sdk/commands/common/tests/deprecation_test.py:257-259 | the `[SC107]` report split at newlines is its header followed by the consumer paths |
| Deprecation.PlaybookDiagnosticLines | demisto_sdk/commands/common/tests/deprecation_test.py:315-317 | the `[PB118]` report split at newlines is its header followed by the consumer paths |
| Deprecation.CommandBlocksClean | demisto_sdk/commands/common/tests/deprecation_test.py:191-195 | no line of the per-command blocks holds a newline |
| Deprecation.IntegrationDiagnosticLines | demisto_sdk/commands/common/tests/deprecation_test.py:191-195 | the `[IN153]` report split at newlines is its header followed by each flagged command's line and its consumer paths |
| DeprecationFixture.IntegrationCase1 | demisto_sdk/commands/common/tests/deprecation_test.py:131-132 | `integration_case_1` fails, and its report names `ic1_command1` |
| DeprecationFixture.IntegrationCase2 | demisto_sdk/commands/common/tests/deprecation_test.py:133-134 | `integration_case_2` fails, and its report names `ic2_command1` |
| DeprecationFixture.IntegrationCase3 | demisto_sdk/commands/common/tests/deprecation_test.py:135-136 | `integration_case_3` passes with no report |
| DeprecationFixture.IntegrationCase4 | demisto_sdk/commands/common/tests/deprecation_test.py:137-138 | `integration_case_4` passes with no report |
| DeprecationFixture.IntegrationCase5 | demisto_sdk/commands/common/tests/deprecation_test.py:139-140 | `integration_case_5` passes with no report |
| DeprecationFixture.IntegrationCase6 | demisto_sdk/commands/common/tests/deprecation_test.py:141-143 | `integration_case_6` fails, and only `ic6_command1` is reported, not `ic6_command2` or `ic6_command3` |
| DeprecationFixture.IntegrationCase7 | demisto_sdk/commands/common/tests/deprecation_test.py:144-146 | `integration_case_7` fails, and only `ic7_command1` is reported, not `ic7_command2` |
| DeprecationFixture.IntegrationFormatCase1 | demisto_sdk/commands/common/tests/deprecation_test.py:191-195 | the report of `integration_format_case_1` is exactly the asserted `[IN153]` text |
| DeprecationFixture.ScriptCase1 | demisto_sdk/commands/common/tests/deprecation_test.py:219 | `script_case_1` passes |
| DeprecationFixture.ScriptCase2 | demisto_sdk/commands/common/tests/deprecation_test.py:220 | `script_case_2` fails |
| DeprecationFixture.ScriptCase3 | demisto_sdk/commands/common/tests/deprecation_test.py:221 | `script_case_3` fails |
| DeprecationFixture.ScriptCase4 | demisto_sdk/commands/common/tests/deprecation_test.py:222 | `script_case_4` passes |
| DeprecationFixture.ScriptCase5 | demisto_sdk/commands/common/tests/deprecation_test.py:223 | `script_case_5` passes |
| DeprecationFixture.ScriptCase6 | demisto_sdk/commands/common/tests/deprecation_test.py:224 | `script_case_6` fails |
| DeprecationFixture.ScriptCase7 | demisto_sdk/commands/common/tests/deprecation_test.py:225 | `script_case_7` passes |
| DeprecationFixture.ScriptFormatCase1 | demisto_sdk/commands/common/tests/deprecation_test.py:257-259 | the report of `script_format_case_1` is exactly the asserted `[SC107]` text |
| DeprecationFixture.PlaybookCase1 | demisto_sdk/commands/common/tests/deprecation_test.py:281 | `playbook_case_1` passes |
| DeprecationFixture.PlaybookCase2 | demisto_sdk/commands/common/tests/deprecation_test.py:282 | `playbook_case_2` fails |
| DeprecationFixture.PlaybookCase3 | demisto_sdk/commands/common/tests/deprecation_test.py:283 | `playbook_case_3` passes |
| DeprecationFixture.PlaybookCase4 | demisto_sdk/commands/common/tests/deprecation_test.py:284 | `playbook_case_4` passes |
| DeprecationFixture.PlaybookCase5 | demisto_sdk/commands/common/tests/deprecation_test.py:285 | `playbook_case_5` passes |
| DeprecationFixture.PlaybookCase6 | demisto_sdk/commands/common/tests/deprecation_test.py:286 | `playbook_case_6` fails |
| DeprecationFixture.PlaybookFormatCase1 | demisto_sdk/commands/common/tests/deprecation_test.py:315-317 | the report of `playbook_format_case_1` is exactly the asserted `[PB118]` text |
| GenerateYml.YmlFilenameReplacesLastSegment | demisto_sdk/commands/generate_yml_from_python/generate_yml.py:138-141 | the YAML name is the file name up to and including its last '.', followed by `yml`; a name without '.' gives `yml` |
| GenerateYml.YmlFilenameOfPython | demisto_sdk/commands/generate_yml_from_python/generate_yml.py:138-141 | `<base>.py` gives `<base>.yml` |
| GenerateYml.AddCollectorImports | demisto_sdk/commands/generate_yml_from_python/generate_yml.py:99-106 | the result starts with the collector import line, and content that already starts with it is left alone |
| GenerateYml.RemoveCollectorImports | demisto_sdk/commands/generate_yml_from_python/generate_yml.py:108-121 | content without the collector import line is left alone |
| GenerateYml.AddCollectorImportsIdempotent | demisto_sdk/commands/generate_yml_from_python/generate_yml.py:99-106 | adding the imports twice is the same as adding them once |
| GenerateYml.RemoveAfterAdd | demisto_sdk/commands/generate_yml_from_python/generate_yml.py:99-121 | removing after adding gives back content that holds no copy of the import block |
| GenerateYml.RemoveStripsExistingBlock | demisto_sdk/commands/generate_yml_from_python/generate_yml.py:99-121 | content that already starts with the block is not changed by adding, and removing then takes the block off |
| GenerateYml.MetadataType | demisto_sdk/commands/generate_yml_from_python/generate_yml.py:539-550 | `String` exactly for str/AnyStr, `Date` exactly for datetime/date, `Number` exactly for int/float, `Boolean` exactly for bool, `Unknown` exactly for every other type |
| GenerateYml.ConfigKeys | demisto_sdk/commands/generate_yml_from_python/generate_yml.py:232-237 | a configuration entry always has `display`, `name`, `type` and `required` |
| GenerateYml.ContextPath | demisto_sdk/commands/generate_yml_from_python/generate_yml.py:439-444 | the context path is `prefix.name` for a non-empty prefix and `name` otherwise; with several prefixes it is the output's own `prefix.name` |
| GenerateYml.InfoFileEntriesWithOwnPrefix | demisto_sdk/commands/generate_yml_from_python/generate_yml.py:414-438 | with several prefixes the six file outputs sit under `InfoFile`, and EntryID, Size and Type have types `Unknown`, `Number` and `String` |
| GenerateYml.MetadataToDict.constructor | demisto_sdk/commands/generate_yml_from_python/generate_yml.py:172-174 | keeps the collector; the dictionary starts empty |
| GenerateYml.MetadataToDict.BuildIntegrationDict | demisto_sdk/commands/generate_yml_from_python/generate_yml.py:176-227 | the dictionary has the collector's name as `name` and `commonfields.id`, version -1, display defaulting to the name with `_` as spaces, the fixed script section, one configuration entry per key, and the optional keys as below |
| GenerateYml.MetadataToDict.OptionalKeysOf | demisto_sdk/commands/generate_yml_from_python/generate_yml.py:206-225 | each optional key is present exactly when its value is truthy; `defaultEnabled` and `defaultEnabled_x2` are copied whenever they are not None |
| GenerateYml.MetadataToDict.KeepIfTruthy | demisto_sdk/commands/generate_yml_from_python/generate_yml.py:206-207 | the key holds the value exactly when the value is truthy |
| GenerateYml.MetadataToDict.ConfigurationOf | demisto_sdk/commands/generate_yml_from_python/generate_yml.py:178 | one configuration entry per configuration key, in order, each describing its key |
| GenerateYml.MetadataToDict.ConfigMetadataFromKey | demisto_sdk/commands/generate_yml_from_python/generate_yml.py:229-247 | the entry describes the key; `defaultvalue`, `additionalinfo` and `options` are present exactly when their source field is truthy |
| GenerateYml.MetadataToDict.AddArgMetadata | demisto_sdk/commands/generate_yml_from_python/generate_yml.py:370-399 | the description falls back to the name; `required` is exactly "default is falsy", whatever the `required` argument; `defaultValue` is kept only when truthy; `default` is false; `predefined` and `auto == PREDEFINED` are present exactly when there are options; `isArray` and `secret` mirror their flags; `execution` is present only when set |
| GenerateYml.MetadataToDict.HandleEnum | demisto_sdk/commands/generate_yml_from_python/generate_yml.py:401-407 | the values of the enum's members, in order |
| GenerateYml.MetadataToDict.OrganizeOutputs | demisto_sdk/commands/generate_yml_from_python/generate_yml.py:409-452 | one entry per output, in order, followed by the six `InfoFile` entries when a file is output |
| UpdateRnManager.NormaliseOptions | demisto_sdk/commands/update_release_notes/update_rn_manager.py:21-40 | fails with the `-g` ValueError exactly when a pack is given and `is_all` is set; otherwise `is_all` is true when no pack is given, `pre_release` None becomes false, `text` None becomes empty, and the rest is copied |
| UpdateRnManager.ExactlyOneMode | demisto_sdk/commands/update_release_notes/update_rn_manager.py:30-40 | after a successful construction, a pack is given exactly when `is_all` is not set |
| UpdateRnManager.RecordExistingRn | demisto_sdk/commands/update_release_notes/update_rn_manager.py:100-102 | recording never removes a pack from the map |
| UpdateRnManager.LastReleaseNotes | demisto_sdk/commands/update_release_notes/update_rn_manager.py:100-102 | the last added release-notes file of a pack is an added file that contains `ReleaseNotes` and belongs to the pack, and no later added file is a release-notes file of the pack; there is none exactly when no such file exists |
| UpdateRnManager.RecordedIsLastReleaseNotes | demisto_sdk/commands/update_release_notes/update_rn_manager.py:100-102 | after recording, a pack maps to its last added release-notes file; a pack without one keeps its old entry, or stays absent |
| UpdateRnManager.NewEntriesAreReleaseNotes | demisto_sdk/commands/update_release_notes/update_rn_manager.py:100-102 | every entry that recording adds or changes is an added path containing `ReleaseNotes`, keyed by its own pack |
| UpdateRnManager.GetExistingRn | demisto_sdk/commands/update_release_notes/update_rn_manager.py:189-204 | empty for a pack without recorded release notes, the recorded path when no update type is given, and None exactly when both are present |
| UpdateRnManager.NewRnPath | demisto_sdk/commands/update_release_notes/update_rn_manager.py:166-176 | one release-notes path is appended exactly when an update is attempted |
| UpdateRnManager.AppendedPathsCount | demisto_sdk/commands/update_release_notes/update_rn_manager.py:138-141 | handling distinct packs in turn appends one release-notes path per attempted update among them |
| UpdateRnManager.LoopRunOutcome | demisto_sdk/commands/update_release_notes/update_rn_manager.py:138-141 | a run that visits packs of the set, each once, and stops at the first refusal or after all of them, fails exactly when some pack of the set is refused; its updated packs are among the set's, and a successful run appends one path per attempted update |
| UpdateRnManager.RunResultOf | demisto_sdk/commands/update_release_notes/update_rn_manager.py:138-141 | the loop's bookkeeping at such a stop gives the whole result stated for `create_release_notes` |
| UpdateRnManager.UpdateReleaseNotesManager.CreateNext | demisto_sdk/commands/update_release_notes/update_rn_manager.py:139-141 | one round fails exactly when the pack is refused; the pack is appended to the visited packs, its path (if any) to the paths and, on success of its update, the pack to the updated packs |
| UpdateRnManager.PacksToProcess | demisto_sdk/commands/update_release_notes/update_rn_manager.py:133-144 | only the given pack when one is given; otherwise exactly the changed packs whose name does not contain `APIModules` |
| UpdateRnManager.UpdateReleaseNotesManager.constructor | demisto_sdk/commands/update_release_notes/update_rn_manager.py:21-41 | the settings are the normalised options; the changed packs, the release-notes map, the updated packs and the paths start empty |
| UpdateRnManager.UpdateReleaseNotesManager.Create | demisto_sdk/commands/update_release_notes/update_rn_manager.py:21-41 | fails with the normalisation's error, or returns a fresh manager whose settings are the normalised options |
| UpdateRnManager.UpdateReleaseNotesManager.RecordChangedPacks | demisto_sdk/commands/update_release_notes/update_rn_manager.py:54-55 | the changed packs are the union of the packs of the modified, added and old-format files; nothing else changes |
| UpdateRnManager.UpdateReleaseNotesManager.CheckExistingRn | demisto_sdk/commands/update_release_notes/update_rn_manager.py:93-102 | the map becomes the recording of the added files over the old map; nothing else changes |
| UpdateRnManager.UpdateReleaseNotesManager.CreatePackReleaseNotes | demisto_sdk/commands/update_release_notes/update_rn_manager.py:146-187 | fails with the RuntimeError exactly when `get_existing_rn` gives None, and then changes nothing; otherwise appends a path exactly when an update is attempted and adds the pack to the updated packs exactly when the update succeeds |
| UpdateRnManager.UpdateReleaseNotesManager.CreateReleaseNotes | demisto_sdk/commands/update_release_notes/update_rn_manager.py:122-144 | returns the packs visited, in order, each a pack to process and none twice; fails exactly when some pack to process is refused, and then the last visited pack is the only refused one; success means every pack to process was visited; the appended paths are those of the visited packs' attempted updates, in visiting order; the updated packs grow by the visited packs whose update succeeds (on success: all such packs to process, with one path per attempted update); the map and the changed packs are unchanged |
| UpdateRnManager.UpdateReleaseNotesManager.CreateForEach | demisto_sdk/commands/update_release_notes/update_rn_manager.py:138-141 | visits the packs of the set in an order it returns, stopping right after the first refused pack; the same paths, totals and verdict as above |

## Left out

- The deprecation checker's implementation (`DeprecationValidator` and the integration, script and playbook validators) is not part of this model. The checks return their report instead of printing it, and the id-set's UUID-keyed single-entry dictionaries are flattened to typed sequences.
- `import_the_metadata_collector`, `collect_functions` and `run_functions`: they patch `__import__`, execute modules and use reflection.
- `google_docstring_to_dict`, `parse_in_argument_lines` and `parse_out_argument_lines`: they depend on Python regular expressions and `eval`.
- `command_metadata_from_function` and `organize_inputs_from_declaration`: they depend on `inspect` and on the docstring parsers.
- `organize_inputs`: when an argument has no options but has an input type, it passes those empty options to `handle_enum` (generate_yml.py:300), which calls `list()` on them. Options that are None then raise a TypeError. The model's options are scalar metadata values, not iterables, so this branch cannot be stated faithfully. The command dictionaries are a parameter of `GenerateYml.MetadataToDict.BuildIntegrationDict`.
- List-valued metadata: values are scalars (None, bool, int, string). List-valued defaults and options are not modelled beyond their being empty or not.
- `save_dict_as_yaml_integration_file`, `save_to_yml_file`, `extract_metadata` and the file reads and writes of the import transforms: these are YAML and file I/O. Only the string transforms are modelled.
- `manage_rn_update`, `get_git_changed_files` and `handle_api_module_change`: they depend on git, on `ValidateManager` and on `update_api_modules_dependents_rn`. So does the rewriting of a given pack path to a pack name. Only the changed-pack union of `manage_rn_update` is modelled, as `RecordChangedPacks`.
- `get_pack_name`, `get_pack_names_from_files`, `filter_files_by_type`, `filter_files_on_pack` and `UpdateRN.execute_update` are not part of this model. They are function-valued parameters, and `execute_update` returns whether it updated together with its release-notes path.
- UpdateRnManager.UpdateReleaseNotesManager.CreatePackReleaseNotes: the `os.unlink` of an outdated release-notes file and the warnings are not modelled.
- `id_set_path` and `prev_ver` are not kept. Only code that is left out reads them: `get_git_changed_files` passes `prev_ver` to `ValidateManager` (update_rn_manager.py:76), and `update_api_modules_dependents_rn` receives `id_set_path` (update_rn_manager.py:119).
- UpdateRnManager.UpdateReleaseNotesManager.CreateForEach: the order of a Python set is left open. The ghost result `visited` reports the order taken, but the model does not say which order that is.
- `demisto_sdk/commands/common/tests/git_tools_test.py`, `demisto_sdk/commands/lint/linters/bandit.py` and `demisto_sdk/commands/generate_yml/example_integration.py` are not part of this model. They test or use code that is not shown.
