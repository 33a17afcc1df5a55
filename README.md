# cosmikase configuration core, in Dafny

cosmikase provisions a Linux workstation from one YAML file: package lists, installer recipes and themes. This project models three small pieces of its logic and proves what they promise.

- **`validate_ron`** (`src/cosmikase/validate.py`): a quick syntax check for theme files written in RON.
  - It walks the text once, keeping three things:
    - a stack of open `(`, `[` and `{`;
    - an "inside a string literal" flag;
    - an "escaped" flag, set by a backslash, which swallows the next character.
  - It fails on the first closer that does not match the top of the stack, or that meets an empty stack.
  - It succeeds when the stack ends empty.
  - Modules: `Ron` holds the step function, the run over a text and the loop. `RonGrammar` holds a grammar of the accepted texts and the proof that the check accepts exactly them. `RonExamples` holds the three cases the test suite pins down.
- **The lenient config accessors** (`src/omarchy_pop/config.py`), over a parsed YAML value (module `Yaml`):
  - `get_value`: dotted-path lookup;
  - `enabled_items` and `enabled_top_level`: filter on `install`;
  - `package_names`: name-or-id extraction;
  - the dispatch of `to_json`.

  These live in module `Config`. The generic list lemmas they rest on (a filter, a map, subsequences) live in `Lists`.
- **The configuration schema** (`src/cosmikase/schema.py`), in module `Schema`:
  - the Pydantic record shapes with their required fields and defaults;
  - the ten-literal installer `method`;
  - the `normalize_string_items` expansion of bare strings in `npm` and `uv_tools`;
  - the all-or-nothing result of `validate_config`.

  Each record's rules are also stated on their own, as predicates (`ValidPackageItem`, ..., `ValidApt`, ..., `ValidDocument`). Each parser is proved to succeed exactly on the inputs its predicate accepts, and to read every present field as given and every absent one as its default.

Model choices:
- A file that has been read is given as its contents (a `string`).
- A YAML document that has been parsed is given as a `Yaml.Value`.
- Reading the configuration file and YAML-parsing it are one input to `ValidateConfig`: the document it produced, or the reason it failed.
- `Wrappers` holds the `Option` and `Result` types.

## Model

| member | source | states |
|---|---|---|
| Ron.Step | src/cosmikase/validate.py:29-48 | One character of the scan. It keeps the stack made of openers only. It fails exactly on an unescaped closer outside quotes whose opener is not on top of the stack, or that meets an empty stack. A matched closer pops exactly its opener. An escaped character, a character in quotes, or a character that is not a bracket leaves the stack unchanged. |
| Ron.CloserFor | src/cosmikase/validate.py:23 | Each opener has a closer, and the `pairs` table maps that closer back to the opener. |
| Ron.ValidateRon | src/cosmikase/validate.py:22-50 | The loop with an explicit stack, two flags and an early `return False` computes exactly `ValidRon`: no mismatch over the whole text, and an empty stack at the end. |
| Ron.RunAppend | src/cosmikase/validate.py:29-48 | Scanning `a + b` is scanning `a`, then `b` from the state `a` ended in, and a failure in `a` is final. |
| Ron.StackHoldsOpeners | src/cosmikase/validate.py:22-48 | Along any run, the stack only ever holds `(`, `[` and `{`. |
| Ron.EscapeSkipsNext | src/cosmikase/validate.py:30-36 | A backslash followed by any character, even a quote or a bracket, leaves the rest of the scan as if neither were there, inside or outside quotes. |
| Ron.InertRun | src/cosmikase/validate.py:45-48 | Outside quotes and not after a backslash, characters that are neither brackets, quotes nor backslashes leave the state as it was. |
| RonGrammar.UnterminatedLiteralIsNoError | src/cosmikase/validate.py:38-50 | An unterminated string literal is not itself an error. When a quote opens a literal that never closes, the verdict is whether the stack was empty at that quote. |
| RonGrammar.AcceptedIsValid | src/cosmikase/validate.py:38-50 | Every well-nested text of plain characters, escapes, closed string literals and matched groups is accepted, also when it ends in an open literal or a lone backslash. |
| RonGrammar.ParseForestSound | src/cosmikase/validate.py:29-50 | This is a fact about the reference grammar's parser, which exists only to prove `ValidRonIffAccepted` and has no counterpart in the source. Its result describes its input: it consumed a well-formed prefix that renders back to that prefix. |
| RonGrammar.StuckIsBlocked | src/cosmikase/validate.py:47-48 | This is a fact linking the reference grammar's parser, which has no counterpart in the source, to the scan. Where that parser gets stuck, the scan either fails or ends with a bracket still open, so the text is not accepted. |
| RonGrammar.ValidRonIffAccepted | src/cosmikase/validate.py:22-50 | The check accepts a text if and only if the grammar admits it: both directions. |
| RonExamples.NestedShapeValid | src/cosmikase/validate.py:38-50 | `(a"b"c[d]e(f))` is valid for any quote-free, backslash-free, bracket-free pieces. |
| RonExamples.UnclosedShapeInvalid | src/cosmikase/validate.py:50 | The same shape without its last `)` is invalid. |
| RonExamples.QuotedShapeValid | src/cosmikase/validate.py:38-43 | Brackets inside a closed literal are ignored. |
| RonExamples.BalancedExampleValid | tests/test_themes.py:50-54 | `(key: "value", list: [1, 2, 3], nested: (a: 1))` is valid. |
| RonExamples.MissingCloserInvalid | tests/test_themes.py:56-60 | `(key: "value", list: [1, 2, 3]` is invalid. |
| RonExamples.QuotedParenValid | tests/test_themes.py:62-66 | `(key: "value (with paren)", nested: (a: 1))` is valid. |
| Config.Split | src/omarchy_pop/config.py:66 | `split(".")` yields at least one piece, no piece contains a dot, and joining the pieces with dots gives the path back. |
| Config.SplitJoin | src/omarchy_pop/config.py:66 | Joining dot-free pieces and splitting again gives the pieces back. |
| Config.GetValue | src/omarchy_pop/config.py:65-71 | The loop returns `default` when it must descend through a non-mapping, or when the final value is null or missing. Otherwise it returns the value at the path. |
| Config.ResolveAppend | src/omarchy_pop/config.py:66-70 | Walking `p + q` is walking `p`, then walking `q` from where `p` ended; a non-mapping on the way ends the walk. |
| Config.ThroughScalarGivesDefault | src/omarchy_pop/config.py:67-70 | Once the walk reaches a non-mapping, any longer path gives the default. |
| Config.FoundValueReturned | src/omarchy_pop/config.py:66-71 | When every prefix is a mapping and the final value is not null, that value is returned. |
| Config.NullIsMissing | src/omarchy_pop/config.py:68-71 | An explicit null walks exactly like a missing key. |
| Config.LookupInEmpty | src/omarchy_pop/config.py:65-71 | `get_value({}, "a.b.c", X)` is `X`. |
| Config.LookupNested | src/omarchy_pop/config.py:65-71 | `get_value({"a": {"b": {"c": 5}}}, "a.b.c")` is `5`. |
| Config.LookupThroughInt | src/omarchy_pop/config.py:67-70 | `get_value({"a": 1}, "a.b", X)` is `X`. |
| Config.DottedABC | src/omarchy_pop/config.py:66 | `"a.b.c"` splits into `["a", "b", "c"]`. |
| Config.GroupItems | src/omarchy_pop/config.py:34 | Under the shape the source needs, every item the comprehension iterates over is a mapping. |
| Config.EnabledItems | src/omarchy_pop/config.py:32-36 | The result is `[]` when the section or the group is missing. It is an order-preserving subsequence of the group's items. Every item in it has `install` absent or truthy. Each item occurs in it exactly as often as in the input when enabled, and not at all otherwise. |
| Config.FalsyInstallExcluded | src/omarchy_pop/config.py:35 | An item with `install` null, false or 0 is never returned. |
| Config.DefaultInstallIncluded | src/omarchy_pop/config.py:35 | An item without `install`, or with `install: true`, is returned. |
| Config.AsItem | src/omarchy_pop/config.py:48 | The wrapped entry is always a mapping. It is enabled exactly when the raw entry is kept at top level. A mapping is kept as it is, and any other entry becomes a mapping with the single key `name` holding that entry. |
| Config.EnabledTopLevel | src/omarchy_pop/config.py:44-51 | The result is `[]` when the section is missing or is not a list. It is at most as long as the section. It is an order-preserving subsequence of the wrapped entries. Every entry that is not a mapping, and every enabled mapping, appears in it. |
| Config.KeptAreListed | src/omarchy_pop/config.py:47-51 | Every entry the top-level filter keeps shows up, wrapped, in the output. |
| Config.PackageNames | src/omarchy_pop/config.py:79-83 | The result is no longer than `enabled_items` and every element is truthy. It is an order-preserving subsequence of the enabled items' name-or-id. An enabled item with a truthy name contributes that name; otherwise a truthy id contributes that id. |
| Config.NamedAreListed | src/omarchy_pop/config.py:79-83 | Every enabled item with a truthy name or id contributes it. |
| Config.JsonItems | src/omarchy_pop/config.py:88-91 | A non-empty group selects `enabled_items`; no group, or an empty one, selects `enabled_top_level`. Either way every listed item is an enabled mapping. |
| Lists.Filter | src/omarchy_pop/config.py:32-36 | A comprehension with a condition keeps exactly the elements that pass, with their multiplicities, in order. |
| Lists.MapKeepsSubsequence | src/omarchy_pop/config.py:79-83 | Mapping both sides of a subsequence keeps it a subsequence. |
| Schema.ParsePackageItem | src/cosmikase/schema.py:16-24 | An APT package validates exactly when it is a mapping with a string `name`, optional strings that are absent, null or strings, and an `install` that is absent or a boolean. The record holds that `name`, each optional string or None, and the given `install` or true. |
| Schema.ParseFlatpakItem | src/cosmikase/schema.py:27-32 | A Flatpak item validates exactly when it is a mapping with a string `id`, a `desc` that is absent, null or a string, and a boolean `install` if any. The record holds those values, with `install` true when absent. |
| Schema.ParseFontItem | src/cosmikase/schema.py:35-41 | A font validates exactly when it is a mapping with a string `name` and a string `url`, an optional `desc` and a boolean `install` if any. The record holds those values, with `install` true when absent. |
| Schema.ParseMethod | src/cosmikase/schema.py:49-60 | A `method` literal is read exactly when it is one of the ten, and reads back as itself. |
| Schema.MethodRoundTrip | src/cosmikase/schema.py:49-60 | Each of the ten methods is written as a literal of the enumeration that reads back as that method. |
| Schema.ParseInstallerItem | src/cosmikase/schema.py:44-68 | An installer validates exactly when it has a string `name`, a `method` among the ten literals, optional strings that are absent, null or strings, and a boolean `install` if any. The record holds the name, the method that literal names, each optional string or None, and `install` or true. |
| Schema.MinimalInstaller | src/cosmikase/schema.py:44-60 | `{name, method}` alone validates if and only if the method is one of the ten. |
| Schema.UnknownMethodRefused | src/cosmikase/schema.py:49-60 | Any other method is refused, at `method`, naming the literal. |
| Schema.ParseNpmItem | src/cosmikase/schema.py:71-77 | An npm item validates exactly when it is a mapping with a string `name`, an optional `desc`, a string `version` if any and a boolean `install` if any. The record holds those values; `version` is "latest" and `install` true when absent. |
| Schema.ParseUvToolItem | src/cosmikase/schema.py:80-85 | A uv tool validates exactly when it is a mapping with a string `name`, an optional `desc` and a boolean `install` if any. The record holds those values, with `install` true when absent. |
| Schema.ParseWebItem | src/cosmikase/schema.py:120-127 | A web app validates exactly when it is a mapping with a string `name` and a string `url`, optional `desc` and `icon_url`, and a boolean `install` if any. The record holds those values, with `install` true when absent. |
| Schema.ParseEach | src/cosmikase/schema.py:102-105 | A list of records validates exactly when each element does. The result has one record per element, in order. |
| Schema.ListField | src/cosmikase/schema.py:102-102 | A record-list field validates exactly when it is absent or a list each element of which validates. It reads as `[]` when absent and as one record per element, in order, otherwise. |
| Schema.SectionField | src/cosmikase/schema.py:164-164 | A nested-block field validates exactly when it is absent or a mapping that validates. It reads as the block's defaults when absent and as the parsed block otherwise. |
| Schema.ParseApt | src/cosmikase/schema.py:99-105 | The `apt` block validates exactly when each of `core`, `yubikey`, `gui` and `terminal` is absent or a list of valid packages. Each reads as its packages in order, `[]` when absent. |
| Schema.ParseFlatpak | src/cosmikase/schema.py:108-111 | The `flatpak` block validates exactly when `utility` is absent or a list of valid Flatpak items, and reads as those items in order. |
| Schema.ParseFonts | src/cosmikase/schema.py:114-117 | The `fonts` block validates exactly when `nerd` is absent or a list of valid fonts, and reads as those fonts in order. |
| Schema.ParseWeb | src/cosmikase/schema.py:130-133 | The `web` block validates exactly when `apps` is absent or a list of valid web apps, and reads as those apps in order. |
| Schema.ParseInstallers | src/cosmikase/schema.py:136-141 | The `installers` block validates exactly when each of `runtimes`, `ai_tools` and `security` is absent or a list of valid installers. Each reads as its installers in order, `[]` when absent. |
| Schema.OptionalHardware | src/cosmikase/schema.py:174-174 | `hp_zbook_ultra` validates exactly when it is absent, null or a valid hardware block. It is None when absent or null and the parsed block otherwise. |
| Schema.ParseSections | src/cosmikase/schema.py:164-169 | The six block sections validate exactly when each is absent or a valid block. Each reads as its defaults when absent and as the parsed block otherwise. |
| Schema.ParseRest | src/cosmikase/schema.py:170-174 | `npm`, `uv_tools`, `themes`, `scripts` and `hp_zbook_ultra` validate exactly when each is absent or obeys its rule. Each reads as its default when absent and as what it holds otherwise. |
| Schema.ParseFields | src/cosmikase/schema.py:161-174 | The root record validates exactly when every one of its eleven fields does. Each field reads as its default when absent and as its parsed value otherwise. |
| Schema.BareNpmString | src/cosmikase/schema.py:170-188 | In a valid document, a bare string `s` in `npm` validates to the npm item named `s` with no description, version "latest" and install true. |
| Schema.UnknownRuntimeMethodFailsFile | src/cosmikase/schema.py:210-223 | One installer under `installers.runtimes` whose method is outside the ten makes the whole file invalid, with exactly one refusal. |
| Schema.NamelessPackageFailsFile | src/cosmikase/schema.py:210-223 | One package under `apt.core` without a `name` makes the whole file invalid, with exactly one refusal. |
| Schema.ParseDefaults | src/cosmikase/schema.py:88-96 | The `defaults` block validates exactly when its five flags are booleans and `theme` a string, where present. Each field holds the given value or its default: install, ghostty and run_fw_update true, yubikey_setup and run_recovery_upgrade false, theme "nord". |
| Schema.ParseThemes | src/cosmikase/schema.py:144-149 | The `themes` block validates exactly when `default` is a string, `available` a list of strings and `paths` a mapping to strings, where present. `default` is the given string or "nord", `available` those strings in order, `paths` the same keys and strings. |
| Schema.ParseHardware | src/cosmikase/schema.py:152-158 | The hardware block validates exactly when its flags are booleans and its notes are absent, null or strings. `emit_notes` and `warn_on_mix` hold the given flag or true; `oem_kernel` and `notes` the given string or None. |
| Schema.NormalizeStringItems | src/cosmikase/schema.py:176-188 | A non-list is returned unchanged. For a list, the output has the same length and order. Each string `s` becomes `{"name": s}` and every other element is unchanged. |
| Schema.NoStringRemains | src/cosmikase/schema.py:182-188 | After the expansion no bare string is left in the list. |
| Schema.NormalizeIdempotent | src/cosmikase/schema.py:178-188 | Expanding twice is the same as expanding once. |
| Schema.ParseConfig | src/cosmikase/schema.py:161-188 | A document validates exactly when it is a mapping whose sections, after `npm` and `uv_tools` are expanded, each obey their rules. For a mapping, the result is what `ParseFields` reads from the expanded fields, so every present section reads as its parsed value. Each of the eleven absent sections takes its default: the default `defaults`, empty lists and blocks, default themes, `None` for `hp_zbook_ultra`. |
| Schema.BareStringsAsMappings | src/cosmikase/schema.py:170-188 | A document with bare strings in `npm` or `uv_tools` validates, or fails, exactly like the one with `{"name": s}` mappings in their place. |
| Schema.EmptyDocumentGivesDefaults | src/cosmikase/schema.py:161-221 | `{}` validates to the all-defaults configuration, and `validate_config` reports `(True, [])`. |
| Schema.NullDocumentRejected | src/cosmikase/schema.py:206-223 | An empty file (YAML null) is not a mapping, so it gives exactly one refusal. |
| Schema.ValidateConfig | src/cosmikase/schema.py:210-223 | The result is `(True, [])` exactly when the document loads and is a valid document. Otherwise it is `(False, [one refusal])`: the load error, or the first violation. No configuration is returned either way. |

## Left out

- The path checks of `validate_ron` are left out. They are `exists`, and `read_text` failing, at `src/cosmikase/validate.py:13-20`, and both return false. The model starts from the file's contents.
- `load_config` and the `open` / `yaml.safe_load` of `load_and_validate` are I/O. Their outcome is an input:
  - a `Yaml.Value` for the accessors;
  - a `Result` for `ValidateConfig`, holding the parsed document or the reason it could not be read.
- The three `_main` command-line entry points are left out. They do argument parsing, printing and exit codes.
- `src/omarchy_pop/theme_tui.py` is not part of this model. It holds a terminal UI, subprocess calls and filesystem discovery.
- `cosmikase.themes`, the theme manifest loader that the first tests in `tests/test_themes.py` exercise, is not part of this model.
- `to_json` is modelled only as its choice of items (`Config.JsonItems`); the `json.dumps` text is not.
- YAML mappings are modelled with string keys only. Floats are Dafny reals, so there are no NaN or infinities; they matter only to truthiness, where `0.0` is falsy.
- Yaml.Value has no node for the timestamps, binary values and sets that a safe YAML load can also produce. A document holding one is outside the model.
- Config.EnabledItems: the model requires `GroupShaped`: the section is absent or a mapping, and the group is absent or iterable as mappings (a list of mappings, an empty string or an empty mapping). These are exactly the inputs on which the source does not raise; on the others it raises (`.get` on a non-dict, or a non-mapping item) instead of returning a value. The code is followed here, although the accessors are described as never failing.
- Config.PackageNames: the same precondition as `EnabledItems`, for the same reason.
- Schema.ParseConfig: only the rules visible in the record definitions are modelled, not Pydantic's lax coercions. A boolean field accepts only a YAML boolean, and a string field only a YAML string. Strings such as `"yes"` and integers such as `1` are not converted.
- Schema.ParseConfig: unknown keys are ignored, which is Pydantic's default for these models.
- Schema.ParseConfig: it reports the first violation, in field order, where Pydantic collects every violation into one error. Whether a document validates is the same either way.
- Schema.ParseConfig: the `str` branch of `list[NpmItem | str]` and `list[UvToolItem | str]` is not modelled separately. After the expansion no string reaches it.
- Schema.ValidateConfig: a failure carries a structured `Violation`, not the text of `str(e)`.
- Schema.StrMapField: a `paths` mapping with a non-string value is refused at `paths`, not at the offending key.
