# workdir, modelled in Dafny

`workdir` is a small command-line tool that creates working directories from
cookiecutter templates. It keeps a per-user alias store (a YAML file mapping
alias names to template references), resolves a template name through that
store, and passes the output directory's next free numeric prefix to the
template as the context key `wkdir_prefix`. This project models:

- the prefix allocator (`prefix.dfy`);
- the alias store with its configuration file (`config.dfy`);
- the parsing of `key=value` options into the extra context (`context.dfy`);
- the `list` table (`listing.dfy`);
- template resolution and the subcommands `new`, `list`, `add-alias` and
  `remove-alias` (`commands.dfy`).

`text.dfy` holds the Python string behaviour these rely on. It covers
`int()`, `str()`, `zfill`, `strip`, `split("=", 1)`, string ordering, `*`
and left-justified formatting.

The configuration file is a field of `Config.ConfigStore`. It is `None`
while the file does not exist, and otherwise holds a null document or a
mapping. Every load first creates a missing file holding `{}`. So `get_alias`,
`list_templates` and a `remove_alias` that finds nothing can still change
the file, and their methods state exactly how.

The model follows what the code does, including where its docstrings
suggest otherwise:

- The prefix width is the widest digit run among all matching directories,
  and never less than 2. The docstring speaks of two-digit prefixes, and the
  width is not tied to the entry holding the largest number. Because it
  is a maximum over all entries, the result does not depend on the order
  of the directory listing (`Prefix.OrderIndependent`).
- `list_templates` returns the aliases and nothing else, although its
  docstring promises the packaged templates as well. An alias may hold the
  reference "builtin" (`add-alias foo builtin`), and `list` then shows it
  with TYPE builtin. But the builtin step of `_resolve_template` can never
  be reached: a name listed with "builtin" is an alias whose reference is
  non-empty, and the alias step returns that reference first
  (`Commands.ResolveTemplate`, `Commands.PackagedLocationUnused`).
- Every YAML document that is falsy in Python (empty, null, `false`, `0`,
  `''`, `[]`, `{}`) loads as an empty mapping, because of `or {}`. A
  malformed one raises an error (see "Left out").

## Model

| member | source | states |
|---|---|---|
| `Text.DigitChar` | src/workdir/__init__.py:58 | a decimal digit character denotes the digit it was made from |
| `Text.DecimalString` | src/workdir/__init__.py:58 | `str(n)` is a non-empty ASCII digit run with no leading zero, and `"0"` exactly for 0 |
| `Text.DigitsValue` | src/workdir/__init__.py:45 | definition of `int()` on an ASCII digit run; properties in `Text.DecimalStringRoundTrip`, `Text.LeadingZerosValue` and `Text.ZFillDecimalValue` |
| `Text.DecimalStringRoundTrip` | src/workdir/__init__.py:45 | `int(str(n)) == n` |
| `Text.Repeat` | src/workdir/__init__.py:156 | `"-" * n` has length `n` and only that character |
| `Text.ZFill` | src/workdir/__init__.py:58 | `zfill(width)` keeps the string as its suffix, pads on the left with `'0'` up to `width`, and never truncates |
| `Text.LeadingZerosValue` | src/workdir/__init__.py:45 | leading zeros do not change the value `int()` reads |
| `Text.ZFillDecimalValue` | src/workdir/__init__.py:58 | the zero-filled decimal form of `n` is all digits and reads back as `n` |
| `Text.TrimStartSpec` | src/workdir/__init__.py:92 | `lstrip` removes exactly a leading whitespace run and stops at a non-space |
| `Text.TrimEndSpec` | src/workdir/__init__.py:92 | `rstrip` removes exactly a trailing whitespace run and stops at a non-space |
| `Text.Strip` | src/workdir/__init__.py:92 | definition of `strip()` as `lstrip` then `rstrip`; properties in `Text.StripSpec` |
| `Text.StripSpec` | src/workdir/__init__.py:92 | `strip()` yields a slice of the input, everything outside it is whitespace, and a non-empty result neither starts nor ends with whitespace |
| `Text.StripSlice` | src/workdir/__init__.py:92 | removing a whitespace prefix and then a whitespace suffix leaves a strip slice of the original |
| `Text.SplitAtFirst` | src/workdir/__init__.py:88-91 | no split exactly when the separator is absent; otherwise the left part has no separator and the parts reassemble the input |
| `Text.SplitAtFirstUnique` | src/workdir/__init__.py:91 | a string whose left part has no separator splits into exactly that part and the rest, whatever the rest contains |
| `Text.Less` | src/workdir/__init__.py:157 | definition of Python string order (code point by code point, a proper prefix first); properties in `Text.LessIrreflexive`, `Text.LessTransitive`, `Text.LessTotal` and `Text.LessAsymmetric` |
| `Text.LessIrreflexive` | src/workdir/__init__.py:157 | no string sorts before itself |
| `Text.LessTransitive` | src/workdir/__init__.py:157 | string order is transitive |
| `Text.LessTotal` | src/workdir/__init__.py:157 | of two distinct strings, one sorts before the other |
| `Text.LessAsymmetric` | src/workdir/__init__.py:157 | two strings never sort before each other |
| `Text.PadRight` | src/workdir/__init__.py:154-159 | `{:<width}` keeps the string as its prefix, pads with spaces up to `width`, and never truncates |
| `Prefix.LeadingDigits` | src/workdir/__init__.py:35 | the longest run of ASCII digits at the start of the name |
| `Prefix.PrefixDigits` | src/workdir/__init__.py:35-44 | `^(\d+)_` matches exactly when some non-empty all-digit prefix of the name is followed by `_`; the group is a digit run directly followed by `_` |
| `Prefix.MaxNum` | src/workdir/__init__.py:36-50 | the running maximum starts at -1 and never goes below it |
| `Prefix.MaxWidth` | src/workdir/__init__.py:37-48 | the running width starts at 2 and never goes below it |
| `Prefix.NextPrefix` | src/workdir/__init__.py:25-58 | definition of the allocator: `Proposal` of the scanned maximum and width; properties in `Prefix.EmptyExactlyWhenNoMatch`, `Prefix.NextPrefixIsSuccessor` and `Prefix.OrderIndependent` |
| `Prefix.Proposal` | src/workdir/__init__.py:55-58 | definition of the return step: `""` for -1, else the successor zero-filled to the width and `_`; properties in `Prefix.NextPrefixIsSuccessor`, `Prefix.PaddedToTwo`, `Prefix.PaddedToWidest` and `Prefix.GrowsPastWidth` |
| `Prefix.NextPrefixFromDirectory` | src/workdir/__init__.py:25-58 | the scan loop returns `NextPrefix` of the listed entries |
| `Prefix.MaxNumIsMaximum` | src/workdir/__init__.py:38-50 | `max_num` is at least every matched number, and is -1 or one of them |
| `Prefix.MaxWidthIsMaximum` | src/workdir/__init__.py:37-48 | `prefix_len` is at least every matched run width, and is 2 or one of them |
| `Prefix.EmptyExactlyWhenNoMatch` | src/workdir/__init__.py:55-58 | the result is `""` exactly when no directory matches; otherwise it ends in `_` |
| `Prefix.NextPrefixIsSuccessor` | src/workdir/__init__.py:55-58 | a non-empty result is digits and `_`, where the digits read as one more than the largest match, exceed every match, are at least 2 and at least every matched width wide, are never narrower than the number needs, and are exactly as wide as the larger of the widest match and the number's own width |
| `Prefix.PrefixDigitsOfName` | src/workdir/__init__.py:35-41 | a name made of a digit run, `_` and anything else matches with that run as the group |
| `Prefix.LeadingDigitsOf` | src/workdir/__init__.py:35 | a digit run followed by a non-digit is the leading digit run |
| `Prefix.NewDirectoryMatches` | src/workdir/__init__.py:25-58 | a directory named with the proposed prefix is recognised and carries the new number |
| `Prefix.OrderIndependent` | src/workdir/__init__.py:38-58 | two listings of the same entries give the same prefix |
| `Prefix.SameMaxima` | src/workdir/__init__.py:38-50 | listing more entries never lowers the maximum number or width |
| `Prefix.Directories` | src/workdir/__init__.py:39-40 | keeps exactly the directory entries |
| `Prefix.NonDirectoriesIgnored` | src/workdir/__init__.py:39-40 | files never influence the prefix |
| `Prefix.ScanTwo` | src/workdir/__init__.py:36-50 | the accumulators after a two-entry listing |
| `Prefix.MatchedDirectory` | src/workdir/__init__.py:39-48 | a directory named by a digit run and `_` counts with that run's value and width |
| `Prefix.PaddedToTwo` | src/workdir/__init__.py:58 | the successor of 2 at width 2 is `03_` |
| `Prefix.PaddedToWidest` | src/workdir/__init__.py:58 | the successor of 123 at width 3 is `124_` |
| `Prefix.GrowsPastWidth` | src/workdir/__init__.py:58 | the successor of 99 at width 2 is `100_`, not cut to two digits |
| `Prefix.ExampleSequential` | src/workdir/__init__.py:25-58 | directories `01_…`, `02_…` give `03_`, whatever follows the `_` |
| `Prefix.ExampleWidestRun` | src/workdir/__init__.py:25-58 | directories `123_…`, `04_…` give `124_`, whatever follows the `_` |
| `Prefix.ExampleNeverTruncated` | src/workdir/__init__.py:25-58 | a directory `99_…` gives `100_`, whatever follows the `_` |
| `Prefix.ExampleNoMatch` | src/workdir/__init__.py:25-58 | non-matching directories and a matching file give `""` |
| `Config.Loaded` | src/workdir/_config.py:22 | a document that loads as nothing (null, empty or any other falsy value) gives `{}`, a mapping loads as itself |
| `Config.Ensured` | src/workdir/_config.py:11-16 | a missing file is created holding `{}`; an existing one is untouched |
| `Config.Lookup` | src/workdir/_config.py:48-51 | `None` unless there is an alias mapping holding the name, else its reference |
| `Config.AliasesOf` | src/workdir/_config.py:40 | definition of `cfg.get("aliases", {})`; properties in `Config.Lookup` and `Config.ConfigStore.ListTemplates` |
| `Config.WithAlias` | src/workdir/_config.py:32-34 | definition of the document `add_alias` saves; properties in `Config.GetAfterAdd`, `Config.AddIdempotentLastWriteWins` and `Config.ConfigStore.AddAlias` |
| `Config.WithoutAlias` | src/workdir/_config.py:40-42 | definition of the document `remove_alias` saves; properties in `Config.GetAfterRemove`, `Config.RemoveUndoesAdd` and `Config.ConfigStore.RemoveAlias` |
| `Config.CopyAliases` | src/workdir/_config.py:59-64 | the copy loop yields exactly the alias mapping |
| `Config.ConfigStore.constructor` | src/workdir/_config.py:7-8 | a store over the given file state |
| `Config.ConfigStore.EnsureConfigFile` | src/workdir/_config.py:11-16 | a missing file becomes `{}`; what a load returns is unchanged |
| `Config.ConfigStore.LoadConfig` | src/workdir/_config.py:19-22 | returns the current document (`{}` for a missing or null one) and creates a missing file |
| `Config.ConfigStore.SaveConfig` | src/workdir/_config.py:25-28 | the file holds exactly the given document |
| `Config.ConfigStore.AddAlias` | src/workdir/_config.py:31-35 | upsert: the aliases become the old ones with `name` mapped to `ref`, the mapping is created if absent, and other top-level keys are kept |
| `Config.ConfigStore.RemoveAlias` | src/workdir/_config.py:38-45 | true exactly when the alias existed; then it is deleted and the document saved; otherwise nothing but file creation happens; other aliases and keys are kept |
| `Config.ConfigStore.GetAlias` | src/workdir/_config.py:48-51 | the stored reference, present exactly when the name is an alias |
| `Config.ConfigStore.ListTemplates` | src/workdir/_config.py:54-66 | exactly the alias mapping, with no builtin entries |
| `Config.GetAfterAdd` | src/workdir/_config.py:31-51 | after adding, the name reads back as the reference, and other names read as before |
| `Config.AddIdempotentLastWriteWins` | src/workdir/_config.py:31-35 | adding twice equals adding once, and a later reference replaces an earlier one |
| `Config.GetAfterRemove` | src/workdir/_config.py:38-51 | after removing, the name is absent, and other names read as before |
| `Config.RemoveUndoesAdd` | src/workdir/_config.py:31-45 | removing a freshly added alias restores the alias mapping |
| `Config.AddTwiceThenList` | src/workdir/_config.py:31-66 | after two adds with distinct names, the listing holds both, each with its own reference |
| `ExtraContext.ParseItem` | src/workdir/__init__.py:88-92 | an option contributes nothing exactly when it has no `=` |
| `ExtraContext.ValueKeepsLaterEquals` | src/workdir/__init__.py:91-92 | only the first `=` separates; the stripped value keeps any later `=` |
| `ExtraContext.ContextOf` | src/workdir/__init__.py:87-92 | definition of the options folded in order into the context; properties in `ExtraContext.KeysOfContext`, `ExtraContext.LastOptionWins` and `ExtraContext.SkippedOption` |
| `ExtraContext.Context` | src/workdir/__init__.py:83-93 | definition of `_parse_extra_context`: `{}` for `None` or no options, else `ContextOf`; properties in `ExtraContext.ParseExtraContext` |
| `ExtraContext.ParseExtraContext` | src/workdir/__init__.py:83-93 | the loop builds the context of the options, read in order, and `None` or an empty list gives `{}` |
| `ExtraContext.KeysOfContext` | src/workdir/__init__.py:87-92 | a key is present exactly when some option with `=` names it |
| `ExtraContext.LastOptionWins` | src/workdir/__init__.py:87-92 | a key's value comes from the last option that names it |
| `ExtraContext.SkippedOption` | src/workdir/__init__.py:88-90 | an option without `=` leaves the context unchanged |
| `Listing.KindIsBuiltinOrAlias` | src/workdir/__init__.py:158 | the TYPE column is "builtin" exactly for the value "builtin", and "alias" otherwise |
| `Listing.Kind` | src/workdir/__init__.py:158 | definition of the TYPE column; properties in `Listing.KindIsBuiltinOrAlias` |
| `Listing.Row` | src/workdir/__init__.py:154-159 | definition of one formatted line: the name padded to the width, two spaces, the type; properties in `Text.PadRight` and `Listing.HeaderAndRows` |
| `Listing.Header` | src/workdir/__init__.py:154-156 | definition of the header line and the rule of width plus 8 dashes; properties in `Text.Repeat` and `Listing.HeaderAndRows` |
| `Listing.TemplateTable` | src/workdir/__init__.py:147-160 | definition of the printed table: nothing for no templates, else header, rule and the sorted rows; properties in `Listing.TemplateTableSpec` and `Commands.CmdList` |
| `Listing.MaxLength` | src/workdir/__init__.py:153 | at least every name's length, and equal to one of them when there are names |
| `Listing.LeastExists` | src/workdir/__init__.py:157 | every non-empty set of names has a least element |
| `Listing.SortedKeys` | src/workdir/__init__.py:157 | `sorted` gives a strictly increasing sequence holding each name exactly once |
| `Listing.StrictlySortedUnique` | src/workdir/__init__.py:157 | the sorted order of a set of names is unique |
| `Listing.Least` | src/workdir/__init__.py:157 | finds the least name of a non-empty set |
| `Listing.SortedNames` | src/workdir/__init__.py:157 | the selection loop produces `SortedKeys` |
| `Listing.Rows` | src/workdir/__init__.py:157-159 | one row per name, in order, with the name padded and its kind |
| `Listing.RenderTable` | src/workdir/__init__.py:148-159 | the printed lines are `TemplateTable` of the templates |
| `Listing.TableLines` | src/workdir/__init__.py:154-159 | header, rule, then one row per name in the given order |
| `Listing.RowsStep` | src/workdir/__init__.py:157-159 | printing one more name appends exactly that name's row |
| `Listing.WidestKey` | src/workdir/__init__.py:153 | `max_len` is at least every key's length and equals one of them |
| `Listing.TemplateTableSpec` | src/workdir/__init__.py:153-159 | for a non-empty map: two lines more than the templates; the width is the longest name; the header and a rule of width plus 8 dashes; the names strictly increasing and each exactly once; each name padded to exactly the width; row `i + 2` shows name `i` with its kind |
| `Listing.HeaderAndRows` | src/workdir/__init__.py:154-159 | where the header, the rule and each row sit among the lines |
| `Commands.ResolveTemplate` | src/workdir/__init__.py:66-80 | a non-empty alias reference is returned verbatim; in every other case the name itself is returned |
| `Commands.PackagedLocationUnused` | src/workdir/__init__.py:71-77 | the packaged-template location never affects the result |
| `Commands.Resolve` | src/workdir/__init__.py:66-80 | resolving through the store gives `ResolveTemplate` of the stored document, and at most creates the file |
| `Commands.RenderContext` | src/workdir/__init__.py:120-125 | `wkdir_prefix` is always present; a user-given value is kept, else the allocated prefix is used; all other keys are the parsed options |
| `Commands.PrepareContext` | src/workdir/__init__.py:120-125 | the context built is `RenderContext` of the options and the listing |
| `Commands.UserPrefixSkipsAllocator` | src/workdir/__init__.py:120-125 | when an option sets `wkdir_prefix`, the context is the parsed options and does not depend on the directory listing |
| `Commands.CmdNew` | src/workdir/__init__.py:101-144 | exit 1 without touching the store or calling the renderer for an empty type or a missing output directory; otherwise the renderer gets the resolved template, `no_input = not use_input`, the render context, the output and no overwrite, and the exit code is 1 exactly when rendering fails |
| `Commands.CmdList` | src/workdir/__init__.py:147-160 | exit 0, prints `TemplateTable` of the aliases, and prints no table exactly when there are none |
| `Commands.CmdAddAlias` | src/workdir/__init__.py:163-166 | exit 0; the saved document is the loaded one with the alias mapping, created if absent, sending the alias to the reference, and every other key kept |
| `Commands.CmdRemoveAlias` | src/workdir/__init__.py:169-175 | exit 0 exactly when the alias existed, 1 otherwise; on 0 the saved document is the loaded one without the alias, on 1 nothing is saved beyond creating a missing file; the alias is gone either way |

## Left out

- File system and YAML: the configuration file is a value holding a
  document. Directory creation, encodings, serialisation and I/O errors are
  not modelled.
- Malformed YAML: `yaml.safe_load` raises an error, which propagates out of
  every alias operation. The model covers only empty or null documents and
  mappings.
- Falsy documents other than null: `false`, `0`, `''` and `[]` load as `{}`
  in the code, like a null document. The model has no separate document for
  them; `Config.NullDocument` stands for all of them, and `{}` is
  `Config.Mapping(map[])`.
- Value types: top-level values other than mappings and alias references
  other than strings are not modelled. The document type is
  `map<string, map<string, string>>`.
- Directory listing: the output directory's children are a sequence of
  names with a directory flag. `iterdir` itself and the existence test are
  parameters (`Commands.OutputDir`).
- `int()` on the digit group: `\d` also matches non-ASCII decimal digits.
  The model takes ASCII digits only, so the unreachable `ValueError` branch
  is not modelled.
- Cookiecutter: the renderer is not part of this model. `Commands.CmdNew`
  returns the request it would receive, and whether rendering fails is a
  parameter. The path it returns and the messages printed after it are left
  out.
- Packaged templates: the location `importlib.resources` would give is a
  parameter of `Commands.ResolveTemplate`. That branch cannot run anyway.
- Exceptions from `_resolve_template`: the code guards the call, but in the
  model resolution fails only through the I/O and YAML errors left out
  above.
- Printed messages: the warnings and informational texts (including "no
  templates registered" from `cmd_list`) are not modelled. The lines of the
  table are.
- `sorted()`: modelled by a selection loop over the name set, specified by
  `Listing.SortedKeys`. In the code `max_len` is computed over the unsorted
  keys; the model computes it over the sorted names, and the value is the
  same.
- Argument parsing, `main`, `cmd_version` and the remaining subcommand
  plumbing are not part of this model.
