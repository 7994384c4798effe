# wg-blimp configuration builder, in Dafny

This project models the configuration builder of wg-blimp, a whole-genome
bisulfite sequencing pipeline. `cli/config.py` writes one YAML document that
configures a pipeline run. The document merges three sources:

- the mandatory run parameters: the raw-data directory, the output directory,
  the reference FASTA, both sample groups, their concatenation `samples`, and
  the per-job core count used for both thread counts;
- the optional parameters read from the bundled defaults document;
- four reference-annotation paths derived from the genome build.

The merge is a Python dict spread, `{**mandatory, **defaults, **annotations}`,
so a later source wins on a shared key. The sample groups come either from
two sample files (one sample per line) or from two inline comma-separated
lists.

Modules:

- `Wrappers` (`wrappers.dfy`): `Option` and `Result`, used for the error paths.
- `Strings` (`strings.dfy`): the Python string operations the builder relies
  on. These are `s.split(',')`, its inverse `','.join(parts)`, a `'\n'`-only
  `splitlines`, and `format` on a template with one `{}` slot.
- `Merge` (`merge.dfy`): dict spread over a sequence of mappings, where the
  last writer of a key wins.
- `Config` (`config.dfy`): the templates, the annotation paths, the mandatory
  parameters, the merged default config, sample resolution and `create_config`.

Precedence. The mandatory parameters are spread first
(`cli/config.py:56-60`), the defaults override them, and the annotation paths
override both. `Config.DefaultConfig` and `Merge.SpreadOfThree` state that
order.

Parameters standing in for I/O:

- `optionals: Document` (in `DefaultConfig`) or `optionals: Result<Document, Error>`
  (in `CreateConfig`) stands for the mapping that the YAML read of the
  defaults document returns, or for the error that read raised.
- `files: map<string, string>` stands for the file system: a path maps to the
  file's text, and a missing path means the file does not exist.
- `CreateConfig` returns the document that `dump_config` would write.

## Model

| member | source | states |
|---|---|---|
| `Strings.Split` | cli/config.py:86-87 | `s.split(sep)` always yields at least one piece, even for the empty string |
| `Strings.SplitCount` | cli/config.py:86-87 | a split yields exactly one more piece than the string has separators, so empty pieces are kept |
| `Strings.SplitPiecesFree` | cli/config.py:86-87 | no piece of a split contains the separator |
| `Strings.JoinSplit` | cli/config.py:86-87 | joining the pieces with the separator rebuilds the original string exactly, so nothing is trimmed or dropped |
| `Strings.SplitJoin` | cli/config.py:86-87 | splitting a join of a non-empty list of separator-free pieces gives back exactly that list |
| `Strings.SplitLines` | cli/config.py:74 | reading lines from `'\n'`-terminated text: no line contains `'\n'`; the number of lines equals the number of newlines, plus one when the text ends without a newline; the lines rebuild the text exactly, each followed by `'\n'` when the text ends with one and joined by `'\n'` otherwise |
| `Strings.SplitLinesUnlines` | cli/config.py:74 | a newline-terminated file of newline-free lines reads back as exactly those lines |
| `Strings.Template.Format` | cli/config.py:17-26 | the template string holds the field `{}` right after its prefix, and formatting replaces that field by the argument, keeping the text before and after it unchanged |
| `Strings.SlotIsOnlyField` | cli/config.py:3-6 | a template whose prefix and suffix hold no braces has exactly one `{` and one `}`, and its first `{` starts the slot |
| `Strings.FormatFillsFirstField` | cli/config.py:17-26 | for such a template, formatting replaces its first replacement field `{}`, found by searching the template string, by the argument |
| `Strings.FormatMatch` | cli/config.py:17 | the argument can be read back from a formatted path, and only a formatted path matches the template |
| `Strings.FormatInjective` | cli/config.py:3 | different arguments format to different paths |
| `Config.TemplatesAsWritten` | cli/config.py:3-6 | the four templates, with the `{}` slot put back, are the program's constant strings |
| `Config.TemplatesSingleSlot` | cli/config.py:3-6 | the prefixes and suffixes of the four templates hold no braces, so each constant string has exactly one replacement field |
| `Config.ReferenceAnnotationFiles` | cli/config.py:13-27 | the result has exactly the four annotation keys; each value is a string matching its key's template, with the genome build read back from it |
| `Config.AnnotationPaths` | cli/config.py:15-27 | each annotation path is its template's literal prefix, the build verbatim, then `.csv.gz` |
| `Config.AnnotationPathsInjective` | cli/config.py:17-26 | two different genome builds give different values under every annotation key |
| `Config.Hg38Paths` | cli/config.py:16-17 | build `hg38` gives `annotation/cgi-locations-hg38.csv.gz` |
| `Config.KeySetsDisjoint` | cli/config.py:15-50 | no mandatory parameter name is also an annotation key |
| `Config.MandatoryParameters` | cli/config.py:41-50 | exactly the eight mandatory keys; `samples` is `group1 + group2`, so it has length `\|group1\| + \|group2\|`, starts with `group1` and ends with `group2`; both thread counts equal `cores_per_job` |
| `Merge.Overlay` | cli/config.py:56-60 | a two-way spread has the union of the keys; the top mapping's values win, and the base value survives only where the top mapping lacks the key |
| `Merge.Spread` | cli/config.py:56-60 | a key is in the spread exactly when some source holds it |
| `Merge.SpreadLastWriter` | cli/config.py:56-60 | each key of a spread carries the value of the last source that holds it |
| `Merge.SpreadOfThree` | cli/config.py:56-60 | in `{**a, **b, **c}`, `c` beats `b`, `b` beats `a`, and the keys are the union of all three |
| `Config.DefaultConfig` | cli/config.py:39-60 | the keys are exactly the mandatory keys, the defaults' keys and the four annotation keys; an annotation key always has its derived path; a defaults key that is not an annotation key has its defaults value, even when it is mandatory; a mandatory value survives only when neither other source holds its key |
| `Config.MandatoryValuesWhenUnshadowed` | cli/config.py:41-60 | when the defaults leave them out, the merged `group1` and `group2` are the groups, `samples` is their concatenation, and both thread counts are `cores_per_job` |
| `Config.ReadSamplesFromFile` | cli/config.py:70-74 | a missing file is a `FileNotFound` error for that path; otherwise the result is the `splitlines` of that file's text, none containing `'\n'` |
| `Config.ResolveGroups` | cli/config.py:79-87 | inline mode always succeeds, and each group joins back with `,` to its inline list, with no piece containing `,`; inline groups are never empty; file mode succeeds exactly when both files exist, each group is the `splitlines` of its file's text, and the first file is read first, so its error is the one reported |
| `Config.CreateConfig` | cli/config.py:77-89 | succeeds exactly when the groups resolve and the defaults were read; a sample-file error is reported before a defaults error; on success the result is the merged default config for the resolved groups |
| `Config.FileAndInlineModesAgree` | cli/config.py:79-87 | sample files holding one sample per line give the same result as the same samples written inline and comma-separated; this needs both groups non-empty, which `Config.EmptyInputsDiffer` shows is necessary |
| `Config.EmptyInputsDiffer` | cli/config.py:74-87 | an empty sample file gives an empty group, but an empty inline list gives the one-element group `[""]` |
| `Config.InlineScenario` | cli/config.py:84-87 | inline groups `s1,s2` and `s3`, for any comma-free names, resolve to `[s1, s2]` and `[s3]`; by `Config.MandatoryValuesWhenUnshadowed`, `samples` is then `[s1, s2, s3]` |

## Left out

- YAML reading and writing through `ruamel.yaml` (cli/config.py:1, 10-11, 34, 67) is left out because it is a foreign library. The defaults arrive as an abstract mapping. The serialize-then-parse round trip of the written document is therefore not modelled.
- `get_default_optional_parameters` (cli/config.py:30-36) is left out as file I/O. Its outcome is the `optionals` argument. A defaults document that parses to something other than a mapping (an empty file parses to `None`, and spreading it raises `TypeError`) is not modelled.
- `dump_config` (cli/config.py:63-67) is left out as file I/O. `CreateConfig` returns the document it would write, and write failures are not modelled.
- `DEFAULT_OPTIONALS_FILE` (cli/config.py:8) is left out: the fixed path only matters to the file read, which is an argument here.
- `Strings.SplitLines` is weaker than Python's `str.splitlines`. The `files` argument holds a file's text as `open()` in text mode returns it, with universal newlines, so `\r` and `\r\n` have already become `'\n'`. Python's `splitlines` still also breaks lines at `\v`, `\f`, `\x1c`-`\x1e`, `\x85`, `\u2028` and `\u2029`. This model breaks lines at `'\n'` only, so it agrees with Python only on text without those characters.
- `Config.ReadSamplesFromFile` models only one failure, a path that does not exist. Unreadable files and decoding errors are not modelled.
- `Strings.Template.Format` is weaker than Python's `str.format`. It covers only what the four templates use: one `{}` slot and one argument. Braces escapes, numbered fields and format specifications are not modelled.
- Dict insertion order and the key order in the written YAML are not modelled: Dafny maps are unordered.
- `cores_per_job` is modelled as an integer. Defaults values other than strings, string lists and integers are carried as `Opaque`.
- The command-line entry point that calls `create_config` is not part of this model.
