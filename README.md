# Configuration obfuscator: a Dafny model of its redaction engine

The tool loads a YAML or JSON configuration file, replaces some string
values with a placeholder (`<REDACTED>` by default) and writes the result
back as YAML or JSON. This project models the part that decides what is
replaced: `ConfigObfuscator.obfuscate_config` and its inner
`obfuscate_value`, together with the twelve sensitivity patterns they use.
It also models the small decisions around the engine: the default output
path, the output format chosen from the file extension, the YAML-then-JSON
order of loading, and the exit status of a run.

Files:

- `patterns.dfy` (module `Patterns`): the pattern list, a model of
  `re.search` for these patterns, the loop over the list, and a plain
  description of which texts are sensitive.
- `document.dfy` (module `Document`): the loaded tree (mappings as ordered
  entry lists, lists, strings and other scalars), Python truthiness, the
  "string values have string keys" condition, and paths into the tree.
- `obfuscator.dfy` (module `Obfuscator`): the engine as functions, the
  entry loop as a method, and what the engine does at each position of the
  tree.
- `run.dfy` (module `Run`): output path, format choice, load order, and
  the outcome of `main`.

## What the code does, as opposed to what its comments suggest

The model follows the code. Where the comments in `main.py` suggest
something else (`# Check key too` at main.py:113, `# Matches password:
anything` at main.py:32, which reads as if a key `password` were caught),
the code wins:

- A text is sensitive when one of the six words `password`, `api_key`,
  `secret`, `token`, `access_key` or `credentials` occurs in it, bare or in
  double quotes, in any letter case, followed by optional white space and a
  colon. A mapping key such as `password` has no colon, so it is never
  sensitive. `{"db": {"password": "hunter2"}}` comes back unchanged
  (`Obfuscator.BareKeyNotRedacted`). Only keys that carry their own colon,
  such as `"Token :"`, blank their values.
- A string value under a key is tested by its key only. Its own text is
  never examined (`Obfuscator.SensitiveTextUnderPlainKey`).
- A mapping or list under a sensitive key is not blanked. It is descended
  into like any other (`Obfuscator.ContainersUnderAnyKey`).
- A string item of a list is tested by its own text.
- An empty mapping is false in Python, so `main` returns 1 for it without
  writing anything. A document that is true but not a mapping makes
  `config.items()` raise. A string value under a non-string key makes
  `re.search` raise. Both exceptions escape `main`.
- A load failure is not a distinct error. `load_config` returns `None`, and
  `main` returns 1.

## Model

| member | source | states |
|---|---|---|
| `Document.Truthy` | main.py:190 | `if config:` is false exactly for `None`, `False`, zero, the empty string, the empty mapping and the empty list |
| `Document.WellKeyedAtEveryPath` | main.py:111-113 | the engine can walk a tree (no string value sits under a key `re.search` would reject) exactly when every mapping at every path has a string key over each string value |
| `Obfuscator.KeySensitive` | main.py:111-114 | the key test succeeds exactly when the key holds one of the six words, bare or quoted, in any case, followed by white space and a colon |
| `Patterns.SkipSpaces` | main.py:32 | the greedy `\s*` from index j stops at the first non-white-space character, and everything it passed is white space |
| `Patterns.ColonAt` | main.py:32 | `\s*:` matches at j exactly when some run of white space from j ends in a colon |
| `Patterns.MatchHere` | main.py:32-43 | one match attempt of a pattern at index i succeeds exactly when its literal occurs there ignoring case and is followed by white space and a colon |
| `Patterns.SearchFrom` | main.py:98 | the search from index i succeeds exactly when the pattern matches at some start index at or after i |
| `Patterns.Search` | main.py:98 | `re.search(pattern, text, re.IGNORECASE)` succeeds exactly when the pattern matches at some start index of the text |
| `Patterns.AnyPatternFound` | main.py:97-99 | the loop over the twelve patterns, which stops at the first hit, reports a hit exactly when the text is sensitive |
| `Patterns.SensitiveIffLabel` | main.py:31-44 | the twelve searches accept exactly the texts holding one of the six words, bare or double-quoted, in any case, then optional white space and a colon |
| `Patterns.SensitiveNeedsColon` | main.py:31-44 | a text without a colon is never sensitive |
| `Patterns.BareWordsNotSensitive` | main.py:31-44 | the six words themselves, bare or quoted, are not sensitive (so a key `password` matches nothing) |
| `Patterns.SensitiveIgnoresCase` | main.py:98 | two texts that differ only in the case of ASCII letters get the same verdict |
| `Patterns.SpacedLabelExample` | main.py:32 | `db Password   :x` is sensitive: the label may sit anywhere, in any case, with spaces before the colon |
| `Patterns.QuotedLabelExample` | main.py:39 | `{"API_KEY": 1}` is sensitive through the quoted pattern |
| `Obfuscator.ObfuscateValue` | main.py:93-106 | `obfuscate_value` only ever replaces strings by the placeholder: the result has the same kinds, keys, lengths and non-string scalars as its input |
| `Obfuscator.ObfuscateItems` | main.py:104 | the list comprehension keeps the length, and each item of the result is its input item with only strings replaced |
| `Obfuscator.ObfuscateConfig` | main.py:109-121 | `obfuscate_config` keeps the number of entries and every key in its place, and each value changes only by strings becoming the placeholder |
| `Obfuscator.ObfuscateEntry` | main.py:110-119 | one round of the entry loop keeps the key and changes the value only by strings becoming the placeholder |
| `Obfuscator.ObfuscateConfigInPlace` | main.py:109-121 | the entry loop, with its pattern loop and its recursive call on nested mappings, computes exactly `ObfuscateConfig` |
| `Obfuscator.ObfuscateIdempotent` | main.py:109-121 | running `obfuscate_config` on its own result changes nothing |
| `Obfuscator.LookupNonString` | main.py:101-106 | at every position holding a mapping, list or non-string scalar, the result holds that node as `obfuscate_value` transforms it, whatever the key above it |
| `Obfuscator.MappingStringRule` | main.py:110-115 | a string stored under a key, at any depth, becomes the placeholder if and only if the key is sensitive; otherwise it is unchanged |
| `Obfuscator.ListStringRule` | main.py:95-100 | a string item of a list, at any depth and in lists of lists, becomes the placeholder if and only if its own text is sensitive; otherwise it is unchanged |
| `Obfuscator.ContainersUnderAnyKey` | main.py:116-119 | a mapping or list under any key, sensitive or not, is obfuscated entry by entry or item by item, never blanked |
| `Obfuscator.ScalarsPassThrough` | main.py:105-106 | a number, boolean, null or other non-string scalar is the same after obfuscation, at every position |
| `Obfuscator.RedactedLookup` | main.py:109-121 | two trees related by "only strings replaced" have the same paths, and the nodes at each path are again so related |
| `Obfuscator.ShapePreserved` | main.py:109-121 | every path of the input exists in the output and vice versa, with the same node kinds, keys and lengths there |
| `Obfuscator.CleanUnchanged` | main.py:93-121 | a tree where no key above a string value is sensitive, and no string outside a mapping entry is sensitive, comes back unchanged, whatever the texts of the string values under keys |
| `Obfuscator.BareKeyNotRedacted` | main.py:112-115 | `{"db": {"password": "hunter2", "host": "localhost"}}` comes back unchanged |
| `Obfuscator.ColonKeyRedacted` | main.py:112-115 | a key with its own colon, `Token :`, blanks its string value and leaves the next entry alone |
| `Obfuscator.SensitiveTextUnderPlainKey` | main.py:110-115 | `{"note": "password: hunter2"}` comes back unchanged |
| `Obfuscator.ListItemsTestedByText` | main.py:95-100 | in `{"notes": ["secret: abc", "normal text"]}` the first item is blanked and the second kept, in order |
| `Run.OutputPath` | main.py:29 | an absent or empty output path means the input path; otherwise the given path is used |
| `Run.ChooseFormat` | main.py:135-149 | JSON is chosen exactly for paths ending `.json`; the warning is given exactly when the path ends in none of `.yaml`, `.yml`, `.json` |
| `Run.UpperCaseJsonIsYaml` | main.py:135-140 | the suffix test is case-sensitive: `X.JSON` is written as YAML with the warning |
| `Run.LoadConfig` | main.py:53-80 | a document is loaded exactly when the file is read and YAML parses it, or YAML reports a syntax error and JSON parses it; YAML's result wins |
| `Run.RunMain` | main.py:183-198 | status 0 exactly when the input exists, loads to a non-empty mapping with string keys over string values, and the write succeeds; an exception exactly for a true document that is not such a mapping; the written document is the obfuscated mapping, at the output path, in the format its extension chooses |
| `Run.EmptyMappingFails` | main.py:190 | an empty mapping gives status 1 and no write |
| `Run.OverwritesInputByDefault` | main.py:29 | without an output path the result is written to the input file |

## Left out

- File reading and writing, `yaml.safe_load`, `json.loads`, `yaml.dump` and
  `json.dump` are not modelled. Their outcomes are parameters: a parse
  result or error, and whether the write succeeded. The text the dumpers
  produce (indentation, quoting) is not modelled.
- Argument parsing, logging and the `--debug` switch are not modelled.
  Whether the input file exists is a boolean parameter of `Run.RunMain`.
- Patterns.IsSpace: ASCII white space only. Python's `\s` also matches
  other Unicode white space, and the separators `\x1c` to `\x1f`.
- Patterns.Lower: ASCII case folding only. `re.IGNORECASE` also lets a few
  non-ASCII letters match, such as `ſ` for `s` and the Kelvin sign for `k`.
- Obfuscator.ObfuscateConfigInPlace: returns the updated entry sequence
  instead of mutating the caller's dictionary. Nested mappings are values,
  so object identity is not modelled. A YAML anchor can make two positions
  share one dictionary, which Python then visits twice. By
  `Obfuscator.ObfuscateIdempotent` the second visit changes nothing.
- Self-referential documents, and nesting deep enough to hit Python's
  recursion limit, are not modelled.
- A mapping is an ordered list of entries, and the model updates entries
  by position. Duplicate keys are left to the loader.
- Floats are real numbers. NaN, infinities, dates and bytes are opaque
  `Other` scalars that carry only their truth value.
- `Run.RunMain` takes the loaded document as an argument; `Run.LoadConfig`
  models how that document is chosen. An exception that escapes `main` is
  `Uncaught`. The interpreter reports it with exit status 1.
