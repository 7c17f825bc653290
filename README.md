# Content-block configuration, modelled in Dafny

This project models the configuration pipeline of the content-block registration API, which is
`ConfigurationService` in `Classes/Service/ConfigurationService.php`. The pipeline finds every content-block
directory and turns each one into a configuration record. It collects the records in a map keyed by
content type (`CType`) and caches the map. The project also proves what each step promises.

Three layers, following the three methods of the service:

- **One directory** (`configurationForContentBlock`, module `ContentBlocks` in `content_block.dfy`, facts in
  `content_block_facts.dfy`).
  - The file system is a value: the set of paths `is_readable` accepts, what `json_decode` yields per file, and
    what `Yaml::parseFile` yields per file.
  - The `CType` comes from the `name` in `composer.json`, split with PHP's `explode` (module `Strings`,
    `explode.dfy`). Without a usable `composer.json` it is `cb_novendor_<basename>`.
  - `EditorInterface.yaml` must be readable.
  - The two translation entries fall back from `Default.xlf` to `EditorInterface.xlf` / `Frontend.xlf`.
  - The icon is the first readable of svg, png and gif. A loop (`ProbeIcon`) models the source's
    `foreach`/`break` probe.
  - The validator runs last.
  - The pure steps are functions, and `Resolve` is the specification of the whole step.
    `ConfigurationForContentBlock` is the statement-by-statement version, proved equal to `Resolve`.
- **All directories** (`configurationUncached`, module `Configuration` in `configuration.dfy`).
  - A `for` loop writes each record into the map under its `CType`; a later directory overwrites an earlier
    one.
  - The first failure aborts the build.
  - `Aggregate` specifies the loop for any per-directory resolver. `Build` is its instance with `Resolve`.
    The build lemmas are stated for `Aggregate`, so they hold for `Build`.
- **Cache** (`configuration`). `Cache` is a class whose `entries` map the methods update.
  - `Configuration` builds on a miss and stores the map.
  - On a hit it returns the stored map without building.
  - A ghost out-parameter `builds` is set to 1 on the line after the call to `ConfigurationUncached` and
    is 0 otherwise. It is instrumentation: it records which branch ran, and is not derived from what the
    builder itself does.
- A worked instance (module `Scenario`) proves what comes out for one directory whose package is named
  `vendor/package`, such as `acme/widget`. The directory has a parseable EditorInterface.yaml and an svg icon,
  and the validator accepts every record. The result is one entry keyed `vendor_package`, with the Svg
  provider.

Points where the model follows the code rather than what its structure suggests:
- **Name without a slash.** A package name without `/` is not an error. `explode` yields one piece, the
  package part is `null`, and the `CType` is `<name>_`.
- **The `false` entries.** The translation entries can hold PHP `false`. The model keeps that value, and
  `TranslationPaths` proves that no returned record holds it.
- **Non-string names.** The file declares `strict_types=1`, so `explode()` throws a `TypeError` when the
  decoded `name` is missing or is not a string. The model treats that as a failure (`NameTypeError`). The
  error carries no path, since the `TypeError`'s message is `explode()`'s own and names no file.

## Model

| member | source | states |
|---|---|---|
| `Strings.Explode` | Classes/Service/ConfigurationService.php:80 | `explode('/', …)` always yields at least one piece, so `$vendor` is always bound |
| `Strings.ExplodePiecesAreFree` | Classes/Service/ConfigurationService.php:80 | no piece `explode` yields contains the delimiter |
| `Strings.ImplodeExplode` | Classes/Service/ConfigurationService.php:80 | gluing the pieces back with the delimiter gives the original name |
| `Strings.ExplodeImplode` | Classes/Service/ConfigurationService.php:80 | splitting delimiter-free pieces glued with the delimiter gives the pieces back |
| `Strings.ExplodeWithoutSeparator` | Classes/Service/ConfigurationService.php:80 | a name without `/` is a single piece |
| `Strings.ExplodeAfterPiece` | Classes/Service/ConfigurationService.php:80 | `v/w` with `v` slash-free splits into `v` followed by the pieces of `w` |
| `ContentBlocks.LanguageDir` | Classes/Service/ConfigurationService.php:58-62 | no contract of its own: the `src/Language/` directory under a directory path; its use is fixed by `TranslationPaths` |
| `ContentBlocks.LayoutOf` | Classes/Service/ConfigurationService.php:57-66 | no contract of its own: the real, language and relative paths and the two file paths of a directory; `RecordFields` and `TranslationPaths` state what comes of them |
| `ContentBlocks.ComposerJson` | Classes/Service/ConfigurationService.php:68-73 | no contract of its own: `null` for an unreadable composer.json, the decoded value otherwise; see `NoVendorFallback`, `PackageCType`, `NameNotString` |
| `ContentBlocks.PackageName` | Classes/Service/ConfigurationService.php:80 | no contract of its own: the `name` entry when it is a string, the only argument strict types let `explode` take; see `NameNotString`, `PackageCType` |
| `ContentBlocks.CTypeFromName` | Classes/Service/ConfigurationService.php:80-81 | the CType built from a package name is never empty and always holds the `_`, so it is never an integer-like array key |
| `ContentBlocks.DeriveCType` | Classes/Service/ConfigurationService.php:75-82 | a derived CType is non-empty and holds a `_`; the only failure is `explode()`'s type error (`NameTypeError`), which names no file |
| `ContentBlocks.TranslationFile` | Classes/Service/ConfigurationService.php:90-103 | no contract of its own: Default.xlf when readable, else the named file, and `false` when EditorInterface.yaml is unreadable; see `TranslationPaths`, `TranslationIgnoresNamedFile` |
| `ContentBlocks.IconFile` | Classes/Service/ConfigurationService.php:109-110 | no contract of its own: `<dir>ContentBlockIcon.<ext>`; see `SvgBeforePng`, `OnlyGif` |
| `ContentBlocks.ProviderFor` | Classes/Service/ConfigurationService.php:111-113 | no contract of its own: Svg for `svg`, Bitmap otherwise; see `ProviderKind` |
| `ContentBlocks.FirstIcon` | Classes/Service/ConfigurationService.php:105-116 | reference definition of the probe, no contract of its own; see `FirstIconIsFirstReadable`, and `ProbeIcon` is proved equal to it |
| `ContentBlocks.NoIconMessage` | Classes/Service/ConfigurationService.php:117-121 | no contract of its own: the sprintf message; see `MissingIcon` |
| `ContentBlocks.Assemble` | Classes/Service/ConfigurationService.php:123-131 | no contract of its own: the record array; see `RecordFields`, `ResolveSucceeds` |
| `ContentBlocks.Resolve` | Classes/Service/ConfigurationService.php:54-138 | reference definition of one directory's resolution, no contract of its own; see the `ContentBlockFacts` rows, and `ConfigurationForContentBlock` is proved equal to it |
| `ContentBlocks.ProbeIcon` | Classes/Service/ConfigurationService.php:105-116 | the svg/png/gif probe loop with `break` returns exactly the first readable icon (`FirstIcon`) |
| `ContentBlocks.ConfigurationForContentBlock` | Classes/Service/ConfigurationService.php:54-138 | resolving a directory step by step gives exactly the specified result `Resolve`, failures included |
| `ContentBlockFacts.NoVendorFallback` | Classes/Service/ConfigurationService.php:68-78 | an unreadable composer.json, or one that decodes to null, gives the CType `"cb_novendor_" + basename` |
| `ContentBlockFacts.VendorPackage` | Classes/Service/ConfigurationService.php:80-81 | the name `vendor/package` gives the CType `vendor_package` |
| `ContentBlockFacts.ExtraSegmentsIgnored` | Classes/Service/ConfigurationService.php:80-81 | with more slashes only the first two segments make up the CType |
| `ContentBlockFacts.NameWithoutSlash` | Classes/Service/ConfigurationService.php:80-81 | a name without `/` raises no error and gives `name + "_"` |
| `ContentBlockFacts.PackageCType` | Classes/Service/ConfigurationService.php:75-82 | a decoded composer.json named `vendor/package` derives the CType `vendor_package` |
| `ContentBlockFacts.NameNotString` | Classes/Service/ConfigurationService.php:76-81 | a non-null composer.json without a string `name` fails resolution with `explode()`'s type error, before any later check |
| `ContentBlockFacts.MissingEditorInterface` | Classes/Service/ConfigurationService.php:85-87 | an unreadable EditorInterface.yaml always fails resolution; when the CType derived, the failure is the exception `<path> not found`, whose message begins with that file's path |
| `ContentBlockFacts.MissingIcon` | Classes/Service/ConfigurationService.php:117-121 | once the CType derives and EditorInterface.yaml is readable and parses, no readable icon fails resolution with `No icon found for content block <CType>` |
| `ContentBlockFacts.ValidatorRejects` | Classes/Service/ConfigurationService.php:133-135 | a record the validator rejects is not returned; its message is the failure |
| `ContentBlockFacts.RecordFields` | Classes/Service/ConfigurationService.php:57-137 | a returned record's `path` is the real path plus `/`; its CType is the derived one; its yaml is the parsed EditorInterface.yaml; its icon and provider are the probe's result; the validator accepted it |
| `ContentBlockFacts.ResolveSucceeds` | Classes/Service/ConfigurationService.php:54-137 | conversely, a derived CType, a readable and parseable EditorInterface.yaml, an icon and the validator's acceptance make resolution return exactly the assembled record |
| `ContentBlockFacts.TranslationPaths` | Classes/Service/ConfigurationService.php:90-103 | a returned record never holds `false` for a translation entry; a readable Default.xlf makes both entries `<base><name>/src/Language/Default.xlf`; otherwise they are the distinct EditorInterface.xlf and Frontend.xlf paths |
| `ContentBlockFacts.TranslationIgnoresNamedFile` | Classes/Service/ConfigurationService.php:91-100 | the fallback files are never checked: only the readability of EditorInterface.yaml and Default.xlf decides the entry |
| `ContentBlockFacts.FirstIconIsFirstReadable` | Classes/Service/ConfigurationService.php:106-116 | the probe finds nothing exactly when no icon file is readable, and otherwise picks the first readable one in probe order |
| `ContentBlockFacts.SvgBeforePng` | Classes/Service/ConfigurationService.php:108-114 | with both svg and png readable, the svg icon is chosen, with the Svg provider |
| `ContentBlockFacts.OnlyGif` | Classes/Service/ConfigurationService.php:108-114 | with only the gif readable, the gif icon is chosen, with the Bitmap provider |
| `ContentBlockFacts.ProviderKind` | Classes/Service/ConfigurationService.php:109-113 | the provider of the chosen icon is Svg exactly when the svg file is readable, and Bitmap otherwise |
| `Configuration.Aggregate` | Classes/Service/ConfigurationService.php:44-51 | reference definition of the loop for any per-directory resolver, no contract of its own; see `AllOrNothing`, `KeysAreCTypes`, `StoredUnderOwnCType`, `LastDirectoryWins`, `FailedPrefixAborts` |
| `Configuration.Build` | Classes/Service/ConfigurationService.php:39-52 | reference definition of the build: `Aggregate` with `Resolve`, no contract of its own; `ConfigurationUncached` is proved equal to it |
| `Configuration.FailedPrefixAborts` | Classes/Service/ConfigurationService.php:45-49 | once a directory fails, the build ends with that failure whatever follows |
| `Configuration.ConfigurationUncached` | Classes/Service/ConfigurationService.php:39-52 | the directory loop returns exactly the specified build `Build` |
| `Configuration.AllOrNothing` | Classes/Service/ConfigurationService.php:44-51 | the build succeeds exactly when every directory resolves; otherwise it fails with the first failing directory's error, and no partial map comes back |
| `Configuration.KeysAreCTypes` | Classes/Service/ConfigurationService.php:44-51 | after a build the map's keys are exactly the CTypes of the processed directories |
| `Configuration.StoredUnderOwnCType` | Classes/Service/ConfigurationService.php:48 | every stored record's `CType` field equals its key |
| `Configuration.LastDirectoryWins` | Classes/Service/ConfigurationService.php:48 | the record stored under a CType is that of the last directory in enumeration order with that CType |
| `Configuration.Cache.Get` | Classes/Service/ConfigurationService.php:31 | `get` returns the stored map exactly when the key is present, and a miss otherwise |
| `Configuration.Cache.Set` | Classes/Service/ConfigurationService.php:33 | `set` stores the map under the key and leaves every other entry as it was |
| `Configuration.Configuration` | Classes/Service/ConfigurationService.php:26-37 | on a hit: returns the stored map, does not build, and leaves the cache unchanged. On a miss: builds exactly once and returns the build; a successful build is stored under the configuration entry, and a failed one leaves the cache unchanged |
| `Configuration.ConfigurationTwice` | Classes/Service/ConfigurationService.php:26-37 | after a successful call, a second call returns the same map without building |
| `Scenario.WidgetResolves` | Classes/Service/ConfigurationService.php:54-137 | a directory with composer name `vendor/package` (both parts slash-free), a readable and parseable EditorInterface.yaml, an svg icon and a validator that accepts every record resolves to CType `vendor_package`, with the Svg provider and icon `<base><name>/ContentBlockIcon.svg` |
| `Scenario.WidgetConfiguration` | Classes/Service/ConfigurationService.php:39-52 | under the same conditions (including a validator that accepts every record), building over that one directory gives a map with the single key `vendor_package`, whose record has the Svg provider and the svg icon |

## Left out

- Directory enumeration (the Symfony `Finder`) is not modelled; the directories are an input sequence, and
  ordering is left unmodelled. The finder sets no depth, so it also yields nested directories such as
  `src/Language/`. Those lack an EditorInterface.yaml and would abort the build. The model cannot show this,
  because it does not model the directory tree.
- The array `configurationUncached` returns keeps insertion order, and an overwritten CType keeps its first
  position. `ConfigurationMap` is a Dafny `map`, which has no order, so the model states which records the
  result holds and under which keys, but not their order.
- `getRealPath()`, `getBasename()` and `Environment::getPublicPath()` are given strings. A `getRealPath()`
  that returns `false` is not modelled.
- `DIRECTORY_SEPARATOR` is fixed to `/`.
- `Constants` (`BASEPATH`, `CACHE`, `CACHE_CONFIGURATION_ENTRY`) is not part of this model. The base path is
  `Env.basePath` and the cache key is the `entry` parameter of `Configuration`.
- The internals of `json_decode` and `Yaml::parseFile` are not modelled; each is a map from path to decoded
  value.
  - A path without a `json` entry decodes to `null`.
  - A readable path without a `yaml` entry makes the parser throw (`YamlParseError`).
  - Floats are not among the decoded values.
  - PHP's string-offset semantics for a composer.json that decodes to a bare string are not modelled; such a
    document counts as having no string `name`.
- `file_get_contents` failing on a file that `is_readable` accepted is not modelled.
- PHP's undefined-key and undefined-offset warnings are not modelled. The missing second `explode` piece is
  `null`, which concatenates as the empty string.
- `ContentBlockValidator` is not part of this model. Its `validate` is the function `Env.validate`, which
  returns a message when it rejects a record.
- `CacheManager`, `GeneralUtility::makeInstance`, the cache's tags and its lifetime argument `0` are not
  modelled. The cache is one `Cache` object holding configuration maps, passed in by the caller.
- The icon provider classes are the two-valued tag `IconProvider` (`Svg`, `Bitmap`).
- There is no concurrency in the source, and none is modelled.
