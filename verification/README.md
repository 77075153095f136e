# Yarn's environment-dependent constants, in Dafny

This project models the logic of yarn's `src/constants.js`: the constants
whose values depend on the host platform and environment. It covers:

- the name of the executable-search-path variable (`getPathKey`);
- the per-category state directories (`getDirectory`);
- the ordered cache-directory candidates (`getPreferredCacheDirectories`);
- the config, link-registry and global-module directories;
- the POSIX and fallback global prefixes;
- the `isProduction` check;
- the version-bump colour table (`VERSION_COLOR_SCHEME`).

The module reads `process.platform`, `process.env`, the user's home directory
and `os.tmpdir()` as globals. Here they are explicit inputs:

- `Platform` is `Win32 | Darwin | Other(tag)`. `FromTag` classifies a `process.platform` string.
- An environment `Env` is a sequence of `EnvVar(name, value)` entries. Names are distinct, and the order is the object's iteration order. A missing value (`undefined`/`null`) is `None`.
- `Host` bundles the platform, the environment, the home directory and the temporary directory.

A path is a sequence of segments, so `path.join` is sequence concatenation.
Every function is pure, so equal inputs give equal outputs by construction.

Modules: `Options` (optional values), `Ascii` (ASCII lower-casing),
`Platforms`, `Environment` (lookup, truthiness, `IsProduction`), `PathKey`,
`Directories` and `VersionColors`.

Points where the code's behaviour is easy to misread:

- The Windows path-key loop overwrites its candidate on every match, so the last match wins (`PathKey.LastEntryWins`).
- The colour table has no default entry. `ColorFor` returns `None` for any name outside the nine own keys.
- The POSIX prefix is a template literal, so it is plain string concatenation, not a path join (`PosixGlobalPrefix`).
- The variable is spelled `DESTIR`, not the conventional `DESTDIR`. The spelling is kept, and `PosixPrefixReadsOnlyDestir` proves that no other name affects the prefix.

## Model

| member | source | states |
|---|---|---|
| Platforms.FromTag | src/constants.js:110 | classifying a platform string gives a valid platform whose tag is that string; it is Win32 exactly for "win32" and Darwin exactly for "darwin" |
| Platforms.FromTagOfTag | src/constants.js:110 | classifying the tag of any valid platform returns that platform, so platforms and tag strings correspond one to one |
| Ascii.Lower | src/constants.js:114 | the lower-cased name has the same length; each character is its ASCII lower-case counterpart, and no ASCII capital is left |
| Environment.Lookup | src/constants.js:43-44 | property access on the environment: a present value comes from an entry with that name; with distinct names it is that entry's value; with no such entry it is absent |
| Environment.IsProduction | src/constants.js:102-104 | true exactly when the environment has an entry NODE_ENV whose value is the string "production" |
| PathKey.ScanPathKey | src/constants.js:113-117 | the in-order scan returns its starting candidate when no name lower-cases to "path", and otherwise the name of the last entry that does |
| PathKey.GetPathKey | src/constants.js:106-121 | "PATH" on every platform but Windows, whatever the environment; on Windows "Path" when no name lower-cases to "path", else the last such name, with no later entry matching |
| PathKey.PathKeyIsPathName | src/constants.js:107-115 | the chosen name always lower-cases to "path"; on Windows it is "Path" or a name present in the environment |
| PathKey.ScanPathKeyAppend | src/constants.js:113-117 | scanning a concatenation of two entry sequences equals scanning the second from the candidate the first produced |
| PathKey.LastEntryWins | src/constants.js:113-117 | on Windows, a new last entry whose name lower-cases to "path" becomes the key; any other new last entry leaves the key unchanged |
| PathKey.TwoCaseVariants | src/constants.js:110-117 | with "Path" followed by "PATH" on Windows, the later "PATH" is chosen |
| Directories.GetDirectory | src/constants.js:41-49 | a three-segment path; it is LOCALAPPDATA/Yarn/category exactly when the platform is Windows and LOCALAPPDATA has a non-empty value; otherwise it is home/.category/yarn |
| Directories.CategoryRoundTrip | src/constants.js:43-48 | the category can be read back from its directory, and a directory that reads back as a category is that category's directory |
| Directories.DirectoriesDistinct | src/constants.js:41-49 | distinct categories never share a directory on the same host |
| Directories.PreferredCacheDirectories | src/constants.js:51-63 | exactly two candidates; the last is tmp/.yarn-cache; the first is home/Library/Caches/Yarn on macOS and the "cache" category directory elsewhere |
| Directories.FirstCacheCandidate | src/constants.js:54-58 | on macOS the first cache candidate is not of the category-directory form; elsewhere it is the "cache" category directory |
| Directories.ConfigDirectory | src/constants.js:66 | the config directory is the category directory that reads back as "config" |
| Directories.LinkRegistryDirectory | src/constants.js:67 | the config directory is a strict prefix of it, with exactly one more segment, "link" |
| Directories.GlobalModuleDirectory | src/constants.js:68 | the config directory is a strict prefix of it, with exactly one more segment, "global" |
| Directories.FallbackGlobalPrefix | src/constants.js:86 | the hidden ".yarn" folder directly inside the home directory |
| Directories.PosixGlobalPrefix | src/constants.js:85 | always ends in "/usr/local". What comes before is a truthy DESTIR value, or nothing at all when no DESTIR entry is truthy |
| Directories.PosixPrefixReadsOnlyDestir | src/constants.js:85 | adding an entry under any name other than DESTIR, DESTDIR included, does not change the POSIX prefix |
| Directories.ConfigIsNoCacheCandidate | src/constants.js:51-66 | the config directory is never one of the cache candidates |
| Directories.ResolveDirectories | src/constants.js:65-68 | each field of the resolved record holds its exported constant. Link and global are distinct strict extensions of the config directory. The cache candidates are non-empty and end with tmp/.yarn-cache. Neither the config directory nor the fallback prefix is a cache candidate, and the two differ |
| Directories.WindowsConfigDirectory | src/constants.js:43-44 | on Windows, whenever LOCALAPPDATA is C:\Users\X\AppData\Local (whatever else the environment holds), the config directory is that path followed by Yarn and config |
| VersionColors.ColorFor | src/constants.js:123-135 | a colour exists exactly for the nine categories. Red is for major, premajor, prerelease and unknown; yellow for minor and preminor; green for patch and prepatch; white for unchanged only |
| VersionColors.PreBumpSharesColor | src/constants.js:124-129 | each "pre" bump (premajor, preminor, prepatch) has the colour of the bump it precedes |

## Left out

- `getYarnBinPath`, `YARN_BIN_PATH` and `NODE_BIN_PATH` (src/constants.js:70-80): they depend on webpack bundling, `__dirname` and `process.execPath`, which are host plumbing with no logic to model.
- The literal URL, file-name, port, concurrency, timeout and version constants (src/constants.js:12-39, 82-98): plain data with no behaviour.
- Node's `path.join` normalisation: separator choice, collapsing `..` and repeated separators. Paths are segment sequences instead, so results are stated segment by segment rather than as separator-joined strings.
- Directories.DirectoriesDistinct: distinctness of category directories holds for segment sequences. Under `path.join`, categories such as "cache/" and "cache" would give the same string. The code calls `getDirectory` only with "cache" and "config", which this does not affect.
- Environment.Lookup: compares names exactly. On Windows, Node's `process.env` finds a variable under any letter case, so an entry named `LocalAppData` would serve `process.env.LOCALAPPDATA`. The same holds for `DESTIR` and for `isProduction`'s default `NODE_ENV`. The model does not give that case-insensitive match for these three lookups.
- VersionColors.ColorFor: the table is an object literal, so an inherited name such as "constructor" or "toString" returns an `Object.prototype` member rather than `undefined`. The model gives `None` for every name outside the nine own keys.
- `isProduction`'s default argument `env = process.env` (src/constants.js:102): `IsProduction` always takes the environment explicitly.
- Ascii.Lower: lowers ASCII letters only, not all of Unicode as `String.prototype.toLowerCase` does. It is used only to compare names with "path".
- Reading `os.tmpdir()`, the user's home directory (`./util/user-home-dir`, which is not part of this model), `process.env` and `process.platform` at module load: these are host inputs and appear as the fields of `Host` and as parameters.
- `ENV_PATH_KEY` (src/constants.js:100) is `GetPathKey` applied to the host's platform and environment; it has no separate member.
- The colour type's closedness (every value is red, yellow, green or white) holds by the `Color` datatype itself and needs no lemma.
