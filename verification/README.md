# ColFusion utilities: configuration resolver and string helpers, in Dafny

This project models two parts of the ColFusion utilities library.

- **`ConfigManager`**, the process-wide configuration resolver. It keeps one
  resolved key -> value view. `loadProperties()` rebuilds that view by
  overlaying ranked layers, lowest precedence first:
  1. the bundled default properties;
  2. the bundled custom properties, when that resource exists;
  3. the properties file whose path is the value of the system property named
     by `CONFIG_FILE_NAME_SYSTEM_PROPERTY`.

  `getProperty(key)` first checks a system property of the same name, on every
  call and without a reload. It then checks the view, and otherwise returns
  `null`. `getProperty(key, default)` returns `default` in place of `null`.
  `loadTestProperties()` rebuilds the view from the test default and test
  custom pair only.
- **`StringUtils`**, a set of string helpers:
  - `isSpecified` and `isNullOrEmpty`;
  - `replaceSpaces`, which collapses each maximal run of blanks into one `_`;
  - `removePrefix`.

Neither `ConfigManager.java` nor `StringUtils.java` is part of this model. The
behaviour modelled is the behaviour their tests, `ConfigManagerTest.java` and
`StringUtilsTest.java`, pin down. Where the tests say nothing, the model makes
its own choice and says so. The main one: an unreadable source aborts the
rebuild and leaves the previous view in place. The tests do not pin this.

Files:

- `wrappers.dfy`: module `Wrappers`, holding `Option`, a value that may be missing, and `Result`. A Java reference that may be `null` is an `Option`.
- `string_utils.dfy`: module `StringUtils`.
- `config_manager.dfy`:
  - module `Config` holds the layers, the loaders, the view rebuild, lookup, and the `ConfigManager` class;
  - module `ConfigScenarios` holds the test scenarios, stated over any bundle and environment that agree with the test resources.

Modelling choices:

- Each source is an already-parsed `map<string, string>`. An optional source is
  `Absent`, `Present(props)` or `Unreadable`.
- The process-wide system properties are a `map<string, string>`. The functions
  that read them take it as a parameter, so "set a system property" means
  "call again with an updated map".
- The file system is a map from path to `Resource`. A path missing from the map
  and a path mapped to `Absent` both mean that no file is there. The model
  treats the two the same way.
- The rebuild is a pure function (`BuildView`, `BuildTestView`). The class
  `ConfigManager` only publishes its result by replacing its single field.

## Model

| member | source | states |
|---|---|---|
| `StringUtils.IsSpecified` | src/test/java/edu/pitt/sis/exp/colfusion/utils/StringUtilsTest.java:11-24 | `isSpecified` holds exactly for the strings `isNullOrEmpty` rejects: a set reference with at least one character. |
| `StringUtils.IsNullOrEmpty` | src/test/java/edu/pitt/sis/exp/colfusion/utils/StringUtilsTest.java:11-24 | `isNullOrEmpty` holds exactly for `null` and `""`. |
| `StringUtils.NullOrEmptyIsNotSpecified` | src/test/java/edu/pitt/sis/exp/colfusion/utils/StringUtilsTest.java:11-24 | `isNullOrEmpty` is the exact complement of `isSpecified` on every input, `null` included. It holds exactly for `null` and `""`. |
| `StringUtils.SpecifiedExamples` | src/test/java/edu/pitt/sis/exp/colfusion/utils/StringUtilsTest.java:11-24 | `isSpecified` is false for `""` and `null` and true for `"abc"`. `isNullOrEmpty` gives the opposite answers. |
| `StringUtils.CollapseBlankRuns` | src/test/java/edu/pitt/sis/exp/colfusion/utils/StringUtilsTest.java:28-36 | Reference definition of `replaceSpaces` over maximal runs: each maximal run of blanks becomes one `_` and every other character is kept. The output is never longer than the input. |
| `StringUtils.CollapseLeavesNoBlanks` | src/test/java/edu/pitt/sis/exp/colfusion/utils/StringUtilsTest.java:31-36 | No blank survives in the output, whatever the input. |
| `StringUtils.ReplaceSpaces` | src/test/java/edu/pitt/sis/exp/colfusion/utils/StringUtilsTest.java:28-36 | The one-pass version, which emits `_` only for a blank that opens a run. It computes exactly the run-based reference and leaves no blank behind. |
| `StringUtils.CollapseSnoc` | src/test/java/edu/pitt/sis/exp/colfusion/utils/StringUtilsTest.java:31-36 | Appending one character adds nothing if it is a blank that continues a run. It adds one `_` if it is a blank that opens a run. Any other character is copied. |
| `StringUtils.CollapseAppend` | src/test/java/edu/pitt/sis/exp/colfusion/utils/StringUtilsTest.java:31-36 | The output of a concatenation is the concatenation of the outputs, provided the cut does not split a run of blanks. |
| `StringUtils.CollapseWholeRun` | src/test/java/edu/pitt/sis/exp/colfusion/utils/StringUtilsTest.java:31-33 | A run of blanks of any positive length becomes exactly one `_`. |
| `StringUtils.CollapseMaximalRun` | src/test/java/edu/pitt/sis/exp/colfusion/utils/StringUtilsTest.java:31-36 | A maximal run of blanks anywhere, at either end included, becomes a single `_` between the collapsed text on its two sides. |
| `StringUtils.CollapseKeepsText` | src/test/java/edu/pitt/sis/exp/colfusion/utils/StringUtilsTest.java:35-36 | Every character other than a blank or `_` survives in its original order. The output has the input's `_` count plus exactly one `_` per blank run, so existing `_` are never merged with generated ones. |
| `StringUtils.CollapseKeepsPlainText` | src/test/java/edu/pitt/sis/exp/colfusion/utils/StringUtilsTest.java:28-29 | Any text without blanks, `""` and `"abc"` among them, comes back unchanged. |
| `StringUtils.ReplaceSpacesSingleBlanks` | src/test/java/edu/pitt/sis/exp/colfusion/utils/StringUtilsTest.java:31 | For any three non-blank characters `a`, `b`, `c`, `"a b c"` becomes `"a_b_c"`; the test's input is one instance. |
| `StringUtils.ReplaceSpacesLongRun` | src/test/java/edu/pitt/sis/exp/colfusion/utils/StringUtilsTest.java:33 | For any non-blank `a`, `b`, `c`, `"a      b c"` becomes `"a_b_c"`: six blanks give one `_`. |
| `StringUtils.ReplaceSpacesOuterRuns` | src/test/java/edu/pitt/sis/exp/colfusion/utils/StringUtilsTest.java:35 | For any non-blank `a`, `b`, `c`, `" a      b c  "` becomes `"_a_b_c_"`: runs at both ends also give one `_` each. |
| `StringUtils.ReplaceSpacesKeepsUnderscores` | src/test/java/edu/pitt/sis/exp/colfusion/utils/StringUtilsTest.java:36 | For any non-blank `a`, `b`, `c`, `" a  _   b c  "` becomes `"_a___b_c_"`: an existing `_` stays between the two `_` of its neighbouring runs. |
| `StringUtils.RemovePrefix` | src/test/java/edu/pitt/sis/exp/colfusion/utils/StringUtilsTest.java:53-58 | If the text starts with the prefix, the prefix followed by the result gives back the text. Otherwise the text is returned unchanged. |
| `StringUtils.RemovePrefixRoundTrip` | src/test/java/edu/pitt/sis/exp/colfusion/utils/StringUtilsTest.java:53 | Removing a prefix that was just prepended returns the original text. |
| `StringUtils.RemovePrefixExamples` | src/test/java/edu/pitt/sis/exp/colfusion/utils/StringUtilsTest.java:53-58 | `colfusion.` is stripped from the front. A text without it, or with it only further in, is returned as is. |
| `Config.MergeKeys` | src/test/java/edu/pitt/sis/exp/colfusion/utils/ConfigManagerTest.java:157-169 | A key is in the merged view exactly when some layer defines it. |
| `Config.MergePrecedence` | src/test/java/edu/pitt/sis/exp/colfusion/utils/ConfigManagerTest.java:157-169 | The merged view gives each key the value of the highest-ranked layer that defines it. |
| `Config.MergeLookup` | src/test/java/edu/pitt/sis/exp/colfusion/utils/ConfigManagerTest.java:157-169 | A lookup in the merged view equals a top-down search of the layers. |
| `Config.LoadDefaultPropertiesFoundInResource` | src/test/java/edu/pitt/sis/exp/colfusion/utils/ConfigManagerTest.java:49-57 | Every default key ends up in the table with its default value. Other keys of the table are kept. |
| `Config.LoadCustomPropertiesFoundInResource` | src/test/java/edu/pitt/sis/exp/colfusion/utils/ConfigManagerTest.java:63-71 | A missing custom resource leaves the table as it is. A present one adds its keys and writes its values over the table, and every other key of the table keeps its value. An unreadable one is an error. |
| `Config.LoadCustomPropertiesProvidedViaSystemProperty` | src/test/java/edu/pitt/sis/exp/colfusion/utils/ConfigManagerTest.java:78-91 | With the config-file system property unset, or naming a path with no file, the table is unchanged. A readable file adds its keys and writes its values over the table, and the table's other keys keep their values. An unreadable file is an error naming its path. |
| `Config.ConfigFile` | src/test/java/edu/pitt/sis/exp/colfusion/utils/ConfigManagerTest.java:83-89 | The config-file layer: none when the property is unset or names a path with no file, which is not an error. An unreadable file is an error naming its path. A readable file is the layer. |
| `Config.BuildView` | src/test/java/edu/pitt/sis/exp/colfusion/utils/ConfigManagerTest.java:103-117 | The rebuild `loadProperties` performs fails exactly when the custom resource or the named config file is unreadable. An unreadable custom resource is reported first; otherwise the config file's error, naming its path, is reported. A successful rebuild keeps every default key. |
| `Config.BuildTestView` | src/test/java/edu/pitt/sis/exp/colfusion/utils/ConfigManagerTest.java:190-207 | The rebuild `loadTestProperties` performs gives the test defaults, with the test custom properties written over them when that resource exists. An unreadable test custom resource is the error. |
| `Config.BuildViewMergesLayers` | src/test/java/edu/pitt/sis/exp/colfusion/utils/ConfigManagerTest.java:103-117 | `loadProperties`, which loads defaults, then custom, then the config file into one table, equals the merge of the production layers. It fails exactly when one of those layers is unreadable. |
| `Config.Resolve` | src/test/java/edu/pitt/sis/exp/colfusion/utils/ConfigManagerTest.java:124-152 | `getProperty(key)` treats the system properties as one more layer above the view: the result is the top-down search of [view, system properties], which equals a lookup in their merge. |
| `Config.ResolveOr` | src/test/java/edu/pitt/sis/exp/colfusion/utils/ConfigManagerTest.java:133-135 | `getProperty(key, default)` is the top-down search of [a layer holding only `key` -> `default`, view, system properties]: the caller's default ranks below every real source. |
| `Config.ReloadPrecedence` | src/test/java/edu/pitt/sis/exp/colfusion/utils/ConfigManagerTest.java:103-117 | After a rebuild every key resolves by the precedence ladder: system property, then config file, then custom, then defaults, then absent. |
| `Config.MissingConfigFileIsSkipped` | src/test/java/edu/pitt/sis/exp/colfusion/utils/ConfigManagerTest.java:83-89 | A config-file property naming a path with no file rebuilds exactly the view an unset property gives. The tests do not pin this case. |
| `Config.UnreadableConfigFileAborts` | src/test/java/edu/pitt/sis/exp/colfusion/utils/ConfigManagerTest.java:83-89 | An unreadable config file makes `loadProperties` fail with an error naming its path. The tests do not pin this case. |
| `Config.AbsentKey` | src/test/java/edu/pitt/sis/exp/colfusion/utils/ConfigManagerTest.java:130-135 | A key that no system property, bundled layer or the file the config-file property names defines resolves to absent. With a caller default it resolves to exactly that default. |
| `Config.TestProfileIsolation` | src/test/java/edu/pitt/sis/exp/colfusion/utils/ConfigManagerTest.java:190-207 | The test view has exactly the keys of the test layers. Test custom values win over test default values. |
| `Config.TestProfileIgnoresProduction` | src/test/java/edu/pitt/sis/exp/colfusion/utils/ConfigManagerTest.java:190-207 | The test view depends on the test layers alone. Production layers and the environment play no part. |
| `Config.Reload` | src/test/java/edu/pitt/sis/exp/colfusion/utils/ConfigManagerTest.java:103-115 | After `loadProperties` the view is the merge of the production layers. When one of them cannot be read, the previous view stays. |
| `Config.ReloadTest` | src/test/java/edu/pitt/sis/exp/colfusion/utils/ConfigManagerTest.java:190-193 | After `loadTestProperties` the view is the test defaults, with the test custom properties written over them when that resource exists. When it cannot be read, the previous view stays. |
| `Config.ReloadIdempotent` | src/test/java/edu/pitt/sis/exp/colfusion/utils/ConfigManagerTest.java:52-53 | Reloading twice gives the same view as reloading once. A successful reload does not depend on the previous view, which is why the tests can reload to undo earlier tests. |
| `Config.SystemPropertyOverride` | src/test/java/edu/pitt/sis/exp/colfusion/utils/ConfigManagerTest.java:137-151 | With no reload, setting a system property makes the next lookup of that key return the new value. This holds for keys in no layer and for keys already in the view. Clearing the property restores the view's value. Other keys are unaffected. |
| `Config.ConfigManager.LoadProperties` | src/test/java/edu/pitt/sis/exp/colfusion/utils/ConfigManagerTest.java:103-115 | The instance's view becomes the reloaded view. An error is reported exactly when the rebuild fails, and it is the rebuild's own error, so an unreadable config file is reported with its path. |
| `Config.ConfigManager.LoadTestProperties` | src/test/java/edu/pitt/sis/exp/colfusion/utils/ConfigManagerTest.java:190-193 | The instance's view becomes the test view. An error is reported exactly when the test rebuild fails, and it is that rebuild's error. |
| `Config.ConfigManager.GetProperty` | src/test/java/edu/pitt/sis/exp/colfusion/utils/ConfigManagerTest.java:124-152 | The system property current at the call wins. Otherwise the instance's view is used. |
| `Config.ConfigManager.GetPropertyOrDefault` | src/test/java/edu/pitt/sis/exp/colfusion/utils/ConfigManagerTest.java:133-135 | The result is the system property, else the view's value, else the caller's default. |
| `ConfigScenarios.DefaultLayerAlone` | src/test/java/edu/pitt/sis/exp/colfusion/utils/ConfigManagerTest.java:49-57 | Loading only the defaults into an empty table gives the source key `"default"`. |
| `ConfigScenarios.CustomOverridesDefault` | src/test/java/edu/pitt/sis/exp/colfusion/utils/ConfigManagerTest.java:157-169 | After a rebuild, the source key resolves to `"custom in main"` when the custom resource exists and to `"default"` otherwise. |
| `ConfigScenarios.ConfigFileLayerLoads` | src/test/java/edu/pitt/sis/exp/colfusion/utils/ConfigManagerTest.java:78-91 | Loading the file named by the config-file system property overlays that file onto the table, so every key of the file reads back with the file's value. |
| `ConfigScenarios.ConfigFileBeatsBundled` | src/test/java/edu/pitt/sis/exp/colfusion/utils/ConfigManagerTest.java:109-117 | After a rebuild with the config-file system property set, the file's value for the source key beats both bundled layers. |
| `ConfigScenarios.TestPropertiesScenario` | src/test/java/edu/pitt/sis/exp/colfusion/utils/ConfigManagerTest.java:190-207 | After `loadTestProperties`, the source key resolves to the test custom value when that resource exists and to the test default value otherwise. This holds whatever the previous view held. |

## Left out

- `StreamUtils.java`: a wrapper over byte encoding and a stream-reading library call. Only its null-argument guards are its own logic.
- `UnitTestBase.java`: test-harness lifecycle. That covers temporary folders, system-property clean-up sets, operating-system detection and whitespace-insensitive assertions.
- `makeShortUnique`: its result depends on Java's `String.hashCode` and on truncation rules that are not visible.
- Resource and file lookup and the text format of properties files: each layer arrives already parsed, and "the resource exists" is the `Absent` / `Present` choice.
- The literal values of `CONFIG_FILE_NAME_SYSTEM_PROPERTY`, `CONFIG_FILE_NAME` and `CONFIG_TEST_FILE_NAME` are defined in `ConfigManager.java`, which is not part of this model. The first is a field of `Bundle`; the other two are represented only by whether the resource exists.
- Lazy singleton construction, and the lock that makes reload exclusive with reads: these are concurrency. The model is single-threaded, and its view is replaced wholesale.
- `null` keys and `null` arguments to `replaceSpaces` and `removePrefix`: Dafny strings cannot be `null`, and the tests never pass one.
- What `replaceSpaces` counts as a blank: the tests use only the space character, so only `' '` is a blank here. Tabs and other whitespace are not modelled.
- Whitespace-only strings for `isSpecified` / `isNullOrEmpty`: the tests do not pin them. The model treats them as specified, taking the names literally.
- The unreadable-source error path (`Unreadable`, `LoadError`): no test exercises it. The model's choice is that a failed rebuild publishes nothing and the previous view stays.
- An unreadable bundled default resource (`defaults`, `testDefaults`): these ship with the library and the tests always find them, so they are plain layers here. A rebuild never fails because of them.
- `Config.ConfigManager.constructor`: a first load that fails leaves an empty view and reports no error. What `getInstance()` does when its first load fails is decided in `ConfigManager.java`, which is not part of this model.
- The custom-resource test (`ConfigManagerTest.java` lines 63-71) loads into a fresh table but asserts on the resolver instead. `LoadCustomPropertiesFoundInResource` models the loader itself, and `ConfigScenarios.CustomOverridesDefault` states what the assertion checks.
