# magnum-plugins packaging recipe — Dafny model

The repository is a Conan recipe that builds and packages the Magnum
plugins library. Most of `conanfile.py` drives external tools. This project
models the recipe's four pieces of deterministic logic and proves their
properties:

- `sort_libs` (module `SortLibs`, file `sort_libs.dfy`). It appends a suffix
  in place to every expected library name. It then collects, in expected
  order, every discovered library equal to an expected name, and can
  reverse the result. The in-place rewrite is a method over an `array`. The
  collected result is specified by the functions `Matches` and `Reversed`.
  Lemmas prove grouping, exact multiplicities, membership, length and the
  reversal.
- The option set (module `Options`, file `options.dfy`). Option values are
  `Bool(b)`, `Str(s)` or `Absent`. Absent is the Python `None` that
  `get_safe` returns for a missing option. The module holds the text that
  `"{}".format(...)` gives a value, its Python truthiness, ASCII
  upper-casing, `get_safe`, `del options.<name>`, and the declared
  defaults.
- The CMake variable map of `generate` (module `CMakeVariables`, file
  `cmake_variables.dfy`). `add_cmake_option` is a function on maps.
  `Variables` is the whole map, built from the option set plus
  `LIB_SUFFIX`, `BUILD_STATIC` and `BUILD_STATIC_PIC`.
- The link entries of `package_info` (module `LinkTable`, file
  `link_table.dfy`). They are a flat table of six rows, with a proof that
  every build matches exactly one row.

The recipe object is the class `Recipe.MagnumPluginsRecipe` in
`recipe.dfy`. Its fields are the settings (`os`, `compiler`), the option
set, the options set on the `magnum` dependency, the declared
requirements, and `cpp_info.libs` / `cpp_info.exelinkflags`. Its methods
`ConfigOptions`, `Configure`, `DeclareRequirements`, `Generate` and
`PackageInfo` correspond to the recipe's methods. Each one is proved
against the functions above.

The option set is a sequence of entries in the order `options.items()`
yields them. Order matters because a later `add_cmake_option` write
overwrites an earlier one under the same upper-cased name.
`Generate` returns the variable map. `tc.generate()` writes that map to
a file, and the model does not include this I/O. The map starts empty
because every call creates a fresh toolchain. So `Generate` yields
`Variables(options)` and nothing else, and generating twice on the same
options gives the same map.

Three details of the code decide the results:
- On Windows, the link entry depends on the compiler. An msvc static
  build gets `OpenGL32.lib`, an msvc shared build gets nothing, and any
  other compiler gets `opengl32` whatever `shared` is.
- On Windows, `fPIC` is deleted. A static build then sets
  `BUILD_STATIC_PIC` to the text `None`, because Python's `and` returns
  the `None` that `get_safe` gives.
- `add_cmake_option` compares the value's text, so a text option whose
  value is `ON` is also written as `ON`. The contract of `CMakeValue` says
  that a boolean value gives ON if and only if it is true and OFF if and
  only if it is false. For any value, the text `True` gives `ON`, the
  text `False` gives `OFF`, and any other text passes through unchanged.

## Model

| member | source | states |
|---|---|---|
| `Options.Text` | conanfile.py:140-141 | `"{}".format` prints a boolean option as `True` exactly when it is true and `False` exactly when it is false, and a missing option as `None` |
| `Options.Truthy` | conanfile.py:152-153 | a boolean option used as a condition is true exactly when its value is true, and a missing option (`None`) is never true |
| `Options.Upper` | conanfile.py:140 | upper-casing keeps the length of the name (its per-character effect is `UpperCharacters`) |
| `Options.UpperCharacters` | conanfile.py:140 | upper-casing an option name keeps its length, leaves no lower-case letter, keeps every other character and turns each lower-case letter into its capital |
| `Options.UpperOfUpperCase` | conanfile.py:150-153 | a name without lower-case letters (such as the derived keys) is stored under itself |
| `Options.Get` | conanfile.py:153 | `get_safe` gives `None` for an option not in the set, and the option's own value when it is |
| `Options.RemoveOption` | conanfile.py:101-103 | deleting an option leaves no entry with that name, never lengthens the set, and leaves a set without that option unchanged (its kept entries, names and order are `RemoveOptionMembers`, `RemoveKeepsDistinct` and `RemoveKeepsOrder`) |
| `Options.RemoveOptionMembers` | conanfile.py:103 | after the deletion the set holds exactly the entries whose name is another one |
| `Options.RemoveKeepsDistinct` | conanfile.py:103 | deleting from a set with distinct names keeps the names distinct |
| `Options.RemoveKeepsOrder` | conanfile.py:103 | deleting a declared option at position k gives exactly the entries before k followed by the entries after it, so the remaining options keep their order |
| `Options.RemoveKeepsOthers` | conanfile.py:101-103 | deleting `fPIC` does not change the value of any other option |
| `Options.RemovedIsAbsent` | conanfile.py:103 | after the deletion `get_safe` on that option gives `None` |
| `Options.DefaultOptionValues` | conanfile.py:73-99 | by default `shared` is false, `fPIC` is true and `with_assimpimporter` is true |
| `SortLibs.Suffixed` | conanfile.py:16 | the rewritten expected list has the same length and order, and each element is the original element with the suffix appended |
| `SortLibs.SuffixedByEmpty` | conanfile.py:14-16 | with the default empty suffix the expected names are unchanged |
| `SortLibs.Matches` | conanfile.py:18-22 | everything the nested loops collect is one of the expected names |
| `SortLibs.EqualEntries` | conanfile.py:20-22 | the inner loop appends only entries equal to the expected name |
| `SortLibs.EqualEntriesCount` | conanfile.py:20-22 | the inner loop appends every entry of `libs` equal to the expected name, once per occurrence, and nothing else |
| `SortLibs.MatchesAppend` | conanfile.py:18-22 | the result is grouped by expected name in expected order: the result for `o1 + o2` is the result for `o1` followed by the result for `o2` |
| `SortLibs.MatchesMultiplicity` | conanfile.py:18-22 | a name occurs in the result (occurrences in the expected list) × (occurrences in `libs`) times, once per equal (expected, lib) pair |
| `SortLibs.MatchesMembership` | conanfile.py:18-22 | a name is in the result if and only if it is in both the expected list and `libs`, so every element comes from `libs` |
| `SortLibs.MatchesLength` | conanfile.py:18-22 | the result's length is the sum, over expected names, of their occurrence counts in `libs` |
| `SortLibs.Reversed` | conanfile.py:24-26 | reversing gives the same length, with element k equal to element n-1-k of the input |
| `SortLibs.ReversedSameElements` | conanfile.py:24-26 | reversing keeps every element with its multiplicity |
| `SortLibs.SortLibs` | conanfile.py:14-28 | rewrites the expected array in place to the suffixed names. It returns the grouped matches of `libs` against the suffixed names, and exactly their reverse when `reverseResult` is set. `libs` is a value and is never changed |
| `CMakeVariables.CMakeValue` | conanfile.py:141-142 | the text `True` gives `ON` and `False` gives `OFF`. Any other text passes through unchanged. A boolean value gives `ON` if and only if it is true and `OFF` if and only if it is false |
| `CMakeVariables.BoolIsOnOrOff` | conanfile.py:141-142 | a boolean value never gives a token other than ON or OFF |
| `CMakeVariables.AddCMakeOption` | conanfile.py:139-143 | the value is stored under the upper-cased option name, overwriting that key only, and every other variable is kept |
| `CMakeVariables.OptionVariables` | conanfile.py:145-146 | after the loop the last option's upper-cased name holds that option's CMake text: a later write overwrites an earlier one |
| `CMakeVariables.OptionHasVariable` | conanfile.py:145-146 | after the option loop there is a variable for every option, under its upper-cased name |
| `CMakeVariables.VariableHasOption` | conanfile.py:145-146 | the option loop creates no variable that is not an option's upper-cased name |
| `CMakeVariables.OptionVariableValue` | conanfile.py:143-146 | an option's variable holds that option's value text unless a later option has the same upper-cased name (later writes win) |
| `CMakeVariables.ReservedKeysAreUpperCase` | conanfile.py:150-153 | `LIB_SUFFIX`, `BUILD_STATIC` and `BUILD_STATIC_PIC` are stored under exactly those names |
| `CMakeVariables.Variables` | conanfile.py:143-153 | the map's keys are the option variables plus the three derived keys. Option variables not overwritten by a derived key keep their value. `LIB_SUFFIX` is always empty. `BUILD_STATIC` is ON if and only if `shared` is false, and OFF if and only if it is true |
| `CMakeVariables.StaticPicValue` | conanfile.py:153 | `not shared and get_safe("fPIC")` is truthy exactly when `shared` is false and `fPIC` is true, and is `None` for a static build with no `fPIC` |
| `CMakeVariables.StaticPicVariable` | conanfile.py:153 | `BUILD_STATIC_PIC` is OFF whenever `shared` is true. For a static build it is ON/OFF following `fPIC`, and the text `None` when `fPIC` is absent |
| `CMakeVariables.UnshadowedOptionVariable` | conanfile.py:143-153 | an option that no later option and no derived key shadows keeps its own value text in the final map |
| `CMakeVariables.BooleanOptionVariable` | conanfile.py:141-146 | such an option with a boolean value is written as exactly ON (true) or OFF (false) |
| `CMakeVariables.EveryOptionHasVariable` | conanfile.py:145-146 | every option still in the set has a variable keyed by its upper-cased name in the final map |
| `CMakeVariables.WindowsStaticPic` | conanfile.py:153 | once `fPIC` is deleted, as `config_options` does on Windows, a static build gets `BUILD_STATIC_PIC` = `None` |
| `CMakeVariables.DefaultBuildVariables` | conanfile.py:152-153 | with the default options `BUILD_STATIC` and `BUILD_STATIC_PIC` are ON, and `BUILD_STATIC_PIC` is `None` once `fPIC` is deleted |
| `LinkTable.RowIndex` | conanfile.py:187-197 | the branches of `package_info` pick, for every build, a row of the table that applies to it |
| `LinkTable.Action` | conanfile.py:187-197 | every build gets a row of the table, and that row applies to the build |
| `LinkTable.ExactlyOneRow` | conanfile.py:187-197 | the os/compiler/shared table is a decision table: every build matches some row, no build matches two, and `Action` is the matching row |
| `LinkTable.ActionIsMatchingRow` | conanfile.py:187-197 | the action for a build is the row that matches it |
| `LinkTable.ActionByBuild` | conanfile.py:187-197 | row by row: msvc static gets `OpenGL32.lib`; msvc shared gets nothing; other Windows compilers get `opengl32`; macOS gets the `-framework OpenGL` link flag and no library; other systems get `GL` when static and nothing when shared |
| `LinkTable.AtMostOneEntry` | conanfile.py:187-197 | each build gets at most one system entry, macOS never gets a library, and only macOS gets a link flag |
| `Recipe.Requirements` | conanfile.py:113-116 | the first requirement is always `magnum/2020.06@camposs/stable`. `assimp/5.2.2` is listed if and only if the assimp importer is enabled, each reference is listed once, and nothing else is listed: the list is exactly `[magnum]` or `[magnum, assimp]` |
| `Recipe.MagnumPluginsRecipe.constructor` | conanfile.py:45-99 | a recipe starts with its settings and option set (each option declared once, `shared` and `with_assimpimporter` boolean) and with no requirements, libraries or link flags |
| `Recipe.MagnumPluginsRecipe.ConfigOptions` | conanfile.py:101-103 | on Windows `fPIC`, which must be in the set (deleting a missing option raises), is removed and reads as absent afterwards. No other option changes, and on other systems nothing changes |
| `Recipe.MagnumPluginsRecipe.Configure` | conanfile.py:105-111 | with the assimp importer enabled, magnum's `with_anyimageimporter` becomes true whatever it was before. Otherwise magnum's options are unchanged |
| `Recipe.MagnumPluginsRecipe.DeclareRequirements` | conanfile.py:113-116 | appends exactly `Requirements(with_assimpimporter)` to the declared requirements |
| `Recipe.MagnumPluginsRecipe.Generate` | conanfile.py:136-153 | the variable map is `Variables(options)`. It depends on the option set only, so generating twice gives the same map |
| `Recipe.MagnumPluginsRecipe.PackageInfo` | conanfile.py:184-197 | `cpp_info.libs` is the collected libraries followed by the matching table row's libraries. The row's link flags are appended to `exelinkflags` |

## Left out

- `export` and `source` (conanfile.py:118-134): these clone the upstream repository over the network and record its location. Also left out are the `replace_in_file` patch of `CMakeLists.txt`, whose not-found behaviour lives in the Conan library, and the commented-out `patch`.
- `build` and `package` (conanfile.py:174-182): these only invoke CMake and copy the licence file.
- `collect_libs` (conanfile.py:185) scans the package folder. `PackageInfo` takes its result as the parameter `collected`.
- The `Corrade_ROOT`, `Magnum_ROOT` and `Assimp_ROOT` variables and the `CMakeDeps` properties (conanfile.py:154-169): they read dependency folders from the framework. Line 158 looks up `assimp` unconditionally, so `Generate` requires the assimp importer to be enabled.
- `layout` and the unused imports: they contain no logic. test_package/conanfile.py is not part of this model: it only wires paths, builds and runs a binary.
- `Options.Upper`: models `str.upper()` for ASCII letters only. Option names in this recipe are ASCII.
- `Options.Truthy`: a text value is truthy when it is non-empty, following Python strings. Conan's own option-object truthiness lives in the Conan library and is not modelled. The recipe only tests `shared` and `with_assimpimporter`, which `Valid()` keeps boolean.
- `SortLibs.SortLibs`: `libs` is a value, so a call that passes the same Python list as both `correct_order` and `libs` is not modelled. With that aliasing, the suffixing would also change `libs`.
- The framework's own checks are not modelled. It validates option values against their declared domains, it checks that the `magnum` dependency declares `with_anyimageimporter`, and it rejects a reference declared twice. It also calls `requirements()` once per recipe, so `DeclareRequirements` is not limited to one call here.
- `Recipe.MagnumPluginsRecipe.ConfigOptions` requires `fPIC` to be in the set on Windows, because `del` on a missing option raises (conanfile.py:103).
- `Options.RemoveOption`: it is total and returns a set without the option unchanged, where `del` raises. The error path is not modelled. Its only caller among the recipe's methods, `ConfigOptions`, requires the option to be present. The lemmas `CMakeVariables.WindowsStaticPic` and `CMakeVariables.DefaultBuildVariables` also apply it, to describe the set after the Windows deletion.
- `CMakeVariables.Variables`, `CMakeVariables.StaticPicValue` and `CMakeVariables.StaticPicVariable` read `shared` through `get_safe`, so on a set without `shared` they give `BUILD_STATIC` = ON. The source reads `self.options.shared` (conanfile.py:152-153), which raises for a missing option. That error path is not modelled. The recipe always declares `shared`, and `Valid()` keeps it in the set.
