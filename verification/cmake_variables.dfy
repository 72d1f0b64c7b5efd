/** The CMake variables the recipe's `generate` step hands to the
    toolchain: one per option, upper-cased, plus three derived ones. */
module CMakeVariables {
  import opened Options

  const LibSuffixKey: string := "LIB_SUFFIX"
  const BuildStaticKey: string := "BUILD_STATIC"
  const BuildStaticPicKey: string := "BUILD_STATIC_PIC"

  /** The text `add_cmake_option` stores for a value: the tokens ON and OFF
      for the texts True and False, the text itself otherwise. */
  function CMakeValue(v: OptionValue): (r: string)
    ensures Text(v) == "True" ==> r == "ON"
    ensures Text(v) == "False" ==> r == "OFF"
    ensures Text(v) != "True" && Text(v) != "False" ==> r == Text(v)
    ensures v.Bool? ==> (r == "ON" <==> v.b) && (r == "OFF" <==> !v.b)
  {
    var text := Text(v);
    if text == "True" then "ON" else if text == "False" then "OFF" else text
  }

  /** A boolean option is always written as ON or OFF, never another token. */
  lemma BoolIsOnOrOff(b: bool)
    ensures CMakeValue(Bool(b)) in {"ON", "OFF"}
  {
  }

  /** `add_cmake_option(option, value)`: stores the value's CMake text under
      the upper-cased option name, overwriting an earlier entry there. */
  function AddCMakeOption(vars: map<string, string>, option: string, value: OptionValue): (r: map<string, string>)
    ensures r.Keys == vars.Keys + {Upper(option)}
    ensures r[Upper(option)] == CMakeValue(value)
    ensures forall k :: k in vars && k != Upper(option) ==> r[k] == vars[k]
  {
    vars[Upper(option) := CMakeValue(value)]
  }

  /** The variables after `add_cmake_option` has run for every option in
      order; a later option overwrites an earlier one with the same
      upper-cased name. */
  function OptionVariables(options: seq<OptionEntry>): (vars: map<string, string>)
    ensures options != [] ==> Upper(options[|options| - 1].name) in vars
    ensures options != [] ==> vars[Upper(options[|options| - 1].name)] == CMakeValue(options[|options| - 1].value)
  {
    if options == [] then map[]
    else
      var n := |options| - 1;
      AddCMakeOption(OptionVariables(options[..n]), options[n].name, options[n].value)
  }

  /** Every option has a variable under its upper-cased name. */
  lemma {:induction false} OptionHasVariable(options: seq<OptionEntry>, i: nat)
    requires i < |options|
    ensures Upper(options[i].name) in OptionVariables(options)
  {
    var n := |options| - 1;
    if i < n {
      OptionHasVariable(options[..n], i);
      assert options[..n][i] == options[i];
    }
  }

  /** Every variable belongs to an option: there are no others. */
  lemma {:induction false} VariableHasOption(options: seq<OptionEntry>, key: string)
    requires key in OptionVariables(options)
    ensures exists i :: 0 <= i < |options| && Upper(options[i].name) == key
  {
    var n := |options| - 1;
    if key != Upper(options[n].name) {
      VariableHasOption(options[..n], key);
      var i :| 0 <= i < n && Upper(options[..n][i].name) == key;
      assert options[..n][i] == options[i];
    }
  }

  /** Running `add_cmake_option` for one more option extends the map of
      the options before it. */
  lemma OptionVariablesStep(options: seq<OptionEntry>, i: nat)
    requires i < |options|
    ensures OptionVariables(options[..i + 1]) ==
            AddCMakeOption(OptionVariables(options[..i]), options[i].name, options[i].value)
  {
    assert options[..i + 1][..i] == options[..i];
  }

  /** The variable of an option holds that option's CMake text, unless a
      later option has the same upper-cased name. */
  lemma {:induction false} OptionVariableValue(options: seq<OptionEntry>, i: nat)
    requires i < |options|
    requires forall j :: i < j < |options| ==> Upper(options[j].name) != Upper(options[i].name)
    ensures Upper(options[i].name) in OptionVariables(options)
    ensures OptionVariables(options)[Upper(options[i].name)] == CMakeValue(options[i].value)
  {
    var n := |options| - 1;
    var prefix := options[..n];
    assert options[..n + 1] == options;
    OptionVariablesStep(options, n);
    if i < n {
      assert prefix[i] == options[i];
      forall j | i < j < n
        ensures Upper(prefix[j].name) != Upper(prefix[i].name)
      {
        assert prefix[j] == options[j];
      }
      OptionVariableValue(prefix, i);
    }
  }

  /** The value behind `not shared and get_safe("fPIC")`: Python's `and`
      yields `False` when `shared` holds and the `fPIC` value (or `None`)
      otherwise. */
  function StaticPicValue(options: seq<OptionEntry>): (v: OptionValue)
    ensures Truthy(v) <==> !Truthy(Get(options, "shared")) && Truthy(Get(options, "fPIC"))
    ensures !Truthy(Get(options, "shared")) && "fPIC" !in Names(options) ==> v == Absent
  {
    if Truthy(Get(options, "shared")) then Bool(false) else Get(options, "fPIC")
  }

  /** The three derived keys are already upper-case, so they are stored as written. */
  lemma ReservedKeysAreUpperCase()
    ensures Upper(LibSuffixKey) == LibSuffixKey
    ensures Upper(BuildStaticKey) == BuildStaticKey
    ensures Upper(BuildStaticPicKey) == BuildStaticPicKey
  {
    UpperOfUpperCase(LibSuffixKey);
    UpperOfUpperCase(BuildStaticKey);
    UpperOfUpperCase(BuildStaticPicKey);
  }

  /** The whole variable map `generate` builds from the option set. */
  function Variables(options: seq<OptionEntry>): (vars: map<string, string>)
    ensures vars.Keys == OptionVariables(options).Keys + {LibSuffixKey, BuildStaticKey, BuildStaticPicKey}
    ensures forall k :: k in OptionVariables(options) && k !in {LibSuffixKey, BuildStaticKey, BuildStaticPicKey}
              ==> vars[k] == OptionVariables(options)[k]
    ensures vars[LibSuffixKey] == ""
    ensures vars[BuildStaticKey] == "ON" <==> !Truthy(Get(options, "shared"))
    ensures vars[BuildStaticKey] == "OFF" <==> Truthy(Get(options, "shared"))
  {
    ReservedKeysAreUpperCase();
    var withSuffix := AddCMakeOption(OptionVariables(options), LibSuffixKey, Str(""));
    var withStatic := AddCMakeOption(withSuffix, BuildStaticKey, Bool(!Truthy(Get(options, "shared"))));
    AddCMakeOption(withStatic, BuildStaticPicKey, StaticPicValue(options))
  }

  /** `Variables` spelled out as the three `add_cmake_option` calls that
      follow the option loop. */
  lemma VariablesDefinition(options: seq<OptionEntry>)
    ensures Variables(options) ==
      AddCMakeOption(AddCMakeOption(AddCMakeOption(OptionVariables(options), LibSuffixKey, Str("")),
                                    BuildStaticKey, Bool(!Truthy(Get(options, "shared")))),
                     BuildStaticPicKey, StaticPicValue(options))
  {
  }

  /** BUILD_STATIC_PIC is OFF for a shared build; for a static build it
      follows fPIC, and it is the text None when fPIC is not in the set. */
  lemma StaticPicVariable(options: seq<OptionEntry>)
    ensures Truthy(Get(options, "shared")) ==> Variables(options)[BuildStaticPicKey] == "OFF"
    ensures !Truthy(Get(options, "shared")) && Get(options, "fPIC") == Bool(true) ==>
              Variables(options)[BuildStaticPicKey] == "ON"
    ensures !Truthy(Get(options, "shared")) && Get(options, "fPIC") == Bool(false) ==>
              Variables(options)[BuildStaticPicKey] == "OFF"
    ensures !Truthy(Get(options, "shared")) && Get(options, "fPIC") == Absent ==>
              Variables(options)[BuildStaticPicKey] == "None"
  {
    ReservedKeysAreUpperCase();
  }

  /** An option whose name is not shadowed by a later option or a derived
      key keeps its own CMake text in the final map. */
  lemma UnshadowedOptionVariable(options: seq<OptionEntry>, i: nat)
    requires i < |options|
    requires forall j :: i < j < |options| ==> Upper(options[j].name) != Upper(options[i].name)
    requires Upper(options[i].name) !in {LibSuffixKey, BuildStaticKey, BuildStaticPicKey}
    ensures Upper(options[i].name) in Variables(options)
    ensures Variables(options)[Upper(options[i].name)] == CMakeValue(options[i].value)
  {
    OptionVariableValue(options, i);
  }

  /** So a boolean option is written as ON when true and OFF when false. */
  lemma BooleanOptionVariable(options: seq<OptionEntry>, i: nat)
    requires i < |options| && options[i].value.Bool?
    requires forall j :: i < j < |options| ==> Upper(options[j].name) != Upper(options[i].name)
    requires Upper(options[i].name) !in {LibSuffixKey, BuildStaticKey, BuildStaticPicKey}
    ensures Upper(options[i].name) in Variables(options)
    ensures Variables(options)[Upper(options[i].name)] == if options[i].value.b then "ON" else "OFF"
  {
    UnshadowedOptionVariable(options, i);
  }

  /** Every option in the set has a variable under its upper-cased name. */
  lemma EveryOptionHasVariable(options: seq<OptionEntry>, i: nat)
    requires i < |options|
    ensures Upper(options[i].name) in Variables(options)
  {
    OptionHasVariable(options, i);
  }

  /** Once the Windows platform has removed fPIC, a static build gets the
      text None for BUILD_STATIC_PIC. */
  lemma WindowsStaticPic(options: seq<OptionEntry>)
    requires !Truthy(Get(options, "shared"))
    ensures Variables(RemoveOption(options, "fPIC"))[BuildStaticPicKey] == "None"
  {
    RemoveKeepsOthers(options, "fPIC", "shared");
    StaticPicVariable(RemoveOption(options, "fPIC"));
  }

  /** With the default options a build is static with position-independent
      code, except on Windows, where fPIC is gone and the flag reads None. */
  lemma DefaultBuildVariables()
    ensures Variables(DefaultOptions)[BuildStaticKey] == "ON"
    ensures Variables(DefaultOptions)[BuildStaticPicKey] == "ON"
    ensures Variables(RemoveOption(DefaultOptions, "fPIC"))[BuildStaticPicKey] == "None"
  {
    DefaultOptionValues();
    StaticPicVariable(DefaultOptions);
    WindowsStaticPic(DefaultOptions);
  }
}
