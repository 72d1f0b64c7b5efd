/** The magnum-plugins recipe object: its settings, its option set and the
    state the package manager reads back from it after each step. */
module Recipe {
  import opened Options
  import opened CMakeVariables
  import LinkTable

  const MagnumReference: string := "magnum/2020.06@camposs/stable"
  const AssimpReference: string := "assimp/5.2.2"

  /** The packages `requirements` declares: magnum always, assimp only when
      the assimp importer is enabled. */
  function Requirements(withAssimpImporter: bool): (refs: seq<string>)
    ensures |refs| == if withAssimpImporter then 2 else 1
    ensures refs[0] == MagnumReference
    ensures AssimpReference in refs <==> withAssimpImporter
    ensures forall x :: x in refs ==> x == MagnumReference || x == AssimpReference
  {
    [MagnumReference] + (if withAssimpImporter then [AssimpReference] else [])
  }

  class MagnumPluginsRecipe {
    /** `settings.os` and `settings.compiler`. */
    const os: string
    const compiler: string
    /** The option set, in the order `options.items()` yields it. */
    var options: seq<OptionEntry>
    /** The options this recipe sets on its `magnum` dependency. */
    var magnumOptions: map<string, OptionValue>
    /** The package references declared so far. */
    var requirements: seq<string>
    /** `cpp_info.libs` and `cpp_info.exelinkflags`. */
    var libs: seq<string>
    var exelinkflags: seq<string>

    /** Each option is declared once, and `shared` and
        `with_assimpimporter` (never removed) hold booleans. */
    ghost predicate Valid()
      reads this
    {
      && DistinctNames(options)
      && Get(options, "shared").Bool?
      && Get(options, "with_assimpimporter").Bool?
    }

    function Shared(): bool
      reads this
    {
      Truthy(Get(options, "shared"))
    }

    function WithAssimpImporter(): bool
      reads this
    {
      Truthy(Get(options, "with_assimpimporter"))
    }

    constructor (os: string, compiler: string, options: seq<OptionEntry>, magnumOptions: map<string, OptionValue>)
      requires DistinctNames(options)
      requires Get(options, "shared").Bool? && Get(options, "with_assimpimporter").Bool?
      ensures Valid()
      ensures this.os == os && this.compiler == compiler
      ensures this.options == options && this.magnumOptions == magnumOptions
      ensures requirements == [] && libs == [] && exelinkflags == []
    {
      this.os := os;
      this.compiler := compiler;
      this.options := options;
      this.magnumOptions := magnumOptions;
      requirements := [];
      libs := [];
      exelinkflags := [];
    }

    /** `config_options`: on Windows the fPIC option is removed from the
        set; every other option, and every other platform, is untouched. */
    method ConfigOptions()
      requires Valid()
      requires os == "Windows" ==> "fPIC" in Names(options)
      modifies this`options
      ensures Valid()
      ensures options == if os == "Windows" then RemoveOption(old(options), "fPIC") else old(options)
      ensures os == "Windows" ==> Get(options, "fPIC") == Absent
      ensures forall name :: name != "fPIC" ==> Get(options, name) == Get(old(options), name)
    {
      if os == "Windows" {
        RemoveKeepsDistinct(options, "fPIC");
        forall name | name != "fPIC"
          ensures Get(RemoveOption(options, "fPIC"), name) == Get(options, name)
        {
          RemoveKeepsOthers(options, "fPIC", name);
        }
        options := RemoveOption(options, "fPIC");
      }
    }

    /** `configure`: with the assimp importer enabled, the magnum
        dependency's `with_anyimageimporter` is forced on, whatever it was. */
    method Configure()
      requires Valid()
      modifies this`magnumOptions
      ensures Valid()
      ensures WithAssimpImporter() ==> magnumOptions == old(magnumOptions)["with_anyimageimporter" := Bool(true)]
      ensures !WithAssimpImporter() ==> magnumOptions == old(magnumOptions)
      ensures WithAssimpImporter() ==> magnumOptions["with_anyimageimporter"] == Bool(true)
    {
      if Truthy(Get(options, "with_assimpimporter")) {
        magnumOptions := magnumOptions["with_anyimageimporter" := Bool(true)];
      }
    }

    /** `requirements`: declares magnum, and assimp when the importer is on. */
    method DeclareRequirements()
      requires Valid()
      modifies this`requirements
      ensures Valid()
      ensures requirements == old(requirements) + Requirements(WithAssimpImporter())
    {
      ghost var declared := requirements;
      requirements := requirements + [MagnumReference];
      if Truthy(Get(options, "with_assimpimporter")) {
        requirements := requirements + [AssimpReference];
        assert requirements == declared + ([MagnumReference] + [AssimpReference]);
      }
    }

    /** The variable part of `generate`: a fresh toolchain's variables are
        filled by `add_cmake_option` for every option in order, then for
        LIB_SUFFIX, BUILD_STATIC and BUILD_STATIC_PIC. The result does not
        depend on anything but the option set, so generating twice gives
        the same map. The assimp dependency is looked up unconditionally
        afterwards, so the step needs the assimp importer enabled. */
    method Generate() returns (variables: map<string, string>)
      requires Valid()
      requires WithAssimpImporter()
      ensures variables == Variables(options)
    {
      variables := map[];
      var i := 0;
      while i < |options|
        invariant 0 <= i <= |options|
        invariant variables == OptionVariables(options[..i])
      {
        OptionVariablesStep(options, i);
        variables := AddCMakeOption(variables, options[i].name, options[i].value);
        i := i + 1;
      }
      assert options[..i] == options;
      assert variables == OptionVariables(options);
      VariablesDefinition(options);
      variables := AddCMakeOption(variables, LibSuffixKey, Str(""));
      variables := AddCMakeOption(variables, BuildStaticKey, Bool(!Truthy(Get(options, "shared"))));
      variables := AddCMakeOption(variables, BuildStaticPicKey, StaticPicValue(options));
    }

    /** The decision part of `package_info`: the collected libraries come
        first, followed by the system OpenGL entry of the build's row of the
        link table; macOS gets a link flag instead. */
    method PackageInfo(collected: seq<string>)
      requires Valid()
      modifies this`libs, this`exelinkflags
      ensures Valid()
      ensures libs == collected + LinkTable.Action(os, compiler, Shared()).libs
      ensures exelinkflags == old(exelinkflags) + LinkTable.Action(os, compiler, Shared()).exelinkflags
    {
      libs := collected;
      var shared := Truthy(Get(options, "shared"));
      LinkTable.ActionByBuild(os, compiler, shared);
      if os == "Windows" {
        if compiler == "msvc" {
          if !shared {
            libs := libs + ["OpenGL32.lib"];
          }
        } else {
          libs := libs + ["opengl32"];
        }
      } else {
        if os == "Macos" {
          exelinkflags := exelinkflags + ["-framework OpenGL"];
        } else if !shared {
          libs := libs + ["GL"];
        }
      }
    }
  }
}
