/** The Conan recipe of the package: its declared options and their defaults,
    the C++ standard check, the removal of `fPIC` on Windows, the ordered
    requirement lists, the layout, the CMake toolchain variables written by
    `generate` and the library list of `package_info`. */
module ConanRecipe {
  import opened Wrappers

  const PackageName: string := "gvw"
  const PackageVersion: string := "1.0.0"

  /* ----- options / default_options ----- */

  datatype OptionName = GvwStatic | GvwShared | GvwExamples | FPic

  /** The name the recipe gives each option. */
  function OptionKey(o: OptionName): string {
    match o
    case GvwStatic => "gvw_static"
    case GvwShared => "gvw_shared"
    case GvwExamples => "gvw_examples"
    case FPic => "fPIC"
  }

  /** `options`: each option with its domain. */
  const Options: map<OptionName, set<bool>> :=
    map[GvwStatic := {true, false}, GvwShared := {true, false}, GvwExamples := {true, false}, FPic := {true, false}]

  /** `default_options`. */
  const DefaultOptions: map<OptionName, bool> :=
    map[GvwStatic := true, GvwShared := true, GvwExamples := true, FPic := true]

  /** Every option is declared with the domain [True, False], has a default,
      and every default is True and lies in its option's domain. */
  lemma DefaultsMatchDeclaration(o: OptionName)
    ensures o in Options && Options[o] == {true, false}
    ensures DefaultOptions.Keys == Options.Keys
    ensures o in DefaultOptions && DefaultOptions[o] && DefaultOptions[o] in Options[o]
  {
    assert DefaultOptions.Keys == {GvwStatic, GvwShared, GvwExamples, FPic};
  }

  /** The recipe names its options apart. */
  lemma OptionKeysAreDistinct(o1: OptionName, o2: OptionName)
    ensures OptionKey(o1) == OptionKey(o2) ==> o1 == o2
  {
    if o1 != o2 {
      if |OptionKey(o1)| == |OptionKey(o2)| {
        assert OptionKey(o1)[5] != OptionKey(o2)[5];
      }
    }
  }

  /* ----- validate ----- */

  datatype CppStandard = Cpp98 | Cpp11 | Cpp14 | Cpp17 | Cpp20 | Cpp23

  /** The order of the standards by date (98 comes first, whatever its number). */
  function Chronological(s: CppStandard): nat {
    match s
    case Cpp98 => 0
    case Cpp11 => 1
    case Cpp14 => 2
    case Cpp17 => 3
    case Cpp20 => 4
    case Cpp23 => 5
  }

  datatype RecipeError =
    | CppstdTooLow(found: CppStandard)
    | MissingAttribute(attribute: string)

  /** `validate`: `check_min_cppstd(self, "17")`. */
  function Validate(cppstd: CppStandard): (r: Result<(), RecipeError>)
    ensures r.Success? <==> cppstd in {Cpp17, Cpp20, Cpp23}
    ensures r.Failure? ==> r.error == CppstdTooLow(cppstd)
  {
    if Chronological(cppstd) >= Chronological(Cpp17) then Success(()) else Failure(CppstdTooLow(cppstd))
  }

  /* ----- settings.os ----- */

  datatype OperatingSystem = Windows | Linux | Macos | FreeBsd | OtherOs

  /* ----- requirements / build_requirements / layout / package_info ----- */

  const LinkRequirements: seq<string> := ["glfw/3.3.8", "vulkan-headers/1.3.243.0"]
  const ToolRequirements: seq<string> := ["cmake/3.22.6"]

  /** `cmake_layout(self, src_folder=".", build_folder="build")`. */
  datatype Layout = Layout(srcFolder: string, buildFolder: string)

  const RecipeLayout: Layout := Layout(".", "build")

  /* ----- generate ----- */

  /** The CMake variables the toolchain defines. */
  datatype CMakeVariable = GvwConanVariable | GvwStaticVariable | GvwSharedVariable | GvwExamplesVariable

  function CMakeName(v: CMakeVariable): string {
    match v
    case GvwConanVariable => "GVW_CONAN"
    case GvwStaticVariable => "GVW_STATIC"
    case GvwSharedVariable => "GVW_SHARED"
    case GvwExamplesVariable => "GVW_EXAMPLES"
  }

  /** The CMake variable that carries an option, if any. */
  function VariableFor(o: OptionName): (v: Option<CMakeVariable>)
    ensures v.None? <==> o == FPic
    ensures v != Some(GvwConanVariable)
  {
    match o
    case GvwStatic => Some(GvwStaticVariable)
    case GvwShared => Some(GvwSharedVariable)
    case GvwExamples => Some(GvwExamplesVariable)
    case FPic => None
  }

  /** Distinct options go to distinct variables, and every variable except
      GVW_CONAN carries exactly one option. */
  lemma VariableForIsOneToOne(o1: OptionName, o2: OptionName, v: CMakeVariable)
    ensures VariableFor(o1).Some? && VariableFor(o1) == VariableFor(o2) ==> o1 == o2
    ensures v != GvwConanVariable ==> exists o :: VariableFor(o) == Some(v)
  {
    if v == GvwStaticVariable {
      assert VariableFor(GvwStatic) == Some(v);
    } else if v == GvwSharedVariable {
      assert VariableFor(GvwShared) == Some(v);
    } else if v == GvwExamplesVariable {
      assert VariableFor(GvwExamples) == Some(v);
    }
  }

  /** The entries `generate` puts in `tc.variables`, as evidently intended:
      GVW_CONAN set to True and one variable per build option. */
  function ToolchainVariables(options: map<OptionName, bool>): (vars: map<CMakeVariable, bool>)
    requires GvwStatic in options && GvwShared in options && GvwExamples in options
    ensures vars.Keys == {GvwConanVariable, GvwStaticVariable, GvwSharedVariable, GvwExamplesVariable}
    ensures vars[GvwConanVariable]
    ensures forall o :: o in options && VariableFor(o).Some? ==> vars[VariableFor(o).value] == options[o]
  {
    map[GvwConanVariable := true,
        GvwStaticVariable := options[GvwStatic],
        GvwSharedVariable := options[GvwShared],
        GvwExamplesVariable := options[GvwExamples]]
  }

  /** The attributes of a CMake toolchain object that hold tables. */
  const ToolchainTables: set<string> := {"variables", "cache_variables", "preprocessor_definitions"}

  /** Looking up a table attribute of the toolchain by name. */
  function ToolchainTable(attribute: string): (r: Result<(), RecipeError>)
    ensures r.Success? <==> attribute in ToolchainTables
  {
    if attribute in ToolchainTables then Success(()) else Failure(MissingAttribute(attribute))
  }

  /** `generate` as written: the first assignment goes through `tc.variable`,
      and the rest of the method runs only if that attribute exists. */
  function GenerateAsWritten(options: map<OptionName, bool>): (r: Result<map<CMakeVariable, bool>, RecipeError>)
    requires GvwStatic in options && GvwShared in options && GvwExamples in options
    ensures r.Success? ==> r.value == ToolchainVariables(options)
  {
    match ToolchainTable("variable")
    case Failure(e) => Failure(e)
    case Success(_) => Success(ToolchainVariables(options))
  }

  /** As written, `generate` stops at the missing `variable` attribute and no
      toolchain variable is written. */
  lemma GenerateAsWrittenFails(options: map<OptionName, bool>)
    requires GvwStatic in options && GvwShared in options && GvwExamples in options
    ensures GenerateAsWritten(options) == Failure(MissingAttribute("variable"))
  {
    assert "variable" !in ToolchainTables by {
      assert |"variable"| != |"variables"|;
      assert |"variable"| != |"cache_variables"|;
      assert |"variable"| != |"preprocessor_definitions"|;
    }
  }

  /* ----- The recipe object ----- */

  class Recipe {
    var options: map<OptionName, bool>
    var linkRequires: seq<string>
    var toolRequires: seq<string>
    var variables: map<CMakeVariable, bool>
    var libs: seq<string>

    /** The build options `generate` reads are present and only declared options are set. */
    ghost predicate Valid()
      reads this
    {
      && options.Keys <= Options.Keys
      && GvwStatic in options && GvwShared in options && GvwExamples in options
    }

    /** The defaults, overridden by the consumer's `-o` values; Conan refuses
        a value for an option the recipe does not declare. */
    constructor (overrides: map<OptionName, bool>)
      requires overrides.Keys <= Options.Keys
      ensures Valid()
      ensures options == DefaultOptions + overrides
      ensures linkRequires == [] && toolRequires == [] && variables == map[] && libs == []
    {
      options := DefaultOptions + overrides;
      linkRequires := [];
      toolRequires := [];
      variables := map[];
      libs := [];
    }

    /** `config_options`: `fPIC` is removed on Windows and kept elsewhere. */
    method ConfigOptions(os: OperatingSystem)
      requires Valid()
      modifies this
      ensures Valid()
      ensures os == Windows ==> options == old(options) - {FPic}
      ensures os != Windows ==> options == old(options)
      ensures linkRequires == old(linkRequires) && toolRequires == old(toolRequires)
      ensures variables == old(variables) && libs == old(libs)
    {
      if os == Windows {
        options := options - {FPic};
      }
    }

    /** `requirements`: glfw, then the Vulkan headers. */
    method Requirements()
      modifies this
      ensures linkRequires == old(linkRequires) + LinkRequirements
      ensures options == old(options) && toolRequires == old(toolRequires)
      ensures variables == old(variables) && libs == old(libs)
    {
      linkRequires := linkRequires + ["glfw/3.3.8"];
      linkRequires := linkRequires + ["vulkan-headers/1.3.243.0"];
    }

    /** `build_requirements`: CMake as a tool requirement, kept apart from the link requirements. */
    method BuildRequirements()
      modifies this
      ensures toolRequires == old(toolRequires) + ToolRequirements
      ensures options == old(options) && linkRequires == old(linkRequires)
      ensures variables == old(variables) && libs == old(libs)
    {
      toolRequires := toolRequires + ["cmake/3.22.6"];
    }

    /** `generate`, as evidently intended: every entry goes through `tc.variables`. */
    method Generate()
      requires Valid()
      modifies this
      ensures Valid()
      ensures variables == old(variables) + ToolchainVariables(options)
      ensures options == old(options) && linkRequires == old(linkRequires)
      ensures toolRequires == old(toolRequires) && libs == old(libs)
    {
      variables := variables[GvwConanVariable := true];
      variables := variables[GvwStaticVariable := options[GvwStatic]];
      variables := variables[GvwSharedVariable := options[GvwShared]];
      variables := variables[GvwExamplesVariable := options[GvwExamples]];
      assert variables == old(variables) + map[GvwConanVariable := true, GvwStaticVariable := options[GvwStatic],
                                               GvwSharedVariable := options[GvwShared], GvwExamplesVariable := options[GvwExamples]];
    }

    /** `package_info`: consumers link the library `gvw`. */
    method PackageInfo()
      modifies this
      ensures libs == [PackageName]
      ensures options == old(options) && linkRequires == old(linkRequires)
      ensures toolRequires == old(toolRequires) && variables == old(variables)
    {
      libs := ["gvw"];
    }
  }
}
