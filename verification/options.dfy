/** The option set of the magnum-plugins recipe: option values, the texts
    Python gives them, their truthiness, upper-casing of names, and the two
    operations the recipe performs on the set (`get_safe` and `del`). */
module Options {

  /** The value of one option: a declared boolean, free text, or the `None`
      that `get_safe` yields for an option that is not in the set. */
  datatype OptionValue = Bool(b: bool) | Str(s: string) | Absent

  /** One entry of the option set, as `options.items()` yields it. */
  datatype OptionEntry = OptionEntry(name: string, value: OptionValue)

  /** The text `"{}".format(v)` produces for a value: a boolean prints as
      `True` or `False`, a missing option as `None`. */
  function Text(v: OptionValue): (t: string)
    ensures v.Bool? ==> (t == "True" <==> v.b) && (t == "False" <==> !v.b)
    ensures v.Absent? ==> t == "None"
  {
    match v
    case Bool(b) => if b then "True" else "False"
    case Str(s) => s
    case Absent => "None"
  }

  /** Python truthiness of a value used as a condition (`if options.x`, `not options.x`). */
  predicate Truthy(v: OptionValue): (t: bool)
    ensures v.Absent? ==> !t
    ensures v.Bool? ==> (t <==> v.b)
  {
    match v
    case Bool(b) => b
    case Str(s) => s != ""
    case Absent => false
  }

  predicate IsLower(c: char)
  {
    'a' <= c <= 'z'
  }

  function UpperChar(c: char): char
  {
    if IsLower(c) then (c as int - 32) as char else c
  }

  /** `str.upper()` restricted to ASCII letters. */
  function Upper(s: string): (u: string)
    ensures |u| == |s|
  {
    seq(|s|, i requires 0 <= i < |s| => UpperChar(s[i]))
  }

  /** Upper-casing keeps the length, leaves no lower-case letter, keeps every
      other character and turns each lower-case letter into its capital. */
  lemma UpperCharacters(s: string)
    ensures |Upper(s)| == |s|
    ensures forall i :: 0 <= i < |s| ==> !IsLower(Upper(s)[i])
    ensures forall i :: 0 <= i < |s| && !IsLower(s[i]) ==> Upper(s)[i] == s[i]
    ensures forall i :: 0 <= i < |s| && IsLower(s[i]) ==> Upper(s)[i] as int == s[i] as int - 32
  {
  }

  /** A name without lower-case letters is its own upper-case form. */
  lemma UpperOfUpperCase(s: string)
    requires forall i :: 0 <= i < |s| ==> !IsLower(s[i])
    ensures Upper(s) == s
  {
    UpperCharacters(s);
    var u := Upper(s);
    assert forall i :: 0 <= i < |s| ==> u[i] == s[i];
  }

  /** The names of the entries, in order. */
  function Names(options: seq<OptionEntry>): (names: seq<string>)
    ensures |names| == |options|
    ensures forall i :: 0 <= i < |options| ==> names[i] == options[i].name
  {
    if options == [] then [] else [options[0].name] + Names(options[1..])
  }

  /** No two entries share a name (the recipe declares each option once). */
  predicate DistinctNames(options: seq<OptionEntry>)
  {
    forall i, j :: 0 <= i < j < |options| ==> options[i].name != options[j].name
  }

  /** `options.get_safe(name)`: the value of the entry called `name`, or
      `Absent` when the set holds no such entry. */
  function Get(options: seq<OptionEntry>, name: string): (v: OptionValue)
    ensures name !in Names(options) ==> v == Absent
    ensures DistinctNames(options) ==>
      forall i :: 0 <= i < |options| && options[i].name == name ==> v == options[i].value
  {
    if options == [] then Absent
    else if options[0].name == name then options[0].value
    else Get(options[1..], name)
  }

  /** `del options.<name>`: the set without the entry called `name`, every
      other entry kept in its place. */
  function RemoveOption(options: seq<OptionEntry>, name: string): (r: seq<OptionEntry>)
    ensures name !in Names(r)
    ensures name !in Names(options) ==> r == options
    ensures |r| <= |options|
  {
    if options == [] then []
    else if options[0].name == name then RemoveOption(options[1..], name)
    else [options[0]] + RemoveOption(options[1..], name)
  }

  /** The removal keeps exactly the entries with another name. */
  lemma {:induction false} RemoveOptionMembers(options: seq<OptionEntry>, name: string)
    ensures forall e :: e in RemoveOption(options, name) <==> e in options && e.name != name
  {
    if options != [] {
      RemoveOptionMembers(options[1..], name);
      assert options == [options[0]] + options[1..];
    }
  }

  /** The tail of a set with distinct names has distinct names. */
  lemma DistinctTail(options: seq<OptionEntry>)
    requires options != [] && DistinctNames(options)
    ensures DistinctNames(options[1..])
    ensures forall e :: e in options[1..] ==> e.name != options[0].name
  {
    var tail := options[1..];
    forall i, j | 0 <= i < j < |tail| ensures tail[i].name != tail[j].name {
      assert tail[i] == options[i + 1] && tail[j] == options[j + 1];
    }
    forall e | e in tail ensures e.name != options[0].name {
      var m :| 0 <= m < |tail| && tail[m] == e;
      assert options[m + 1] == e;
    }
  }

  /** Putting an entry with a new name in front keeps the names distinct. */
  lemma DistinctCons(first: OptionEntry, rest: seq<OptionEntry>)
    requires DistinctNames(rest)
    requires forall e :: e in rest ==> e.name != first.name
    ensures DistinctNames([first] + rest)
  {
    var r := [first] + rest;
    forall i, j | 0 <= i < j < |r| ensures r[i].name != r[j].name {
      assert r[j] == rest[j - 1];
      if i > 0 {
        assert r[i] == rest[i - 1];
      }
    }
  }

  /** The removal keeps the names of a declared set distinct. */
  lemma {:induction false} RemoveKeepsDistinct(options: seq<OptionEntry>, name: string)
    requires DistinctNames(options)
    ensures DistinctNames(RemoveOption(options, name))
  {
    if options != [] {
      var tail := options[1..];
      DistinctTail(options);
      RemoveKeepsDistinct(tail, name);
      if options[0].name != name {
        RemoveOptionMembers(tail, name);
        DistinctCons(options[0], RemoveOption(tail, name));
      }
    }
  }

  /** Cutting entry k out of a sequence, seen from its tail. */
  lemma CutFromTail(options: seq<OptionEntry>, k: nat)
    requires 0 < k < |options|
    ensures options[..k] + options[k + 1..] == [options[0]] + (options[1..][..k - 1] + options[1..][k..])
  {
    assert options[..k] == [options[0]] + options[1..][..k - 1];
    assert options[k + 1..] == options[1..][k..];
  }

  /** In a set with distinct names, the first entry's name is not in the tail. */
  lemma FirstNameNotInTail(options: seq<OptionEntry>)
    requires options != [] && DistinctNames(options)
    ensures options[0].name !in Names(options[1..])
  {
    var tail := options[1..];
    forall i | 0 <= i < |tail| ensures tail[i].name != options[0].name {
      assert tail[i] == options[i + 1];
    }
  }

  /** Removing a declared option takes out exactly its one entry and keeps
      every other entry in its order, as deleting from an insertion-ordered
      dictionary does. */
  lemma {:induction false} RemoveKeepsOrder(options: seq<OptionEntry>, name: string, k: nat)
    requires DistinctNames(options)
    requires k < |options| && options[k].name == name
    ensures RemoveOption(options, name) == options[..k] + options[k + 1..]
  {
    if k == 0 {
      FirstNameNotInTail(options);
    } else {
      var tail := options[1..];
      assert options[0].name != options[k].name;
      DistinctTail(options);
      assert tail[k - 1] == options[k];
      RemoveKeepsOrder(tail, name, k - 1);
      CutFromTail(options, k);
    }
  }

  /** Removing one option changes the lookup of no other option. */
  lemma {:induction false} RemoveKeepsOthers(options: seq<OptionEntry>, name: string, other: string)
    requires other != name
    ensures Get(RemoveOption(options, name), other) == Get(options, other)
  {
    if options != [] {
      RemoveKeepsOthers(options[1..], name, other);
    }
  }

  /** After removal the option reads as absent. */
  lemma RemovedIsAbsent(options: seq<OptionEntry>, name: string)
    ensures Get(RemoveOption(options, name), name) == Absent
  {
  }

  /** The options the recipe declares, with their default values
      (every one boolean). */
  const DefaultOptions: seq<OptionEntry> := [
    OptionEntry("shared", Bool(false)),
    OptionEntry("build_plugins_static", Bool(false)),
    OptionEntry("fPIC", Bool(true)),
    OptionEntry("with_assimpimporter", Bool(true)),
    OptionEntry("with_ddsimporter", Bool(false)),
    OptionEntry("with_devilimageimporter", Bool(false)),
    OptionEntry("with_drflacaudioimporter", Bool(false)),
    OptionEntry("with_drwavaudioimporter", Bool(false)),
    OptionEntry("with_faad2audioimporter", Bool(false)),
    OptionEntry("with_freetypefont", Bool(false)),
    OptionEntry("with_harfbuzzfont", Bool(false)),
    OptionEntry("with_jpegimageconverter", Bool(false)),
    OptionEntry("with_jpegimporter", Bool(false)),
    OptionEntry("with_miniexrimageconverter", Bool(false)),
    OptionEntry("with_openddl", Bool(false)),
    OptionEntry("with_opengeximporter", Bool(false)),
    OptionEntry("with_pngimageconverter", Bool(false)),
    OptionEntry("with_pngimporter", Bool(false)),
    OptionEntry("with_stanfordimporter", Bool(false)),
    OptionEntry("with_stbimageconverter", Bool(false)),
    OptionEntry("with_stbimageimporter", Bool(false)),
    OptionEntry("with_stbtruetypefont", Bool(false)),
    OptionEntry("with_stbvorbisaudioimporter", Bool(false)),
    OptionEntry("with_stlimporter", Bool(false)),
    OptionEntry("with_tinygltfimporter", Bool(false))
  ]

  /** By default the build is static with position-independent code and
      the assimp importer enabled. */
  lemma DefaultOptionValues()
    ensures Get(DefaultOptions, "shared") == Bool(false)
    ensures Get(DefaultOptions, "fPIC") == Bool(true)
    ensures Get(DefaultOptions, "with_assimpimporter") == Bool(true)
  {
    assert DefaultOptions[0].name == "shared";
    assert DefaultOptions[1..][1..][0].name == "fPIC";
    assert DefaultOptions[1..][1..][1..][0].name == "with_assimpimporter";
  }
}
