/** The system OpenGL entries `package_info` adds for consumers, written as
    a flat decision table over the operating system, the compiler and the
    linkage, with a proof that exactly one row applies to every build. */
module LinkTable {

  datatype OsCase = WindowsOs | MacosOs | OtherOs
  datatype CompilerCase = Msvc | NotMsvc | AnyCompiler
  datatype LinkageCase = Static | Shared | AnyLinkage

  datatype Option<T> = None | Some(value: T)

  /** One row: the builds it applies to, and the library entries and
      executable link flags it adds. */
  datatype Row = Row(os: OsCase, compiler: CompilerCase, linkage: LinkageCase,
                     libs: seq<string>, exelinkflags: seq<string>)

  const LinkRows: seq<Row> := [
    Row(WindowsOs, Msvc, Static, ["OpenGL32.lib"], []),
    Row(WindowsOs, Msvc, Shared, [], []),
    Row(WindowsOs, NotMsvc, AnyLinkage, ["opengl32"], []),
    Row(MacosOs, AnyCompiler, AnyLinkage, [], ["-framework OpenGL"]),
    Row(OtherOs, AnyCompiler, Static, ["GL"], []),
    Row(OtherOs, AnyCompiler, Shared, [], [])
  ]

  predicate OsMatches(c: OsCase, os: string)
  {
    match c
    case WindowsOs => os == "Windows"
    case MacosOs => os == "Macos"
    case OtherOs => os != "Windows" && os != "Macos"
  }

  predicate CompilerMatches(c: CompilerCase, compiler: string)
  {
    match c
    case Msvc => compiler == "msvc"
    case NotMsvc => compiler != "msvc"
    case AnyCompiler => true
  }

  predicate LinkageMatches(c: LinkageCase, shared: bool)
  {
    match c
    case Static => !shared
    case Shared => shared
    case AnyLinkage => true
  }

  predicate RowMatches(row: Row, os: string, compiler: string, shared: bool)
  {
    OsMatches(row.os, os) && CompilerMatches(row.compiler, compiler) && LinkageMatches(row.linkage, shared)
  }

  /** The first row of `rows` that applies to the build, if any. */
  function FirstMatch(rows: seq<Row>, os: string, compiler: string, shared: bool): (r: Option<Row>)
    ensures r.Some? ==> r.value in rows && RowMatches(r.value, os, compiler, shared)
    ensures r.None? ==> forall k :: 0 <= k < |rows| ==> !RowMatches(rows[k], os, compiler, shared)
  {
    if rows == [] then None
    else if RowMatches(rows[0], os, compiler, shared) then Some(rows[0])
    else FirstMatch(rows[1..], os, compiler, shared)
  }

  /** The position of the row that applies to the build: the table covers
      every build. */
  function RowIndex(os: string, compiler: string, shared: bool): (k: nat)
    ensures k < |LinkRows| && RowMatches(LinkRows[k], os, compiler, shared)
  {
    if os == "Windows" then (if compiler == "msvc" then (if shared then 1 else 0) else 2)
    else if os == "Macos" then 3
    else if shared then 5 else 4
  }

  /** The row of the table for the build. */
  function Action(os: string, compiler: string, shared: bool): (r: Row)
    ensures r in LinkRows && RowMatches(r, os, compiler, shared)
  {
    assert RowMatches(LinkRows[RowIndex(os, compiler, shared)], os, compiler, shared);
    match FirstMatch(LinkRows, os, compiler, shared)
    case Some(row) => row
    case None => assert false; Row(OtherOs, AnyCompiler, AnyLinkage, [], [])
  }

  /** The table is a decision table: every build matches exactly one row,
      and `Action` is that row. */
  lemma ExactlyOneRow(os: string, compiler: string, shared: bool)
    ensures exists k :: 0 <= k < |LinkRows| && RowMatches(LinkRows[k], os, compiler, shared)
    ensures forall k, m ::
              (0 <= k < |LinkRows| && 0 <= m < |LinkRows| &&
               RowMatches(LinkRows[k], os, compiler, shared) && RowMatches(LinkRows[m], os, compiler, shared)) ==> k == m
    ensures Action(os, compiler, shared) in LinkRows && RowMatches(Action(os, compiler, shared), os, compiler, shared)
  {
    var idx := RowIndex(os, compiler, shared);
    forall k | 0 <= k < |LinkRows| && RowMatches(LinkRows[k], os, compiler, shared)
      ensures k == idx
    {
      assert k == 0 || k == 1 || k == 2 || k == 3 || k == 4 || k == 5;
    }
  }

  /** The action for a build is the row that applies to it. */
  lemma ActionIsMatchingRow(os: string, compiler: string, shared: bool, k: nat)
    requires k < |LinkRows| && RowMatches(LinkRows[k], os, compiler, shared)
    ensures Action(os, compiler, shared) == LinkRows[k]
  {
    ExactlyOneRow(os, compiler, shared);
  }

  /** The table row by row, as the entries each kind of build receives. */
  lemma ActionByBuild(os: string, compiler: string, shared: bool)
    ensures os == "Windows" && compiler == "msvc" && !shared ==>
              Action(os, compiler, shared).libs == ["OpenGL32.lib"] && Action(os, compiler, shared).exelinkflags == []
    ensures os == "Windows" && compiler == "msvc" && shared ==>
              Action(os, compiler, shared).libs == [] && Action(os, compiler, shared).exelinkflags == []
    ensures os == "Windows" && compiler != "msvc" ==>
              Action(os, compiler, shared).libs == ["opengl32"] && Action(os, compiler, shared).exelinkflags == []
    ensures os == "Macos" ==>
              Action(os, compiler, shared).libs == [] && Action(os, compiler, shared).exelinkflags == ["-framework OpenGL"]
    ensures os != "Windows" && os != "Macos" && !shared ==>
              Action(os, compiler, shared).libs == ["GL"] && Action(os, compiler, shared).exelinkflags == []
    ensures os != "Windows" && os != "Macos" && shared ==>
              Action(os, compiler, shared).libs == [] && Action(os, compiler, shared).exelinkflags == []
  {
    if os == "Windows" {
      if compiler == "msvc" {
        ActionIsMatchingRow(os, compiler, shared, if shared then 1 else 0);
      } else {
        ActionIsMatchingRow(os, compiler, shared, 2);
      }
    } else if os == "Macos" {
      ActionIsMatchingRow(os, compiler, shared, 3);
    } else {
      ActionIsMatchingRow(os, compiler, shared, if shared then 5 else 4);
    }
  }

  /** Every build gets at most one system entry, and macOS gets a link flag
      and never a library entry. */
  lemma AtMostOneEntry(os: string, compiler: string, shared: bool)
    ensures |Action(os, compiler, shared).libs| + |Action(os, compiler, shared).exelinkflags| <= 1
    ensures os == "Macos" ==> Action(os, compiler, shared).libs == [] &&
                              Action(os, compiler, shared).exelinkflags == ["-framework OpenGL"]
    ensures os != "Macos" ==> Action(os, compiler, shared).exelinkflags == []
  {
    ActionByBuild(os, compiler, shared);
  }
}
