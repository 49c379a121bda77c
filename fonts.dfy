/** The font registrar: `registerFont` and the module-level loop that
    registers the seven Plus Jakarta Sans weights under logical names.
    The filesystem is an abstract set of existing paths and the process-wide
    `GlobalFonts` registry is a map from logical name to file path. */
module Fonts {
  import opened Wrappers

  /** One row of the module's font table. */
  datatype FontFile = FontFile(file: string, name: string)

  datatype FontError = FontNotFound(message: string)

  /** The table, in registration order. */
  const Table: seq<FontFile> := [
    FontFile("PlusJakartaSans-Bold.ttf", "bold"),
    FontFile("PlusJakartaSans-ExtraBold.ttf", "extrabold"),
    FontFile("PlusJakartaSans-ExtraLight.ttf", "extralight"),
    FontFile("PlusJakartaSans-Light.ttf", "light"),
    FontFile("PlusJakartaSans-Medium.ttf", "medium"),
    FontFile("PlusJakartaSans-Regular.ttf", "regular"),
    FontFile("PlusJakartaSans-SemiBold.ttf", "semibold")
  ]

  const LogicalNames: set<string> :=
    {"bold", "extrabold", "extralight", "light", "medium", "regular", "semibold"}

  /** The path of `file` under the fonts directory `root`
      (`path.join(__dirname, "../fonts", file)` with the directory resolved). */
  function FontPath(root: string, file: string): string
  {
    root + "/" + file
  }

  /** The candidate locations tried for a font file: the same path twice. */
  function Candidates(root: string, file: string): (r: seq<string>)
    ensures |r| == 2
    ensures forall i | 0 <= i < |r| :: r[i] == FontPath(root, file)
  {
    [FontPath(root, file), FontPath(root, file)]
  }

  /** `Array.prototype.join`. */
  function Join(parts: seq<string>, sep: string): string
  {
    if |parts| == 0 then ""
    else if |parts| == 1 then parts[0]
    else parts[0] + sep + Join(parts[1..], sep)
  }

  /** The message thrown when no candidate exists. */
  function NotFoundMessage(paths: seq<string>): string
  {
    "Font file not found at " + Join(paths, " or ")
  }

  /** For two candidates the message names both, joined by " or ". */
  lemma NotFoundMessageOfPair(a: string, b: string)
    ensures NotFoundMessage([a, b]) == "Font file not found at " + a + " or " + b
  {
    var prefix := "Font file not found at ";
    assert [a, b][1..] == [b];
    assert Join([a, b], " or ") == a + " or " + b;
    assert prefix + (a + " or " + b) == prefix + a + " or " + b;
  }

  /** The index of the first path that exists, or None when none does. */
  function FirstFound(paths: seq<string>, existing: set<string>): (r: Option<nat>)
    ensures r.Some? ==> r.value < |paths| && paths[r.value] in existing
    ensures r.Some? ==> forall j :: 0 <= j < r.value ==> paths[j] !in existing
    ensures r.None? ==> forall j :: 0 <= j < |paths| ==> paths[j] !in existing
  {
    if |paths| == 0 then None
    else if paths[0] in existing then Some(0)
    else match FirstFound(paths[1..], existing)
      case None => None
      case Some(i) => Some(i + 1)
  }

  /** Because both candidates are one path, the search succeeds exactly
      when that path exists, and then finds that path. */
  lemma CandidatesCollapse(root: string, file: string, existing: set<string>)
    ensures FirstFound(Candidates(root, file), existing).Some?
            <==> FontPath(root, file) in existing
    ensures FirstFound(Candidates(root, file), existing).Some? ==>
            Candidates(root, file)[FirstFound(Candidates(root, file), existing).value]
            == FontPath(root, file)
  {
  }

  /** The process-wide font registry (`GlobalFonts`). */
  class FontRegistry {
    var fonts: map<string, string>

    constructor ()
      ensures fonts == map[]
    {
      fonts := map[];
    }

    /** `GlobalFonts.registerFromPath(path, name)`. */
    method RegisterFromPath(path: string, name: string)
      modifies this
      ensures fonts == old(fonts)[name := path]
    {
      fonts := fonts[name := path];
    }
  }

  /** `registerFont(file, name)`: registers `name` to the first candidate
      path that exists; throws, leaving the registry alone, when none does. */
  method RegisterFont(registry: FontRegistry, existing: set<string>, root: string,
                      file: string, name: string) returns (r: Outcome<FontError>)
    modifies registry
    ensures var paths := Candidates(root, file);
            match FirstFound(paths, existing)
            case Some(i) => r == Pass && registry.fonts == old(registry.fonts)[name := paths[i]]
            case None => r == Fail(FontNotFound(NotFoundMessage(paths)))
                         && registry.fonts == old(registry.fonts)
  {
    var paths := Candidates(root, file);
    var i := 0;
    while i < |paths|
      invariant 0 <= i <= |paths|
      invariant forall j :: 0 <= j < i ==> paths[j] !in existing
      invariant registry.fonts == old(registry.fonts)
    {
      if paths[i] in existing {
        registry.RegisterFromPath(paths[i], name);
        return Pass;
      }
      i := i + 1;
    }
    return Fail(FontNotFound(NotFoundMessage(paths)));
  }

  /** How many leading entries of `entries` have their file present. */
  function Leading(entries: seq<FontFile>, existing: set<string>, root: string): (k: nat)
    ensures k <= |entries|
    ensures forall j :: 0 <= j < k ==> FontPath(root, entries[j].file) in existing
    ensures k < |entries| ==> FontPath(root, entries[k].file) !in existing
  {
    if |entries| == 0 || FontPath(root, entries[0].file) !in existing then 0
    else 1 + Leading(entries[1..], existing, root)
  }

  /** The registry after registering every entry of `entries` in order. */
  /** Registering never drops a font and leaves every name outside `entries` as it was. */
  function Installed(m: map<string, string>, entries: seq<FontFile>, root: string): (r: map<string, string>)
    ensures m.Keys <= r.Keys
    ensures forall k | k in m && k !in Names(entries) :: r[k] == m[k]
  {
    if |entries| == 0 then m
    else
      var last := entries[|entries| - 1];
      Installed(m, entries[..|entries| - 1], root)[last.name := FontPath(root, last.file)]
  }

  /** The logical names of `entries`. */
  function Names(entries: seq<FontFile>): set<string>
  {
    if |entries| == 0 then {} else Names(entries[..|entries| - 1]) + {entries[|entries| - 1].name}
  }

  /** Registering adds exactly the entries' names to the registry. */
  lemma {:induction false} InstalledKeys(m: map<string, string>, entries: seq<FontFile>, root: string)
    ensures Installed(m, entries, root).Keys == m.Keys + Names(entries)
  {
    if |entries| > 0 {
      InstalledKeys(m, entries[..|entries| - 1], root);
    }
  }

  /** An entry whose name no later entry reuses ends up mapped to its file. */
  lemma {:induction false} InstalledLookup(m: map<string, string>, entries: seq<FontFile>, root: string, i: nat)
    requires i < |entries|
    requires forall j :: i < j < |entries| ==> entries[j].name != entries[i].name
    ensures entries[i].name in Installed(m, entries, root)
    ensures Installed(m, entries, root)[entries[i].name] == FontPath(root, entries[i].file)
  {
    if i < |entries| - 1 {
      InstalledLookup(m, entries[..|entries| - 1], root, i);
    }
  }

  /** The module-level `fonts.forEach(registerFont)`: registers the table in
      order and stops at the first font whose file is missing, with that
      font's error; the fonts before it stay registered. */
  method RegisterTable(registry: FontRegistry, existing: set<string>, root: string,
                        entries: seq<FontFile>)
    returns (r: Outcome<FontError>)
    modifies registry
    ensures var k := Leading(entries, existing, root);
            registry.fonts == Installed(old(registry.fonts), entries[..k], root)
            && (r.Pass? <==> k == |entries|)
            && (r.Fail? ==> r == Fail(FontNotFound(NotFoundMessage(Candidates(root, entries[k].file)))))
  {
    var i := 0;
    while i < |entries|
      invariant 0 <= i <= |entries|
      invariant forall j :: 0 <= j < i ==> FontPath(root, entries[j].file) in existing
      invariant registry.fonts == Installed(old(registry.fonts), entries[..i], root)
    {
      CandidatesCollapse(root, entries[i].file, existing);
      r := RegisterFont(registry, existing, root, entries[i].file, entries[i].name);
      if r.Fail? {
        return;
      }
      assert entries[..i + 1][..i] == entries[..i];
      i := i + 1;
    }
    assert entries[..i] == entries;
    r := Pass;
  }

  /** With every file present, the whole table is registered. */
  lemma {:induction false} LeadingAllPresent(entries: seq<FontFile>, existing: set<string>, root: string)
    requires forall i :: 0 <= i < |entries| ==> FontPath(root, entries[i].file) in existing
    ensures Leading(entries, existing, root) == |entries|
  {
    if |entries| > 0 {
      LeadingAllPresent(entries[1..], existing, root);
    }
  }

  ghost predicate DistinctNames(entries: seq<FontFile>)
  {
    forall i, j :: 0 <= i < j < |entries| ==> entries[i].name != entries[j].name
  }

  /** No two rows of the table share a logical name. */
  lemma TableNamesDistinct()
    ensures DistinctNames(Table)
  {
  }

  lemma TableNamesAreLogicalNames()
    ensures Names(Table) == LogicalNames
  {
    var t := Table;
    assert t[..1][..0] == [];
    assert Names(t[..1]) == {"bold"};
    assert t[..2][..1] == t[..1];
    assert Names(t[..2]) == {"bold", "extrabold"};
    assert t[..3][..2] == t[..2];
    assert Names(t[..3]) == {"bold", "extrabold", "extralight"};
    assert t[..4][..3] == t[..3];
    assert Names(t[..4]) == {"bold", "extrabold", "extralight", "light"};
    assert t[..5][..4] == t[..4];
    assert Names(t[..5]) == {"bold", "extrabold", "extralight", "light", "medium"};
    assert t[..6][..5] == t[..5];
    assert Names(t[..6]) == {"bold", "extrabold", "extralight", "light", "medium", "regular"};
    assert t[..7][..6] == t[..6];
    assert t[..7] == t;
  }

  /** When every font file is present, the table adds exactly the seven
      logical names to the registry `m`, each bound to its file. */
  lemma TableInstalls(m: map<string, string>, existing: set<string>, root: string)
    requires forall i :: 0 <= i < |Table| ==> FontPath(root, Table[i].file) in existing
    ensures Leading(Table, existing, root) == |Table|
    ensures Installed(m, Table, root).Keys == m.Keys + LogicalNames
    ensures forall i :: 0 <= i < |Table| ==>
              Installed(m, Table, root)[Table[i].name] == FontPath(root, Table[i].file)
  {
    LeadingAllPresent(Table, existing, root);
    InstalledKeys(m, Table, root);
    TableNamesDistinct();
    TableNamesAreLogicalNames();
    forall i | 0 <= i < |Table|
      ensures Installed(m, Table, root)[Table[i].name] == FontPath(root, Table[i].file)
    {
      InstalledLookup(m, Table, root, i);
    }
  }

  /** Module load: registers the seven fonts of the table. It succeeds exactly
      when all seven files exist, and then the registry has gained exactly
      the seven logical names, each bound to its file. */
  method LoadModuleFonts(registry: FontRegistry, existing: set<string>, root: string)
    returns (r: Outcome<FontError>)
    modifies registry
    ensures r.Pass? <==> forall i :: 0 <= i < |Table| ==> FontPath(root, Table[i].file) in existing
    ensures r.Pass? ==> registry.fonts.Keys == old(registry.fonts).Keys + LogicalNames
    ensures r.Pass? ==> forall i :: 0 <= i < |Table| ==>
              registry.fonts[Table[i].name] == FontPath(root, Table[i].file)
    ensures r.Fail? ==> registry.fonts.Keys <= old(registry.fonts).Keys + LogicalNames
  {
    ghost var before := registry.fonts;
    r := RegisterTable(registry, existing, root, Table);
    var k := Leading(Table, existing, root);
    if r.Pass? {
      assert Table[..k] == Table;
      TableInstalls(before, existing, root);
    } else {
      InstalledKeys(before, Table[..k], root);
      NamesOfPrefix(Table, k);
      TableNamesAreLogicalNames();
    }
  }

  lemma {:induction false} NamesOfPrefix(entries: seq<FontFile>, k: nat)
    requires k <= |entries|
    ensures Names(entries[..k]) <= Names(entries)
  {
    if k < |entries| {
      assert entries[..|entries| - 1][..k] == entries[..k];
      NamesOfPrefix(entries[..|entries| - 1], k);
    } else {
      assert entries[..k] == entries;
    }
  }
}
