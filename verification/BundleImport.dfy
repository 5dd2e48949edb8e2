/** Previewing and applying a verified bundle (internal/backup/import.go). A table is its list of rows; each importer
    decodes a group's bytes and replaces its table in a transaction of its own. */
module BundleImport {
  import opened Basics
  import opened Bundle

  type Rows = seq<string>

  type Tables = map<string, Rows>

  /** What this build can import: a name, the count the preview finds (None: malformed), the rows the import reads
      (None: the import fails and rolls back). */
  datatype ImportGroup = ImportGroup(name: string, validate: string -> Option<nat>, decode: string -> Option<Rows>)

  datatype GroupResult = GroupResult(name: string, recordCount: nat)

  datatype PreviewReport = PreviewReport(groups: seq<GroupResult>, unknown: seq<string>, absent: seq<string>)

  datatype ApplyReport = ApplyReport(imported: seq<GroupResult>, failed: Option<string>, unattempted: seq<string>)

  class Database {
    var tables: Tables

    constructor (tables: Tables)
      ensures this.tables == tables
    {
      this.tables := tables;
    }
  }

  function Names(groups: seq<ImportGroup>): (names: seq<string>)
    ensures |names| == |groups|
  {
    seq(|groups|, i requires 0 <= i < |groups| => groups[i].name)
  }

  /** The group is absent from the bundle, or its importer can read what the bundle holds. */
  predicate Importable(vb: VerifiedBundle, g: ImportGroup) {
    var data := OpenGroup(vb, g.name);
    data.Some? ==> g.decode(data.value).Some?
  }

  /** What importing the groups in order reports, and does to the tables. */
  function Imported(vb: VerifiedBundle, groups: seq<ImportGroup>): seq<GroupResult>
    requires forall i | 0 <= i < |groups| :: Importable(vb, groups[i])
  {
    if groups == [] then []
    else
      var init, g := groups[..|groups| - 1], groups[|groups| - 1];
      var data := OpenGroup(vb, g.name);
      assert Importable(vb, g);
      Imported(vb, init) + if data.None? then [] else [GroupResult(g.name, |g.decode(data.value).value|)]
  }

  function Installed(tables: Tables, vb: VerifiedBundle, groups: seq<ImportGroup>): Tables
    requires forall i | 0 <= i < |groups| :: Importable(vb, groups[i])
  {
    if groups == [] then tables
    else
      var init, g := groups[..|groups| - 1], groups[|groups| - 1];
      var data := OpenGroup(vb, g.name);
      assert Importable(vb, g);
      if data.None? then Installed(tables, vb, init)
      else Installed(tables, vb, init)[g.name := g.decode(data.value).value]
  }

  /** One group: decoded and committed, or nothing when the bundle does not carry it or it cannot be decoded. */
  method ApplyGroup(vb: VerifiedBundle, g: ImportGroup, db: Database, imported: seq<GroupResult>)
    returns (ok: bool, imported': seq<GroupResult>)
    modifies db
    ensures ok <==> Importable(vb, g)
    ensures !ok || OpenGroup(vb, g.name).None? ==> db.tables == old(db.tables) && imported' == imported
    ensures ok && OpenGroup(vb, g.name).Some? ==>
              var rows := g.decode(OpenGroup(vb, g.name).value).value;
              && db.tables == old(db.tables)[g.name := rows]
              && imported' == imported + [GroupResult(g.name, |rows|)]
  {
    var data := OpenGroup(vb, g.name);
    if data.None? {
      return true, imported;
    }
    var rows := g.decode(data.value);
    if rows.None? {
      return false, imported;
    }
    db.tables := db.tables[g.name := rows.value];
    return true, imported + [GroupResult(g.name, |rows.value|)];
  }

  /** The tables and the report after the first `n` groups. */
  ghost predicate AppliedUpTo(tables: Tables, imported: seq<GroupResult>, start: Tables, vb: VerifiedBundle, groups: seq<ImportGroup>, n: nat) {
    && n <= |groups| && (forall i | 0 <= i < n :: Importable(vb, groups[i]))
    && tables == Installed(start, vb, groups[..n]) && imported == Imported(vb, groups[..n])
  }

  lemma AppliedNext(tables: Tables, imported: seq<GroupResult>, start: Tables, vb: VerifiedBundle, groups: seq<ImportGroup>, n: nat,
                    tables': Tables, imported': seq<GroupResult>)
    requires AppliedUpTo(tables, imported, start, vb, groups, n) && n < |groups| && Importable(vb, groups[n])
    requires var data := OpenGroup(vb, groups[n].name);
             if data.None? then tables' == tables && imported' == imported
             else
               var rows := groups[n].decode(data.value).value;
               tables' == tables[groups[n].name := rows] && imported' == imported + [GroupResult(groups[n].name, |rows|)]
    ensures AppliedUpTo(tables', imported', start, vb, groups, n + 1)
  {
    assert groups[..n + 1][..n] == groups[..n];
  }

  /** Groups are applied in order until one fails; what committed stays, the rest is named as not attempted. `done`
      is the number of groups passed. */
  method Apply(k: Codec, zip: seq<ZipEntry>, groups: seq<ImportGroup>, db: Database)
    returns (verified: bool, report: ApplyReport, ghost done: nat)
    modifies db
    ensures verified <==> Passes(k, zip)
    ensures !verified ==> db.tables == old(db.tables) && report == ApplyReport([], None, [])
    ensures verified ==>
              && AppliedUpTo(db.tables, report.imported, old(db.tables), Opened(k, zip), groups, done)
              && (done == |groups| ==> report.failed == None && report.unattempted == [])
              && (done < |groups| ==>
                    && !Importable(Opened(k, zip), groups[done])
                    && report.failed == Some(groups[done].name) && report.unattempted == Names(groups[done + 1..]))
  {
    done := 0;
    report := ApplyReport([], None, []);
    var r := VerifyBundle(k, zip);
    if r.Err? {
      return false, report, 0;
    }
    var vb, imported := r.value, [];
    for i := 0 to |groups|
      invariant AppliedUpTo(db.tables, imported, old(db.tables), vb, groups, i)
    {
      ghost var tables := db.tables;
      var ok, more := ApplyGroup(vb, groups[i], db, imported);
      if !ok {
        return true, ApplyReport(imported, Some(groups[i].name), Names(groups[i + 1..])), i;
      }
      AppliedNext(tables, imported, old(db.tables), vb, groups, i, db.tables, more);
      imported := more;
    }
    return true, ApplyReport(imported, None, []), |groups|;
  }

  // ---------------------------------------------------------------- preview

  predicate Valid(vb: VerifiedBundle, g: ImportGroup) {
    var data := OpenGroup(vb, g.name);
    data.Some? ==> g.validate(data.value).Some?
  }

  function Previewed(vb: VerifiedBundle, groups: seq<ImportGroup>): seq<GroupResult>
    requires forall i | 0 <= i < |groups| :: Valid(vb, groups[i])
  {
    if groups == [] then []
    else
      var init, g := groups[..|groups| - 1], groups[|groups| - 1];
      var data := OpenGroup(vb, g.name);
      assert Valid(vb, g);
      Previewed(vb, init) + if data.None? then [] else [GroupResult(g.name, g.validate(data.value).value)]
  }

  function Absent(vb: VerifiedBundle, groups: seq<ImportGroup>): seq<string> {
    if groups == [] then []
    else
      var init, g := groups[..|groups| - 1], groups[|groups| - 1];
      Absent(vb, init) + if OpenGroup(vb, g.name).None? then [g.name] else []
  }

  function CarriedFn(vb: VerifiedBundle): ImportGroup -> bool {
    (g: ImportGroup) => OpenGroup(vb, g.name).Some?
  }

  function MissingFn(vb: VerifiedBundle): ImportGroup -> bool {
    (g: ImportGroup) => OpenGroup(vb, g.name).None?
  }

  function NameFn(): ImportGroup -> string {
    (g: ImportGroup) => g.name
  }

  /** A carried group's name with the number of records its validation counts, or its import reads. */
  function ValidatedFn(vb: VerifiedBundle): ImportGroup -> GroupResult {
    (g: ImportGroup) =>
      GroupResult(g.name, match OpenGroup(vb, g.name)
                          case None => 0
                          case Some(data) => if g.validate(data).Some? then g.validate(data).value else 0)
  }

  function DecodedFn(vb: VerifiedBundle): ImportGroup -> GroupResult {
    (g: ImportGroup) =>
      GroupResult(g.name, match OpenGroup(vb, g.name)
                          case None => 0
                          case Some(data) => if g.decode(data).Some? then |g.decode(data).value| else 0)
  }

  /** The preview shows the groups the bundle carries, in the importers' order, each with its validated count. */
  lemma {:induction false} PreviewedPicks(vb: VerifiedBundle, groups: seq<ImportGroup>)
    requires forall i | 0 <= i < |groups| :: Valid(vb, groups[i])
    ensures Picks(Previewed(vb, groups), groups, CarriedFn(vb), ValidatedFn(vb))
  {
    if groups == [] {
      PicksNothing(CarriedFn(vb), ValidatedFn(vb));
    } else {
      var init, g := groups[..|groups| - 1], groups[|groups| - 1];
      assert groups == init + [g] && Valid(vb, g);
      assert forall i | 0 <= i < |init| :: init[i] == groups[i];
      PreviewedPicks(vb, init);
      PicksSnoc(Previewed(vb, init), init, CarriedFn(vb), ValidatedFn(vb), g);
    }
  }

  /** The report of an import names the carried groups in order, each with the number of rows it put in its table. */
  lemma {:induction false} ImportedPicks(vb: VerifiedBundle, groups: seq<ImportGroup>)
    requires forall i | 0 <= i < |groups| :: Importable(vb, groups[i])
    ensures Picks(Imported(vb, groups), groups, CarriedFn(vb), DecodedFn(vb))
  {
    if groups == [] {
      PicksNothing(CarriedFn(vb), DecodedFn(vb));
    } else {
      var init, g := groups[..|groups| - 1], groups[|groups| - 1];
      assert groups == init + [g] && Importable(vb, g);
      assert forall i | 0 <= i < |init| :: init[i] == groups[i];
      ImportedPicks(vb, init);
      PicksSnoc(Imported(vb, init), init, CarriedFn(vb), DecodedFn(vb), g);
    }
  }

  lemma {:induction false} AbsentPicks(vb: VerifiedBundle, groups: seq<ImportGroup>)
    ensures Picks(Absent(vb, groups), groups, MissingFn(vb), NameFn())
  {
    if groups == [] {
      PicksNothing(MissingFn(vb), NameFn());
    } else {
      var init, g := groups[..|groups| - 1], groups[|groups| - 1];
      assert groups == init + [g];
      AbsentPicks(vb, init);
      PicksSnoc(Absent(vb, init), init, MissingFn(vb), NameFn(), g);
    }
  }

  function Unknown(names: seq<string>, groups: seq<ImportGroup>): seq<string> {
    if names == [] then []
    else
      var init, name := names[..|names| - 1], names[|names| - 1];
      Unknown(init, groups) + if name in Names(groups) then [] else [name]
  }

  function UnknownFn(groups: seq<ImportGroup>): string -> bool {
    (name: string) => forall i | 0 <= i < |groups| :: groups[i].name != name
  }

  /** The carried names that no importer has, in the order carried and as often. */
  lemma {:induction false} UnknownPicks(names: seq<string>, groups: seq<ImportGroup>)
    ensures Picks(Unknown(names, groups), names, UnknownFn(groups), Itself())
  {
    if names == [] {
      PicksNothing(UnknownFn(groups), Itself<string>());
    } else {
      var init, name := names[..|names| - 1], names[|names| - 1];
      assert names == init + [name];
      UnknownPicks(init, groups);
      PicksSnoc(Unknown(init, groups), init, UnknownFn(groups), Itself(), name);
      assert Itself<string>()(name) == name;
      KnownNames(groups, name);
      assert Unknown(names, groups) == Unknown(init, groups) + if UnknownFn(groups)(name) then [name] else [];
    }
  }

  lemma KnownNames(groups: seq<ImportGroup>, name: string)
    ensures name in Names(groups) <==> !UnknownFn(groups)(name)
  {
    if i :| 0 <= i < |groups| && groups[i].name == name {
      assert Names(groups)[i] == name;
    }
  }

  method KnownGroups(groups: seq<ImportGroup>) returns (known: set<string>)
    ensures forall name :: name in known <==> name in Names(groups)
  {
    known := {};
    for i := 0 to |groups|
      invariant forall name :: name in known <==> exists j | 0 <= j < i :: groups[j].name == name
    {
      known := known + {groups[i].name};
    }
    forall name ensures name in known <==> name in Names(groups) {
      if j :| 0 <= j < |groups| && groups[j].name == name {
        assert Names(groups)[j] == name;
      }
    }
  }

  method UnknownBundleGroups(names: seq<string>, groups: seq<ImportGroup>) returns (unknown: seq<string>)
    ensures unknown == Unknown(names, groups)
    ensures Picks(unknown, names, UnknownFn(groups), Itself())
  {
    var known := KnownGroups(groups);
    unknown := [];
    for i := 0 to |names|
      invariant unknown == Unknown(names[..i], groups)
    {
      assert names[..i + 1][..i] == names[..i];
      if names[i] !in known {
        unknown := unknown + [names[i]];
      }
    }
    assert names[..|names|] == names;
    UnknownPicks(names, groups);
  }

  method Preview(k: Codec, zip: seq<ZipEntry>, groups: seq<ImportGroup>) returns (report: Option<PreviewReport>)
    ensures report.Some? <==>
            Passes(k, zip) &&
            forall i | 0 <= i < |groups| :: Valid(Opened(k, zip), groups[i])
    ensures report.Some? ==>
              var vb := Opened(k, zip);
              && report.value == PreviewReport(Previewed(vb, groups), Unknown(GroupNames(vb), groups), Absent(vb, groups))
              && Picks(report.value.unknown, GroupNames(vb), UnknownFn(groups), Itself())
  {
    var r := VerifyBundle(k, zip);
    if r.Err? {
      return None;
    }
    var vb := r.value;
    var found: seq<GroupResult>, absent: seq<string> := [], [];
    for i := 0 to |groups|
      invariant forall j | 0 <= j < i :: Valid(vb, groups[j])
      invariant found == Previewed(vb, groups[..i]) && absent == Absent(vb, groups[..i])
    {
      assert groups[..i + 1][..i] == groups[..i];
      var data := OpenGroup(vb, groups[i].name);
      if data.None? {
        absent := absent + [groups[i].name];
      } else {
        var count := groups[i].validate(data.value);
        if count.None? {
          assert !Valid(vb, groups[i]);
          return None;
        }
        found := found + [GroupResult(groups[i].name, count.value)];
      }
    }
    assert groups[..|groups|] == groups;
    var unknown := UnknownBundleGroups(GroupNames(vb), groups);
    return Some(PreviewReport(found, unknown, absent));
  }

  // ---------------------------------------------------------------- what the two promise together

  /** The preview's reader and the importer agree on what is well formed and how many records it holds. */
  ghost predicate Agrees(g: ImportGroup) {
    forall data ::
      && g.validate(data).Some? == g.decode(data).Some?
      && (g.decode(data).Some? ==> g.validate(data).value == |g.decode(data).value|)
  }

  /** A preview that passes foretells the import: no group will fail, and the counts are the ones shown. */
  lemma {:induction false} PreviewForetells(vb: VerifiedBundle, groups: seq<ImportGroup>)
    requires forall i | 0 <= i < |groups| :: Agrees(groups[i])
    requires forall i | 0 <= i < |groups| :: Valid(vb, groups[i])
    ensures forall i | 0 <= i < |groups| :: Importable(vb, groups[i])
    ensures Imported(vb, groups) == Previewed(vb, groups)
  {
    if groups != [] {
      PreviewForetells(vb, groups[..|groups| - 1]);
      assert Agrees(groups[|groups| - 1]);
    }
  }

  /** Every name a bundle carries is either unknown or a known group's, never both, and every unknown name is carried. */
  lemma CarriedNamesAccounted(vb: VerifiedBundle, groups: seq<ImportGroup>, name: string)
    ensures name in Unknown(GroupNames(vb), groups) <==>
            name in GroupNames(vb) && forall i | 0 <= i < |groups| :: groups[i].name != name
  {
    UnknownPicks(GroupNames(vb), groups);
    PickedMembers(Unknown(GroupNames(vb), groups), GroupNames(vb), UnknownFn(groups), Itself(), name);
    if name in GroupNames(vb) {
      var k :| 0 <= k < |GroupNames(vb)| && GroupNames(vb)[k] == name;
      assert Itself<string>()(GroupNames(vb)[k]) == name;
    }
  }

  /** Every known group is either shown or absent, never both and never lost. */
  lemma {:induction false} PreviewAccounts(vb: VerifiedBundle, groups: seq<ImportGroup>)
    requires forall i | 0 <= i < |groups| :: Valid(vb, groups[i])
    ensures |Previewed(vb, groups)| + |Absent(vb, groups)| == |groups|
    ensures forall i | 0 <= i < |Absent(vb, groups)| :: OpenGroup(vb, Absent(vb, groups)[i]).None?
    ensures forall i | 0 <= i < |Previewed(vb, groups)| :: OpenGroup(vb, Previewed(vb, groups)[i].name).Some?
  {
    if groups != [] {
      PreviewAccounts(vb, groups[..|groups| - 1]);
    }
  }

  /** Tables the bundle does not carry, or no importer names, stay as they were. */
  lemma {:induction false} OmissionIsNotDeletion(tables: Tables, vb: VerifiedBundle, groups: seq<ImportGroup>, name: string)
    requires forall i | 0 <= i < |groups| :: Importable(vb, groups[i])
    requires OpenGroup(vb, name).None? || forall i | 0 <= i < |groups| :: groups[i].name != name
    ensures name in Installed(tables, vb, groups) <==> name in tables
    ensures name in tables ==> Installed(tables, vb, groups)[name] == tables[name]
  {
    if groups != [] {
      OmissionIsNotDeletion(tables, vb, groups[..|groups| - 1], name);
    }
  }

  ghost predicate DistinctImporters(groups: seq<ImportGroup>) {
    forall i, j | 0 <= i < j < |groups| :: groups[i].name != groups[j].name
  }

  lemma {:induction false} InstalledAt(tables: Tables, vb: VerifiedBundle, groups: seq<ImportGroup>, i: nat)
    requires forall j | 0 <= j < |groups| :: Importable(vb, groups[j])
    requires DistinctImporters(groups) && i < |groups| && OpenGroup(vb, groups[i].name).Some?
    ensures groups[i].name in Installed(tables, vb, groups)
    ensures Some(Installed(tables, vb, groups)[groups[i].name]) == groups[i].decode(OpenGroup(vb, groups[i].name).value)
  {
    var init := groups[..|groups| - 1];
    if i < |groups| - 1 {
      assert init[i] == groups[i];
      InstalledAt(tables, vb, init, i);
    }
  }

  /** The exports of `source`'s tables, with an importer for each that reads back what its export wrote. */
  ghost predicate Matching(source: Tables, exports: seq<Group>, importers: seq<ImportGroup>) {
    && DistinctNames(exports) && DistinctImporters(importers)
    && (forall i | 0 <= i < |exports| :: exports[i].name in source && |exports[i].written| <= MAX_ENTRY_BYTES)
    && (forall i, j | 0 <= i < |exports| && 0 <= j < |importers| && exports[i].name == importers[j].name ::
          importers[j].decode(exports[i].written) == Some(source[exports[i].name]))
  }

  /** Each exported table that an importer knows is the source's again, and every other table is the target's. */
  ghost predicate Restores(source: Tables, exports: seq<Group>, importers: seq<ImportGroup>, target: Tables, after: Tables) {
    && (forall j | 0 <= j < |importers| && Carries(exports, importers[j].name) ::
          importers[j].name in source && importers[j].name in after
          && after[importers[j].name] == source[importers[j].name])
    && (forall name | name in target && !(Carries(exports, name) && name in Names(importers)) ::
          name in after && after[name] == target[name])
  }

  /** An importer finds the bytes its export wrote, and reads them. */
  lemma ImporterReads(source: Tables, exports: seq<Group>, importers: seq<ImportGroup>, vb: VerifiedBundle, j: nat)
    requires Matching(source, exports, importers) && j < |importers|
    requires forall i | 0 <= i < |exports| :: OpenGroup(vb, exports[i].name) == Some(exports[i].written)
    requires forall name | !Carries(exports, name) :: OpenGroup(vb, name) == None
    ensures Importable(vb, importers[j])
    ensures Carries(exports, importers[j].name) ==>
              && importers[j].name in source && OpenGroup(vb, importers[j].name).Some?
              && importers[j].decode(OpenGroup(vb, importers[j].name).value) == Some(source[importers[j].name])
  {
    if Carries(exports, importers[j].name) {
      var i :| 0 <= i < |exports| && exports[i].name == importers[j].name;
      assert OpenGroup(vb, exports[i].name) == Some(exports[i].written);
    }
  }

  lemma ApplyingRestores(source: Tables, exports: seq<Group>, importers: seq<ImportGroup>, target: Tables, vb: VerifiedBundle)
    requires Matching(source, exports, importers)
    requires forall i | 0 <= i < |exports| :: OpenGroup(vb, exports[i].name) == Some(exports[i].written)
    requires forall name | !Carries(exports, name) :: OpenGroup(vb, name) == None
    ensures forall j | 0 <= j < |importers| :: Importable(vb, importers[j])
    ensures Restores(source, exports, importers, target, Installed(target, vb, importers))
  {
    forall j | 0 <= j < |importers| ensures Importable(vb, importers[j]) {
      ImporterReads(source, exports, importers, vb, j);
    }
    forall j | 0 <= j < |importers| && Carries(exports, importers[j].name)
      ensures importers[j].name in source && importers[j].name in Installed(target, vb, importers)
      ensures Installed(target, vb, importers)[importers[j].name] == source[importers[j].name]
    {
      ImporterReads(source, exports, importers, vb, j);
      InstalledAt(target, vb, importers, j);
    }
    forall name | name in target && !(Carries(exports, name) && name in Names(importers))
      ensures name in Installed(target, vb, importers) && Installed(target, vb, importers)[name] == target[name]
    {
      assert name !in Names(importers) ==> forall j | 0 <= j < |importers| :: Names(importers)[j] != name;
      assert forall j | 0 <= j < |importers| :: Names(importers)[j] == importers[j].name;
      OmissionIsNotDeletion(target, vb, importers, name);
    }
  }

  /** Exporting tables and applying the bundle anywhere restores them, and no importer fails. */
  lemma ExportThenApplyRestores(k: Codec, bridgeVersion: string, createdAt: string, source: Tables, exports: seq<Group>,
                                importers: seq<ImportGroup>, target: Tables)
    requires Faithful(k) && Matching(source, exports, importers)
    ensures Passes(k, BundleOf(k, bridgeVersion, createdAt, exports))
    ensures var vb := Opened(k, BundleOf(k, bridgeVersion, createdAt, exports));
            && (forall j | 0 <= j < |importers| :: Importable(vb, importers[j]))
            && Restores(source, exports, importers, target, Installed(target, vb, importers))
  {
    RoundTrip(k, bridgeVersion, createdAt, exports);
    ApplyingRestores(source, exports, importers, target, Opened(k, BundleOf(k, bridgeVersion, createdAt, exports)));
  }
}
