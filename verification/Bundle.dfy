/** Writing, verifying and opening a backup bundle (internal/backup/export.go, bundle.go, verify.go). The archive is
    the sequence of its entries; the digest and the manifest's encoding are parameters. */
module Bundle {
  import opened Basics
  import opened BundleFormat

  const SUPPORTED_FORMAT_VERSION: int := 1
  const MAX_ENTRY_BYTES: nat := 536_870_912
  const MANIFEST := "manifest.json"

  datatype Manifest = Manifest(
    formatVersion: int, bridgeVersion: string, createdAt: string, contexts: seq<ContextEntry>, bundleChecksum: string)

  datatype ZipEntry = ZipEntry(path: string, data: string)

  datatype Codec = Codec(sha: string -> string, encode: Manifest -> string, decode: string -> Option<Manifest>)

  /** Digests are hexadecimal, and a manifest survives its encoding. */
  ghost predicate Faithful(k: Codec) {
    Digests(k.sha) && forall m :: k.decode(k.encode(m)) == Some(m)
  }

  datatype BundleError = MissingManifest | BadManifest | UnsupportedFormatVersion | ChecksumMismatch | EntryTooLarge

  function DataPath(name: string): string {
    "data/" + name + ".jsonl"
  }

  function ComputeBundleChecksum(k: Codec, contexts: seq<ContextEntry>): string {
    k.sha(Printed(contexts))
  }

  function NewManifest(k: Codec, bridgeVersion: string, createdAt: string, contexts: seq<ContextEntry>): Manifest {
    Manifest(SUPPORTED_FORMAT_VERSION, bridgeVersion, createdAt, contexts, ComputeBundleChecksum(k, contexts))
  }

  // ---------------------------------------------------------------- export

  /** A table group: what its export writes, the count it reports, and whether it then fails. */
  datatype Group = Group(name: string, written: string, count: int, fails: bool)

  function Contexts(k: Codec, groups: seq<Group>): (contexts: seq<ContextEntry>)
    ensures |contexts| == |groups|
  {
    seq(|groups|, i requires 0 <= i < |groups| => ContextEntry(groups[i].name, groups[i].count, k.sha(groups[i].written)))
  }

  function DataEntries(groups: seq<Group>): (entries: seq<ZipEntry>)
    ensures |entries| == |groups|
  {
    seq(|groups|, i requires 0 <= i < |groups| => ZipEntry(DataPath(groups[i].name), groups[i].written))
  }

  /** The bundle of groups that all export: their data in order, then the manifest. */
  function BundleOf(k: Codec, bridgeVersion: string, createdAt: string, groups: seq<Group>): seq<ZipEntry> {
    DataEntries(groups) + [ZipEntry(MANIFEST, k.encode(NewManifest(k, bridgeVersion, createdAt, Contexts(k, groups))))]
  }

  class BundleWriter {
    var entries: seq<ZipEntry>

    constructor ()
      ensures entries == []
    {
      entries := [];
    }

    /** One data entry; the sum is of the bytes that reached the archive. */
    method CreateDataEntry(k: Codec, name: string, written: string) returns (sum: string)
      modifies this
      ensures entries == old(entries) + [ZipEntry(DataPath(name), written)] && sum == k.sha(written)
    {
      entries := entries + [ZipEntry(DataPath(name), written)];
      sum := k.sha(written);
    }

    method WriteManifest(k: Codec, m: Manifest)
      modifies this
      ensures entries == old(entries) + [ZipEntry(MANIFEST, k.encode(m))]
    {
      entries := entries + [ZipEntry(MANIFEST, k.encode(m))];
    }
  }

  /** The manifest is written only after every group: at the first failure the archive holds data and no manifest. */
  method Export(k: Codec, bridgeVersion: string, createdAt: string, groups: seq<Group>) returns (zip: seq<ZipEntry>, failed: Option<nat>)
    ensures failed.None? <==> forall i | 0 <= i < |groups| :: !groups[i].fails
    ensures failed.None? ==> zip == BundleOf(k, bridgeVersion, createdAt, groups)
    ensures failed.Some? ==>
              && failed.value < |groups| && groups[failed.value].fails
              && (forall i | 0 <= i < failed.value :: !groups[i].fails)
              && zip == DataEntries(groups[..failed.value + 1])
  {
    var bw := new BundleWriter();
    var contexts: seq<ContextEntry> := [];
    for i := 0 to |groups|
      invariant bw.entries == DataEntries(groups[..i]) && contexts == Contexts(k, groups[..i])
      invariant forall j | 0 <= j < i :: !groups[j].fails
    {
      var sum := bw.CreateDataEntry(k, groups[i].name, groups[i].written);
      assert bw.entries == DataEntries(groups[..i + 1]);
      if groups[i].fails {
        return bw.entries, Some(i);
      }
      contexts := contexts + [ContextEntry(groups[i].name, groups[i].count, sum)];
    }
    assert groups[..|groups|] == groups;
    bw.WriteManifest(k, NewManifest(k, bridgeVersion, createdAt, contexts));
    return bw.entries, None;
  }

  // ---------------------------------------------------------------- verify

  /** readManifestFromZip: the first entry of that name decides. */
  function ReadManifest(k: Codec, zip: seq<ZipEntry>): Result<Manifest, BundleError> {
    if zip == [] then Err(MissingManifest)
    else if zip[0].path == MANIFEST then
      match k.decode(zip[0].data)
      case None => Err(BadManifest)
      case Some(m) => Ok(m)
    else ReadManifest(k, zip[1..])
  }

  /** Entry `i` is the first manifest of the archive. */
  ghost predicate FirstManifest(zip: seq<ZipEntry>, i: nat) {
    i < |zip| && zip[i].path == "manifest.json" && forall j | 0 <= j < i :: zip[j].path != "manifest.json"
  }

  lemma {:induction false} ManifestIsFirst(k: Codec, zip: seq<ZipEntry>, i: nat)
    requires FirstManifest(zip, i)
    ensures ReadManifest(k, zip) == match k.decode(zip[i].data) case None => Err(BadManifest) case Some(m) => Ok(m)
  {
    if i > 0 {
      assert zip[0].path != MANIFEST;
      assert forall j | 0 <= j < |zip| - 1 :: zip[1..][j] == zip[j + 1];
      ManifestIsFirst(k, zip[1..], i - 1);
    }
  }

  method ReadManifestFromZip(k: Codec, zip: seq<ZipEntry>) returns (r: Result<Manifest, BundleError>)
    ensures r == ReadManifest(k, zip)
  {
    for i := 0 to |zip|
      invariant ReadManifest(k, zip) == ReadManifest(k, zip[i..])
    {
      assert zip[i..][1..] == zip[i + 1..];
      if zip[i].path == MANIFEST {
        var m := k.decode(zip[i].data);
        return if m.Some? then Ok(m.value) else Err(BadManifest);
      }
    }
    return Err(MissingManifest);
  }

  /** The lookup over the archive: of several entries of one name the last is found. */
  function Index(zip: seq<ZipEntry>): map<string, string> {
    if zip == [] then map[]
    else var last := zip[|zip| - 1]; Index(zip[..|zip| - 1])[last.path := last.data]
  }

  lemma {:induction false} IndexFindsLast(zip: seq<ZipEntry>, path: string)
    ensures path in Index(zip) <==> exists i | 0 <= i < |zip| :: zip[i].path == path
    ensures forall i | 0 <= i < |zip| && zip[i].path == path && (forall j | i < j < |zip| :: zip[j].path != path) ::
              path in Index(zip) && Index(zip)[path] == zip[i].data
  {
    if zip != [] {
      var init := zip[..|zip| - 1];
      IndexFindsLast(init, path);
      assert forall i | 0 <= i < |init| :: init[i] == zip[i];
      if path in Index(zip) && zip[|zip| - 1].path != path {
        var i :| 0 <= i < |init| && init[i].path == path;
        assert zip[i].path == path;
      }
    }
  }

  method IndexZipEntries(zip: seq<ZipEntry>) returns (entries: map<string, string>)
    ensures entries == Index(zip)
  {
    entries := map[];
    for i := 0 to |zip|
      invariant entries == Index(zip[..i])
    {
      assert zip[..i + 1][..i] == zip[..i];
      entries := entries[zip[i].path := zip[i].data];
    }
    assert zip[..|zip|] == zip;
  }

  /** What a manifest says of a group is true of the archive. */
  predicate Holds(k: Codec, c: ContextEntry, entries: map<string, string>) {
    && DataPath(c.name) in entries
    && |entries[DataPath(c.name)]| <= MAX_ENTRY_BYTES
    && k.sha(entries[DataPath(c.name)]) == c.sha256
  }

  predicate TooLarge(c: ContextEntry, entries: map<string, string>) {
    DataPath(c.name) in entries && |entries[DataPath(c.name)]| > MAX_ENTRY_BYTES
  }

  ghost predicate AllHold(k: Codec, contexts: seq<ContextEntry>, entries: map<string, string>) {
    forall i | 0 <= i < |contexts| :: Holds(k, contexts[i], entries)
  }

  method VerifyContextChecksums(k: Codec, contexts: seq<ContextEntry>, entries: map<string, string>) returns (error: Option<BundleError>)
    ensures error.None? <==> AllHold(k, contexts, entries)
    ensures error.Some? ==>
              exists i | 0 <= i < |contexts| ::
                && !Holds(k, contexts[i], entries) && AllHold(k, contexts[..i], entries)
                && error.value == if TooLarge(contexts[i], entries) then EntryTooLarge else ChecksumMismatch
  {
    for i := 0 to |contexts|
      invariant AllHold(k, contexts[..i], entries)
    {
      var path := DataPath(contexts[i].name);
      if path !in entries {
        return Some(ChecksumMismatch);
      }
      if |entries[path]| > MAX_ENTRY_BYTES {
        return Some(EntryTooLarge);
      }
      if k.sha(entries[path]) != contexts[i].sha256 {
        return Some(ChecksumMismatch);
      }
    }
    assert contexts[..|contexts|] == contexts;
    return None;
  }

  datatype VerifiedBundle = VerifiedBundle(manifest: Manifest, entries: map<string, string>)

  /** What VerifyBundle hands back when it is satisfied. */
  function Opened(k: Codec, zip: seq<ZipEntry>): VerifiedBundle
    requires ReadManifest(k, zip).Ok?
  {
    VerifiedBundle(ReadManifest(k, zip).value, Index(zip))
  }

  /** The bundle passes: a readable manifest of a known version, whose every digest and whose checksum are right. */
  ghost predicate Passes(k: Codec, zip: seq<ZipEntry>) {
    var r := ReadManifest(k, zip);
    && r.Ok?
    && r.value.formatVersion <= SUPPORTED_FORMAT_VERSION
    && AllHold(k, r.value.contexts, Index(zip))
    && ComputeBundleChecksum(k, r.value.contexts) == r.value.bundleChecksum
  }

  method VerifyBundle(k: Codec, zip: seq<ZipEntry>) returns (r: Result<VerifiedBundle, BundleError>)
    ensures r.Ok? <==> Passes(k, zip)
    ensures r.Ok? ==> r.value == Opened(k, zip)
    ensures ReadManifest(k, zip).Err? ==> r == Err(ReadManifest(k, zip).error)
    ensures r == Err(UnsupportedFormatVersion) <==>
            ReadManifest(k, zip).Ok? && ReadManifest(k, zip).value.formatVersion > SUPPORTED_FORMAT_VERSION
  {
    ManifestErrors(k, zip);
    var read := ReadManifestFromZip(k, zip);
    if read.Err? {
      return Err(read.error);
    }
    var m := read.value;
    if m.formatVersion > SUPPORTED_FORMAT_VERSION {
      return Err(UnsupportedFormatVersion);
    }
    var entries := IndexZipEntries(zip);
    var error := VerifyContextChecksums(k, m.contexts, entries);
    if error.Some? {
      return Err(error.value);
    }
    if ComputeBundleChecksum(k, m.contexts) != m.bundleChecksum {
      return Err(ChecksumMismatch);
    }
    return Ok(VerifiedBundle(m, entries));
  }

  lemma {:induction false} ManifestErrors(k: Codec, zip: seq<ZipEntry>)
    ensures ReadManifest(k, zip).Err? ==> ReadManifest(k, zip).error in {MissingManifest, BadManifest}
    ensures ReadManifest(k, zip) == Err(MissingManifest) <==> forall i | 0 <= i < |zip| :: zip[i].path != MANIFEST
  {
    if zip != [] {
      ManifestErrors(k, zip[1..]);
      assert forall i | 0 < i < |zip| :: zip[i] == zip[1..][i - 1];
    }
  }

  /** OpenGroup: the group's bytes, bounded, if the archive has them. */
  function OpenGroup(vb: VerifiedBundle, name: string): Option<string> {
    if DataPath(name) !in vb.entries then None
    else var data := vb.entries[DataPath(name)]; Some(data[..Min(|data|, MAX_ENTRY_BYTES)])
  }

  function GroupNames(vb: VerifiedBundle): (names: seq<string>)
    ensures |names| == |vb.manifest.contexts|
  {
    seq(|vb.manifest.contexts|, i requires 0 <= i < |vb.manifest.contexts| => vb.manifest.contexts[i].name)
  }

  // ---------------------------------------------------------------- what was exported is what is read

  lemma DataPathInjective(a: string, b: string)
    requires DataPath(a) == DataPath(b)
    ensures a == b
  {
    assert DataPath(a)[5..|DataPath(a)| - 6] == a;
    assert DataPath(b)[5..|DataPath(b)| - 6] == b;
  }

  lemma NotManifest(name: string)
    ensures DataPath(name) != MANIFEST
  {
    assert DataPath(name)[0] == 'd';
  }

  /** An export that failed left no bundle. */
  lemma FailedExportIsNoBundle(k: Codec, groups: seq<Group>)
    ensures ReadManifest(k, DataEntries(groups)) == Err(MissingManifest)
  {
    forall i | 0 <= i < |groups| ensures DataEntries(groups)[i].path != MANIFEST {
      NotManifest(groups[i].name);
    }
    ManifestErrors(k, DataEntries(groups));
  }

  lemma {:induction false} ManifestAfterData(k: Codec, groups: seq<Group>, manifest: ZipEntry)
    requires manifest.path == MANIFEST
    ensures ReadManifest(k, DataEntries(groups) + [manifest]) == ReadManifest(k, [manifest])
  {
    var zip := DataEntries(groups) + [manifest];
    if groups == [] {
      assert zip == [manifest];
    } else {
      NotManifest(groups[0].name);
      assert zip[1..] == DataEntries(groups[1..]) + [manifest];
      ManifestAfterData(k, groups[1..], manifest);
    }
  }

  ghost predicate Carries(groups: seq<Group>, name: string) {
    exists i | 0 <= i < |groups| :: groups[i].name == name
  }

  /** Of several groups of one name, the bytes of the last are the ones found again. */
  function Stored(groups: seq<Group>, name: string): string {
    if groups == [] then ""
    else var last := groups[|groups| - 1];
      if last.name == name then last.written else Stored(groups[..|groups| - 1], name)
  }

  lemma {:induction false} IndexFindsStored(groups: seq<Group>, name: string)
    ensures DataPath(name) in Index(DataEntries(groups)) <==> Carries(groups, name)
    ensures Carries(groups, name) ==> Index(DataEntries(groups))[DataPath(name)] == Stored(groups, name)
  {
    if groups != [] {
      var init, last := groups[..|groups| - 1], groups[|groups| - 1];
      assert DataEntries(groups)[..|groups| - 1] == DataEntries(init);
      IndexFindsStored(init, name);
      if DataPath(last.name) == DataPath(name) {
        DataPathInjective(last.name, name);
      }
      assert last.name != name ==> (Carries(groups, name) <==> Carries(init, name));
    }
  }

  lemma IndexOfBundle(k: Codec, bridgeVersion: string, createdAt: string, groups: seq<Group>, name: string)
    ensures var entries := Index(BundleOf(k, bridgeVersion, createdAt, groups));
            && (DataPath(name) in entries <==> Carries(groups, name))
            && (Carries(groups, name) ==> entries[DataPath(name)] == Stored(groups, name))
  {
    var zip := BundleOf(k, bridgeVersion, createdAt, groups);
    assert zip[..|zip| - 1] == DataEntries(groups);
    IndexFindsStored(groups, name);
    NotManifest(name);
  }

  /** An export verifies exactly when every group's stored bytes fit the limit and, for a name used twice, digest
      alike. */
  lemma ExportVerifiesExactly(k: Codec, bridgeVersion: string, createdAt: string, groups: seq<Group>)
    requires Faithful(k)
    ensures var zip := BundleOf(k, bridgeVersion, createdAt, groups);
            && ReadManifest(k, zip) == Ok(NewManifest(k, bridgeVersion, createdAt, Contexts(k, groups)))
            && (Passes(k, zip) <==>
                forall i | 0 <= i < |groups| ::
                  var stored := Stored(groups, groups[i].name);
                  |stored| <= MAX_ENTRY_BYTES && k.sha(stored) == k.sha(groups[i].written))
  {
    var zip := BundleOf(k, bridgeVersion, createdAt, groups);
    ManifestAfterData(k, groups, zip[|groups|]);
    assert zip == DataEntries(groups) + [zip[|groups|]];
    forall i | 0 <= i < |groups|
      ensures var stored := Stored(groups, groups[i].name);
              Holds(k, Contexts(k, groups)[i], Index(zip)) <==>
              |stored| <= MAX_ENTRY_BYTES && k.sha(stored) == k.sha(groups[i].written)
    {
      IndexOfBundle(k, bridgeVersion, createdAt, groups, groups[i].name);
      assert Carries(groups, groups[i].name);
    }
  }

  /** The manifest of an export says of every group its name, the count it reported and the digest of what it wrote. */
  lemma ManifestTells(k: Codec, bridgeVersion: string, createdAt: string, groups: seq<Group>)
    requires Faithful(k)
    ensures var r := ReadManifest(k, BundleOf(k, bridgeVersion, createdAt, groups));
            && r.Ok? && r.value.bridgeVersion == bridgeVersion && r.value.createdAt == createdAt
            && |r.value.contexts| == |groups|
            && forall i | 0 <= i < |groups| ::
                 r.value.contexts[i] == ContextEntry(groups[i].name, groups[i].count, k.sha(groups[i].written))
  {
    ExportVerifiesExactly(k, bridgeVersion, createdAt, groups);
  }

  ghost predicate DistinctNames(groups: seq<Group>) {
    forall i, j | 0 <= i < j < |groups| :: groups[i].name != groups[j].name
  }

  lemma {:induction false} StoredOfDistinct(groups: seq<Group>, i: nat)
    requires DistinctNames(groups) && i < |groups|
    ensures Stored(groups, groups[i].name) == groups[i].written
  {
    if i < |groups| - 1 {
      StoredOfDistinct(groups[..|groups| - 1], i);
    }
  }

  /** With distinct names an export verifies when every group fits, and each group then opens to the bytes its
      export wrote. */
  lemma RoundTrip(k: Codec, bridgeVersion: string, createdAt: string, groups: seq<Group>)
    requires Faithful(k) && DistinctNames(groups)
    ensures var zip := BundleOf(k, bridgeVersion, createdAt, groups);
            && (Passes(k, zip) <==> forall i | 0 <= i < |groups| :: |groups[i].written| <= MAX_ENTRY_BYTES)
            && (Passes(k, zip) ==>
                  var vb := Opened(k, zip);
                  && (forall i | 0 <= i < |groups| :: OpenGroup(vb, groups[i].name) == Some(groups[i].written))
                  && (forall name | !Carries(groups, name) :: OpenGroup(vb, name) == None))
  {
    var zip := BundleOf(k, bridgeVersion, createdAt, groups);
    ExportVerifiesExactly(k, bridgeVersion, createdAt, groups);
    forall i | 0 <= i < |groups| ensures Stored(groups, groups[i].name) == groups[i].written {
      StoredOfDistinct(groups, i);
    }
    if Passes(k, zip) {
      var vb := Opened(k, zip);
      forall i | 0 <= i < |groups| ensures OpenGroup(vb, groups[i].name) == Some(groups[i].written) {
        IndexOfBundle(k, bridgeVersion, createdAt, groups, groups[i].name);
        assert Carries(groups, groups[i].name);
        assert groups[i].written[..|groups[i].written|] == groups[i].written;
      }
      forall name | !Carries(groups, name) ensures OpenGroup(vb, name) == None {
        IndexOfBundle(k, bridgeVersion, createdAt, groups, name);
      }
    }
  }

  // ---------------------------------------------------------------- what a checksum pins down

  ghost predicate Collides(sha: string -> string, x: string, y: string) {
    x != y && sha(x) == sha(y)
  }

  /** Two verified bundles with one checksum list the same groups and hold the same bytes for each of them, unless
      the digest has collided. A manifest with a forging name can be exchanged for the list it forges (ForgedIsRead). */
  lemma ChecksumPinsContents(k: Codec, zip1: seq<ZipEntry>, zip2: seq<ZipEntry>)
    requires Digests(k.sha) && Passes(k, zip1) && Passes(k, zip2)
    requires Unforged(ReadManifest(k, zip1).value.contexts) && Unforged(ReadManifest(k, zip2).value.contexts)
    requires ReadManifest(k, zip1).value.bundleChecksum == ReadManifest(k, zip2).value.bundleChecksum
    ensures var c1, c2 := ReadManifest(k, zip1).value.contexts, ReadManifest(k, zip2).value.contexts;
            || Collides(k.sha, Printed(c1), Printed(c2))
            || (c1 == c2 && forall i | 0 <= i < |c1| ::
                  var path := DataPath(c1[i].name);
                  && path in Index(zip1) && path in Index(zip2)
                  && (Index(zip1)[path] == Index(zip2)[path] || Collides(k.sha, Index(zip1)[path], Index(zip2)[path])))
  {
    var c1, c2 := ReadManifest(k, zip1).value.contexts, ReadManifest(k, zip2).value.contexts;
    if Printed(c1) == Printed(c2) {
      VerifiedAreHex(k, c1, Index(zip1));
      VerifiedAreHex(k, c2, Index(zip2));
      PrintedInjective(c1, c2);
      assert forall i | 0 <= i < |c1| :: Holds(k, c1[i], Index(zip1)) && Holds(k, c1[i], Index(zip2));
    }
  }

  lemma VerifiedAreHex(k: Codec, contexts: seq<ContextEntry>, entries: map<string, string>)
    requires Digests(k.sha) && AllHold(k, contexts, entries)
    ensures HexDigests(contexts)
  {
    forall i | 0 <= i < |contexts| ensures IsHex(contexts[i].sha256) {
      assert Holds(k, contexts[i], entries);
    }
  }
}
