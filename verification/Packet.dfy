/** Sealing and verifying a release packet (ops/github-release.py): a manifest of every file's size and digest is
    written beside the files and checked against them. A result of None stands for an exception. */
module Packet {
  import opened Types

  type Bytes = seq<bv8>
  type Digest = string

  /** The parts of a relative path. */
  type Name = parts: seq<string> | parts != [] witness ["x"]

  type Files = map<Name, Bytes>

  datatype FileRow = FileRow(path: Name, size: nat, digest: Digest)

  datatype Manifest = Manifest(commit: string, source: string, files: seq<FileRow>)

  /** The identity a source manifest or a publication states, and the paths it lists, if it lists any. */
  datatype Source = Source(commit: Option<string>, source: Option<string>, paths: Option<seq<Name>>)

  /** The digest, the text form of the manifest, the reading of both kinds of metadata (None is malformed text), and
      which names a packet may hold: Permitted below is the rule the releases use, but nothing depends on it. */
  datatype Codec = Codec(
    digest: Bytes -> Digest, encode: Manifest -> Bytes, decode: Bytes -> Option<Manifest>,
    source: Bytes -> Option<Source>,
    permits: Name -> bool)

  /** Digests do not collide, and a manifest written is the manifest read. */
  ghost predicate Ideal(c: Codec) {
    (forall x, y :: c.digest(x) == c.digest(y) ==> x == y) && (forall m :: c.decode(c.encode(m)) == Some(m))
  }

  const MANIFEST: string := "packet-integrity.json"
  const AT_ROOT: Name := [MANIFEST]
  const SOURCE: Name := ["source-manifest.json"]
  const PUBLICATION: Name := ["publication.json"]
  const METADATA_LIMIT := 4 * 1024 * 1024
  const TOTAL_LIMIT := 8 * 1024 * 1024 * 1024
  const MAX_FILES := 1000

  // ---- names

  function Last(name: Name): string { name[|name| - 1] }

  predicate EndsWith(s: string, suffix: string) { |s| >= |suffix| && s[|s| - |suffix|..] == suffix }

  predicate StartsWith(s: string, prefix: string) { prefix <= s }

  predicate EndsWithAny(s: string, suffixes: seq<string>) { exists x :: x in suffixes && EndsWith(s, x) }

  predicate SafeName(name: Name) {
    !StartsWith(name[0], "/") && forall part :: part in name ==> part != ".." && '\\' !in part
  }

  const JOURNALS: set<string> := {
    "strategy_v2_research_ledger.jsonl", "strategy_v2_verdict_ledger.jsonl", "strategy_v3_research_ledger.jsonl"}
  const EXCLUDED_PARTS: set<string> := {".git", ".venv", "node_modules", "__pycache__", ".pytest_cache", "dist", "logs"}
  const DATABASES: seq<string> := [".db", ".sqlite", ".sqlite3", ".db-wal", ".db-shm", ".sqlite-wal", ".sqlite-shm"]
  const PRIVATE_PARTS: set<string> := {
    ".ssh", ".aws", ".codex", ".agents", "secrets", "state", "runtime", "backups", "letsencrypt", "certbot-webroot",
    ".github-credentials"}
  const PRIVATE_NAMES: set<string> := {"credentials.json", ".netrc", "id_rsa", "id_ed25519"}
  const PRIVATE_ENDINGS: seq<string> := [".pem", ".key", ".crt", ".p12", ".pfx", ".db-journal"]
  const ARCHIVES: seq<string> := [".tar", ".tar.gz", ".tgz", ".oci"]
  const IMAGES: set<Name> := {["api.tar"], ["worker.tar"], ["api.tar.gz"], ["worker.tar.gz"]}

  predicate Journal(name: Name) { Last(name) in JOURNALS }

  predicate Excluded(name: Name) {
    || Journal(name)
    || (exists part :: part in name && (part in EXCLUDED_PARTS || StartsWith(part, ".env")))
    || EndsWithAny(Last(name), DATABASES)
  }

  predicate Private(name: Name) {
    || Excluded(name)
    || (exists part :: part in name && part in PRIVATE_PARTS)
    || Last(name) in PRIVATE_NAMES
    || EndsWithAny(Last(name), PRIVATE_ENDINGS)
  }

  predicate Denied(name: Name, allowExports: bool) {
    Private(name) || (EndsWithAny(Last(name), ARCHIVES) && !(allowExports && name in IMAGES))
  }

  /** What a packet may hold: safe paths that are not private, where the exported images are allowed at the root. */
  predicate Permitted(name: Name) { SafeName(name) && !Denied(name, true) }

  /** Allowing image exports admits the four images at the root of a packet and nothing else. */
  lemma ExportsAdmitImagesOnly(name: Name)
    ensures Denied(name, false) && !Denied(name, true) <==> name in IMAGES
    ensures Denied(name, true) ==> Denied(name, false)
  {
    if name in IMAGES { ImageIsAdmitted(name[0]); }
  }

  lemma EndLetter(s: string, suffix: string)
    requires s != "" && suffix != ""
    ensures EndsWith(s, suffix) ==> s[|s| - 1] == suffix[|suffix| - 1]
  {
    if EndsWith(s, suffix) { assert s[|s| - |suffix|..][|suffix| - 1] == s[|s| - 1]; }
  }

  lemma EndsOtherwise(s: string, suffixes: seq<string>)
    requires s != "" && forall x :: x in suffixes ==> x != "" && x[|x| - 1] != s[|s| - 1]
    ensures !EndsWithAny(s, suffixes)
  {
    forall x | x in suffixes ensures !EndsWith(s, x) { EndLetter(s, x); }
  }

  predicate ImageLetters(image: string) { image != "" && image[0] in {'a', 'w'} && image[|image| - 1] in {'r', 'z'} }

  lemma ImageNamesDiffer(image: string)
    requires ImageLetters(image)
    ensures image !in JOURNALS && image !in EXCLUDED_PARTS && !StartsWith(image, ".env")
  {
  }

  lemma ImagePartsDiffer(image: string)
    requires ImageLetters(image)
    ensures image !in PRIVATE_PARTS && image !in PRIVATE_NAMES
  {
  }

  lemma ImageIsNoDatabase(image: string)
    requires ImageLetters(image)
    ensures !EndsWithAny(image, DATABASES)
  {
    EndsOtherwise(image, DATABASES);
  }

  lemma ImageEndsOtherwise(image: string)
    requires ImageLetters(image)
    ensures !EndsWithAny(image, PRIVATE_ENDINGS)
  {
    EndsOtherwise(image, PRIVATE_ENDINGS);
  }

  /** Neither the first nor the last letter of an image's name is one of a private name's. */
  lemma ImageIsNotPrivate(image: string)
    requires ImageLetters(image)
    ensures !Private([image])
  {
    ImageNamesDiffer(image);
    ImagePartsDiffer(image);
    ImageIsNoDatabase(image);
    ImageEndsOtherwise(image);
  }

  lemma ImageIsAdmitted(image: string)
    requires [image] in IMAGES
    ensures Denied([image], false) && !Denied([image], true)
  {
    ImageIsNotPrivate(image);
    assert ARCHIVES[0] in ARCHIVES && ARCHIVES[1] in ARCHIVES;
    assert EndsWith(image, ARCHIVES[0]) || EndsWith(image, ARCHIVES[1]);
  }

  predicate Hex(s: string, n: nat) {
    |s| == n && forall i :: 0 <= i < n ==> '0' <= s[i] <= '9' || 'a' <= s[i] <= 'f'
  }

  // ---- metadata

  /** A metadata file: present and not larger than the limit. */
  function ReadBounded(files: Files, name: Name): Option<Bytes> {
    if name in files && |files[name]| <= METADATA_LIMIT then Some(files[name]) else None
  }

  function ReadSource(c: Codec, files: Files, name: Name): Option<Source> {
    var text := ReadBounded(files, name);
    if text.None? then None else c.source(text.value)
  }

  predicate NoJournals(s: Source) { s.paths.Some? && forall p :: p in s.paths.value ==> SafeName(p) && !Journal(p) }

  /** The source manifest, if there is one, can be read and lists no generated journal. */
  predicate SourceClean(c: Codec, files: Files) {
    SOURCE in files ==> var s := ReadSource(c, files, SOURCE); s.Some? && NoJournals(s.value)
  }

  /** The source manifest, or else the publication, states this identity. */
  predicate StatesIdentity(c: Codec, files: Files, commit: string, source: string) {
    var s := ReadSource(c, files, if SOURCE in files then SOURCE else PUBLICATION);
    s.Some? && s.value.commit == Some(commit) && s.value.source == Some(source)
  }

  // ---- sealing

  predicate IsInput(name: Name) { Last(name) != MANIFEST }

  predicate Acceptable(c: Codec, name: Name) { c.permits(name) && IsInput(name) }

  /** The names are the paths of the files, each once. */
  ghost predicate Listing(files: Files, names: seq<Name>) {
    (forall n :: n in names <==> n in files) && forall i, j :: 0 <= i < j < |names| ==> names[i] != names[j]
  }

  function RowFor(c: Codec, files: Files, name: Name): FileRow
    requires name in files
  { FileRow(name, |files[name]|, c.digest(files[name])) }

  function TotalSize(rows: seq<FileRow>): nat {
    if rows == [] then 0 else TotalSize(rows[..|rows| - 1]) + rows[|rows| - 1].size
  }

  /** One row per file, in the order of the listing. */
  ghost predicate RowsFor(c: Codec, files: Files, names: seq<Name>, rows: seq<FileRow>) {
    |rows| == |names| && forall i :: 0 <= i < |names| ==> names[i] in files && rows[i] == RowFor(c, files, names[i])
  }

  /** Its metadata is clean and it holds nothing but acceptable names. */
  ghost predicate Fit(c: Codec, files: Files) {
    SourceClean(c, files) && forall n :: n in files ==> Acceptable(c, n)
  }

  /** What a packet must be like to be sealed. */
  ghost predicate Sealable(c: Codec, files: Files, names: seq<Name>, commit: string, source: string) {
    && Hex(commit, 40) && Hex(source, 64) && Fit(c, files)
    && files != map[] && |names| <= MAX_FILES && SizeOf(files, names) <= TOTAL_LIMIT
  }

  ghost predicate IsSealed(c: Codec, files: Files, names: seq<Name>, commit: string, source: string, sealed: Files) {
    exists rows :: RowsFor(c, files, names, rows) && TotalSize(rows) <= TOTAL_LIMIT && |rows| <= MAX_FILES &&
      sealed == files[AT_ROOT := c.encode(Manifest(commit, source, rows))]
  }

  method SealPacket(c: Codec, files: Files, names: seq<Name>, commit: string, source: string) returns (r: Option<Files>)
    requires Listing(files, names)
    ensures r.Some? <==> Sealable(c, files, names, commit, source)
    ensures r.Some? ==> IsSealed(c, files, names, commit, source, r.value)
  {
    if !Hex(commit, 40) || !Hex(source, 64) { return None; }
    if !SourceClean(c, files) { return None; }
    var rows := ListRows(c, files, names);
    if rows.None? || rows.value == [] { return None; }
    if |rows.value| > MAX_FILES || TotalSize(rows.value) > TOTAL_LIMIT { return None; }
    assert names[0] in names;
    return Some(files[AT_ROOT := c.encode(Manifest(commit, source, rows.value))]);
  }

  /** A row for every file, unless one may not be in a packet. */
  method ListRows(c: Codec, files: Files, names: seq<Name>) returns (r: Option<seq<FileRow>>)
    requires Listing(files, names)
    ensures r.Some? <==> forall n :: n in files ==> Acceptable(c, n)
    ensures r.Some? ==> RowsFor(c, files, names, r.value) && TotalSize(r.value) == SizeOf(files, names)
  {
    var rows: seq<FileRow> := [];
    for i := 0 to |names|
      invariant |rows| == i
      invariant forall j :: 0 <= j < i ==> Acceptable(c, names[j]) && rows[j] == RowFor(c, files, names[j])
      invariant TotalSize(rows) == SizeOf(files, names[..i])
    {
      var name := names[i];
      assert name in names && names[..i + 1][..i] == names[..i];
      if !c.permits(name) || Last(name) == MANIFEST { return None; }
      assert (rows + [RowFor(c, files, name)])[..i] == rows;
      rows := rows + [RowFor(c, files, name)];
    }
    assert names[..|names|] == names;
    return Some(rows);
  }

  function SizeOf(files: Files, names: seq<Name>): nat {
    if names == [] then 0 else
      var n := names[|names| - 1];
      SizeOf(files, names[..|names| - 1]) + if n in files then |files[n]| else 0
  }

  // ---- verifying

  /** The row's file is there, is allowed, and has the size and digest of the row. */
  predicate RowHolds(c: Codec, files: Files, row: FileRow) {
    c.permits(row.path) && row.path in files && row == RowFor(c, files, row.path)
  }

  ghost predicate RowsHold(c: Codec, files: Files, rows: seq<FileRow>) {
    && (forall row :: row in rows ==> RowHolds(c, files, row))
    && (forall i, j :: 0 <= i < j < |rows| ==> rows[i].path != rows[j].path)
  }

  /** Exactly the input files have a row. */
  ghost predicate Complete(files: Files, rows: seq<FileRow>) {
    forall n :: (n in files && IsInput(n)) <==> exists row :: row in rows && row.path == n
  }

  ghost predicate Verifiable(c: Codec, files: Files, commit: string, source: string, rows: seq<FileRow>) {
    && |rows| <= MAX_FILES && RowsHold(c, files, rows) && TotalSize(rows) <= TOTAL_LIMIT && Complete(files, rows)
    && SourceClean(c, files) && StatesIdentity(c, files, commit, source)
  }

  function ReadManifest(c: Codec, files: Files): Option<Manifest> {
    var text := ReadBounded(files, AT_ROOT);
    if text.None? then None else c.decode(text.value)
  }

  ghost predicate Accepts(c: Codec, files: Files, commit: string, source: string) {
    var m := ReadManifest(c, files);
    m.Some? && m.value.commit == commit && m.value.source == source
    && Verifiable(c, files, commit, source, m.value.files)
  }

  lemma {:induction false} TotalGrows(rows: seq<FileRow>, i: nat)
    requires i <= |rows|
    ensures TotalSize(rows[..i]) <= TotalSize(rows)
    decreases |rows| - i
  {
    if i == |rows| {
      assert rows[..i] == rows;
    } else {
      assert rows[..i + 1][..i] == rows[..i];
      TotalGrows(rows, i + 1);
    }
  }

  lemma RowsHoldNext(c: Codec, files: Files, rows: seq<FileRow>, i: nat)
    requires i < |rows|
    ensures RowsHold(c, files, rows[..i + 1]) <==>
              RowsHold(c, files, rows[..i]) && RowHolds(c, files, rows[i]) &&
              forall row :: row in rows[..i] ==> row.path != rows[i].path
  {
    var before, now := rows[..i], rows[..i + 1];
    assert now == before + [rows[i]];
    if RowsHold(c, files, now) {
      assert now[i] in now;
      forall j, k | 0 <= j < k < i ensures before[j].path != before[k].path { assert now[j].path != now[k].path; }
      forall row | row in before ensures row.path != rows[i].path {
        var j :| 0 <= j < i && before[j] == row;
        assert now[j].path != now[i].path;
      }
    }
  }

  lemma {:induction false} RowsHoldUpTo(c: Codec, files: Files, rows: seq<FileRow>, i: nat)
    requires i <= |rows| && RowsHold(c, files, rows)
    ensures RowsHold(c, files, rows[..i])
    decreases |rows| - i
  {
    if i == |rows| {
      assert rows[..i] == rows;
    } else {
      RowsHoldUpTo(c, files, rows, i + 1);
      RowsHoldNext(c, files, rows, i);
    }
  }

  method CheckRows(c: Codec, files: Files, rows: seq<FileRow>) returns (ok: bool, seen: set<Name>)
    ensures ok <==> RowsHold(c, files, rows) && TotalSize(rows) <= TOTAL_LIMIT
    ensures ok ==> seen == set row | row in rows :: row.path
  {
    seen := {};
    var total := 0;
    for i := 0 to |rows|
      invariant RowsHold(c, files, rows[..i]) && total == TotalSize(rows[..i]) <= TOTAL_LIMIT
      invariant seen == set row | row in rows[..i] :: row.path
    {
      var row := rows[i];
      assert rows[..i + 1] == rows[..i] + [row] && rows[..i + 1][..i] == rows[..i];
      TotalGrows(rows, i + 1);
      RowsHoldNext(c, files, rows, i);
      if RowsHold(c, files, rows) { RowsHoldUpTo(c, files, rows, i + 1); }
      if row.path in seen || row.path !in files || !c.permits(row.path) { return false, seen; }
      total := total + |files[row.path]|;
      if total > TOTAL_LIMIT || |files[row.path]| != row.size || c.digest(files[row.path]) != row.digest {
        return false, seen;
      }
      seen := seen + {row.path};
    }
    assert rows[..|rows|] == rows;
    return true, seen;
  }

  lemma SeenIsComplete(files: Files, rows: seq<FileRow>, actual: set<Name>, seen: set<Name>)
    requires actual == set n | n in files && IsInput(n)
    requires seen == set row | row in rows :: row.path
    ensures actual == seen <==> Complete(files, rows)
  {
    forall n ensures n in seen <==> exists row :: row in rows && row.path == n {}
    forall n ensures n in actual <==> n in files && IsInput(n) {}
    if Complete(files, rows) {
      assert actual == seen;
    }
  }

  method VerifyPacket(c: Codec, files: Files, commit: string, source: string) returns (r: Option<nat>)
    ensures r.Some? <==> Accepts(c, files, commit, source)
    ensures r.Some? ==> r.value == |ReadManifest(c, files).value.files|
  {
    var m := ReadManifest(c, files);
    if m.None? || m.value.commit != commit || m.value.source != source { return None; }
    var rows := m.value.files;
    if |rows| > MAX_FILES { return None; }
    var ok, seen := CheckRows(c, files, rows);
    if !ok { return None; }
    var actual := set n | n in files && IsInput(n);
    SeenIsComplete(files, rows, actual, seen);
    if actual != seen { return None; }
    if !StatesIdentity(c, files, commit, source) || !SourceClean(c, files) { return None; }
    return Some(|rows|);
  }

  // ---- what was sealed is what is verified

  /** Apart from files named like the manifest, nothing was added, removed or changed. */
  ghost predicate SameInputs(files: Files, now: Files) {
    forall n :: IsInput(n) ==> (n in files <==> n in now) && (n in files ==> now[n] == files[n])
  }

  lemma SameInputsSameSource(c: Codec, files: Files, now: Files, commit: string, source: string)
    requires SameInputs(files, now)
    ensures SourceClean(c, files) <==> SourceClean(c, now)
    ensures StatesIdentity(c, files, commit, source) <==> StatesIdentity(c, now, commit, source)
  {
    assert IsInput(SOURCE) && IsInput(PUBLICATION);
  }

  /** All that sealing checks about the files and lists in the manifest. */
  ghost predicate Sealed(c: Codec, files: Files, names: seq<Name>, rows: seq<FileRow>) {
    && Listing(files, names) && RowsFor(c, files, names, rows) && (forall n :: n in files ==> Acceptable(c, n))
    && TotalSize(rows) <= TOTAL_LIMIT && |rows| <= MAX_FILES
  }

  lemma UnchangedHolds(c: Codec, files: Files, names: seq<Name>, rows: seq<FileRow>, now: Files)
    requires Sealed(c, files, names, rows) && SameInputs(files, now)
    ensures RowsHold(c, now, rows) && Complete(now, rows)
  {
    forall row | row in rows ensures RowHolds(c, now, row) {
      var i :| 0 <= i < |rows| && rows[i] == row;
      assert Acceptable(c, names[i]);
    }
    forall n ensures (n in now && IsInput(n)) <==> exists row :: row in rows && row.path == n {
      if n in now && IsInput(n) {
        assert n in names;
        var i :| 0 <= i < |names| && names[i] == n;
        assert rows[i] in rows && rows[i].path == n;
      }
      if row :| row in rows && row.path == n {
        var i :| 0 <= i < |rows| && rows[i] == row;
        assert Acceptable(c, names[i]);
      }
    }
  }

  lemma HoldsUnchanged(c: Codec, files: Files, names: seq<Name>, rows: seq<FileRow>, now: Files)
    requires Ideal(c) && Sealed(c, files, names, rows) && RowsHold(c, now, rows) && Complete(now, rows)
    ensures SameInputs(files, now)
  {
    forall n | IsInput(n) ensures (n in files <==> n in now) && (n in files ==> now[n] == files[n]) {
      if n in files {
        assert n in names;
        var i :| 0 <= i < |names| && names[i] == n;
        assert rows[i] in rows;
        assert RowHolds(c, now, rows[i]);
        assert c.digest(now[n]) == c.digest(files[n]);
      }
      if n in now {
        var row :| row in rows && row.path == n;
        var i :| 0 <= i < |rows| && rows[i] == row;
        assert names[i] in names;
      }
    }
  }

  /** After sealing, with the manifest left as it was written: verification accepts if and only if no file other than
      ones named like the manifest was added, removed or changed, the manifest is not larger than metadata may be, and
      the packet's own source manifest, or else its publication, states the sealed identity. */
  lemma SealThenVerify(c: Codec, files: Files, names: seq<Name>, commit: string, source: string, sealed: Files,
                       now: Files)
    requires Ideal(c) && Listing(files, names) && Fit(c, files)
    requires IsSealed(c, files, names, commit, source, sealed)
    requires AT_ROOT in now && now[AT_ROOT] == sealed[AT_ROOT]
    ensures Accepts(c, now, commit, source) <==>
              SameInputs(files, now) && |sealed[AT_ROOT]| <= METADATA_LIMIT && StatesIdentity(c, files, commit, source)
  {
    var rows :| RowsFor(c, files, names, rows) && TotalSize(rows) <= TOTAL_LIMIT && |rows| <= MAX_FILES &&
      sealed == files[AT_ROOT := c.encode(Manifest(commit, source, rows))];
    SealedThenVerify(c, files, names, rows, commit, source, now);
  }

  lemma SealedThenVerify(c: Codec, files: Files, names: seq<Name>, rows: seq<FileRow>, commit: string,
                         source: string, now: Files)
    requires Ideal(c) && Sealed(c, files, names, rows) && SourceClean(c, files)
    requires AT_ROOT in now && now[AT_ROOT] == c.encode(Manifest(commit, source, rows))
    ensures Accepts(c, now, commit, source) <==>
              SameInputs(files, now) && |now[AT_ROOT]| <= METADATA_LIMIT && StatesIdentity(c, files, commit, source)
  {
    ManifestReadBack(c, now, Manifest(commit, source, rows));
    if SameInputs(files, now) {
      UnchangedHolds(c, files, names, rows, now);
      SameInputsSameSource(c, files, now, commit, source);
    }
    if Accepts(c, now, commit, source) {
      HoldsUnchanged(c, files, names, rows, now);
      SameInputsSameSource(c, files, now, commit, source);
    }
  }

  lemma ManifestReadBack(c: Codec, now: Files, m: Manifest)
    requires Ideal(c) && AT_ROOT in now && now[AT_ROOT] == c.encode(m)
    ensures ReadManifest(c, now) == if |now[AT_ROOT]| <= METADATA_LIMIT then Some(m) else None
  {
    assert c.decode(c.encode(m)) == Some(m);
  }

  lemma SealChangesNoInput(c: Codec, files: Files, names: seq<Name>, commit: string, source: string, sealed: Files)
    requires IsSealed(c, files, names, commit, source, sealed)
    ensures SameInputs(files, sealed) && AT_ROOT in sealed
  {
    assert !IsInput(AT_ROOT);
  }

  /** In particular a packet verified right after it was sealed is accepted unless its manifest has outgrown what
      verification will read, or its metadata states another identity. */
  lemma FreshSealVerifies(c: Codec, files: Files, names: seq<Name>, commit: string, source: string, sealed: Files)
    requires Ideal(c) && Listing(files, names) && Fit(c, files)
    requires IsSealed(c, files, names, commit, source, sealed)
    ensures Accepts(c, sealed, commit, source) <==>
              |sealed[AT_ROOT]| <= METADATA_LIMIT && StatesIdentity(c, files, commit, source)
  {
    SealThenVerify(c, files, names, commit, source, sealed, sealed);
    SealChangesNoInput(c, files, names, commit, source, sealed);
  }

  // ---- a manifest too large to be read

  /** The length of the path as text, its parts joined by slashes. */
  function PathSize(name: seq<string>): int {
    if name == [] then -1 else PathSize(name[..|name| - 1]) + 1 + |name[|name| - 1]|
  }

  /** What the indented text of one row takes beside its path: keys, layout and the 64 digits of its digest. */
  const ROW_TEXT := 132

  function TextSize(rows: seq<FileRow>): int {
    if rows == [] then 0 else TextSize(rows[..|rows| - 1]) + PathSize(rows[|rows| - 1].path) + ROW_TEXT
  }

  /** The text of a manifest spells out all of its rows. */
  ghost predicate Spells(c: Codec) { forall m :: |c.encode(m)| >= TextSize(m.files) }

  /** Of 254 letters, the first of which is given. */
  function LongPart(first: char): string { [first] + seq(253, _ => 'a') }

  const LONG: nat := 999

  /** A path of 16 parts; no two of these paths begin with the same letter. */
  function LongName(i: nat): Name
    requires i < LONG
  { [LongPart((97 + i) as char)] + seq(15, _ => LongPart('a')) }

  function LongNames(): seq<Name> { seq(LONG, i requires 0 <= i < LONG => LongName(i)) }

  /** 999 empty files under long paths, and the publication. */
  function LongFiles(publication: Bytes): Files { (map n | n in LongNames() :: [])[PUBLICATION := publication] }

  function AllNames(): seq<Name> { LongNames() + [PUBLICATION] }

  predicate Plain(part: string) { |part| == 254 && part[0] >= 'a' && part[253] == 'a' && '\\' !in part }

  lemma LongPartIsPlain(first: char)
    requires first >= 'a'
    ensures Plain(LongPart(first))
  {
  }

  lemma PlainIsNotListed(part: string)
    requires Plain(part)
    ensures part !in JOURNALS && part !in EXCLUDED_PARTS && part !in PRIVATE_PARTS && part !in PRIVATE_NAMES
    ensures part != MANIFEST && part != SOURCE[0] && part != ".." && !StartsWith(part, ".env") && !StartsWith(part, "/")
  {
  }

  lemma PlainIsNoDatabase(part: string)
    requires Plain(part)
    ensures !EndsWithAny(part, DATABASES)
  {
    EndsOtherwise(part, DATABASES);
  }

  lemma PlainIsNoKey(part: string)
    requires Plain(part)
    ensures !EndsWithAny(part, PRIVATE_ENDINGS)
  {
    EndsOtherwise(part, PRIVATE_ENDINGS);
  }

  lemma PlainIsNoArchive(part: string)
    requires Plain(part)
    ensures !EndsWithAny(part, ARCHIVES)
  {
    EndsOtherwise(part, ARCHIVES);
  }

  lemma PlainIsPermitted(name: Name)
    requires forall part :: part in name ==> Plain(part)
    ensures Permitted(name) && IsInput(name) && name != SOURCE
  {
    forall part | part in name { PlainIsNotListed(part); }
    assert name[0] in name && Last(name) in name;
    PlainIsNoDatabase(Last(name));
    PlainIsNoKey(Last(name));
    PlainIsNoArchive(Last(name));
  }

  lemma PublicationIsNotListed(part: string)
    requires part == "publication.json"
    ensures part !in JOURNALS && part !in EXCLUDED_PARTS && part !in PRIVATE_PARTS && part !in PRIVATE_NAMES
    ensures part != MANIFEST && part != SOURCE[0] && part != ".." && !StartsWith(part, ".env") && !StartsWith(part, "/")
  {
    assert part[0] == 'p' && part[15] == 'n';
  }

  lemma PublicationIsPermitted()
    ensures Permitted(PUBLICATION) && IsInput(PUBLICATION) && PUBLICATION != SOURCE
  {
    var part := PUBLICATION[0];
    PublicationIsNotListed(part);
    assert !EndsWithAny(part, DATABASES) by { EndsOtherwise(part, DATABASES); }
    assert !EndsWithAny(part, PRIVATE_ENDINGS) by { EndsOtherwise(part, PRIVATE_ENDINGS); }
    assert !EndsWithAny(part, ARCHIVES) by { EndsOtherwise(part, ARCHIVES); }
  }

  lemma LongNameIsPlain(i: nat)
    requires i < LONG
    ensures |LongName(i)| == 16 && forall part :: part in LongName(i) ==> Plain(part)
  {
    LongPartIsPlain((97 + i) as char);
    LongPartIsPlain('a');
    forall part | part in LongName(i) ensures Plain(part) {
      var k :| 0 <= k < |LongName(i)| && LongName(i)[k] == part;
      assert k > 0 ==> part == LongPart('a');
    }
  }

  lemma {:induction false} PlainPathSize(name: seq<string>)
    requires forall part :: part in name ==> Plain(part)
    ensures PathSize(name) == 255 * |name| - 1
  {
    if name != [] {
      PlainPathSize(name[..|name| - 1]);
      assert name[|name| - 1] in name;
    }
  }

  lemma LongNamesDiffer(i: nat, j: nat)
    requires i < j < LONG
    ensures LongName(i) != LongName(j)
  {
    assert LongName(i)[0][0] != LongName(j)[0][0];
  }

  lemma AllNamesListed(publication: Bytes)
    ensures Listing(LongFiles(publication), AllNames())
  {
    var names := AllNames();
    forall i, j | 0 <= i < j < |names| ensures names[i] != names[j] {
      if j < LONG { LongNamesDiffer(i, j); } else { LongNameIsPlain(i); }
    }
  }

  lemma {:induction false} EmptyFilesSize(files: Files, names: seq<Name>)
    requires forall n :: n in names && n in files ==> files[n] == []
    ensures SizeOf(files, names) == 0
  {
    if names != [] { EmptyFilesSize(files, names[..|names| - 1]); }
  }

  lemma {:induction false} LongRowsSize(rows: seq<FileRow>)
    requires forall row :: row in rows ==> PathSize(row.path) == 4079
    ensures TextSize(rows) == 4211 * |rows|
  {
    if rows != [] { LongRowsSize(rows[..|rows| - 1]); }
  }

  lemma LongManifestSize(c: Codec, files: Files, rows: seq<FileRow>)
    requires RowsFor(c, files, AllNames(), rows)
    ensures TextSize(rows) > METADATA_LIMIT
  {
    var long := rows[..LONG];
    forall row | row in long ensures PathSize(row.path) == 4079 {
      var i :| 0 <= i < LONG && rows[i] == row;
      assert row.path == AllNames()[i] == LongName(i);
      LongNameIsPlain(i);
      PlainPathSize(LongName(i));
    }
    LongRowsSize(long);
    assert |rows| == LONG + 1 && rows[LONG].path == PUBLICATION;
    assert PathSize(PUBLICATION) == 16 by { assert PUBLICATION[..0] == []; }
  }

  lemma LongFilesAreFit(c: Codec, publication: Bytes)
    requires forall n :: Permitted(n) ==> c.permits(n)
    ensures Fit(c, LongFiles(publication))
  {
    PublicationIsPermitted();
    forall n | n in LongFiles(publication) ensures Acceptable(c, n) && n != SOURCE {
      if n in LongNames() {
        var i :| 0 <= i < LONG && LongNames()[i] == n;
        LongNameIsPlain(i);
        PlainIsPermitted(n);
      }
    }
  }

  lemma LongFilesAreSmall(publication: Bytes)
    ensures SizeOf(LongFiles(publication), AllNames()) == |publication|
  {
    PublicationIsPermitted();
    forall n | n in LongNames() ensures n != PUBLICATION {
      var i :| 0 <= i < LONG && LongNames()[i] == n;
      LongNameIsPlain(i);
    }
    EmptyFilesSize(LongFiles(publication), LongNames());
    assert AllNames()[..LONG] == LongNames();
  }

  lemma LongSealIsLarge(c: Codec, files: Files, commit: string, source: string, sealed: Files)
    requires Spells(c) && IsSealed(c, files, AllNames(), commit, source, sealed)
    ensures AT_ROOT in sealed && |sealed[AT_ROOT]| > METADATA_LIMIT && !Accepts(c, sealed, commit, source)
  {
    var rows :| RowsFor(c, files, AllNames(), rows) && TotalSize(rows) <= TOTAL_LIMIT && |rows| <= MAX_FILES &&
      sealed == files[AT_ROOT := c.encode(Manifest(commit, source, rows))];
    LongManifestSize(c, files, rows);
    assert |c.encode(Manifest(commit, source, rows))| >= TextSize(rows);
  }

  /** A packet that is sealed and never accepted, for its size alone: 999 empty files under long paths and a publication
      that states the identity, under any codec that writes out its rows and permits what releases permit. */
  lemma OversizedManifestIsSealed(c: Codec, commit: string, source: string, publication: Bytes)
    requires Spells(c) && (forall n :: Permitted(n) ==> c.permits(n)) && Hex(commit, 40) && Hex(source, 64)
    requires |publication| <= METADATA_LIMIT && c.source(publication) == Some(Source(Some(commit), Some(source), None))
    ensures var files, names := LongFiles(publication), AllNames();
            && Listing(files, names) && Sealable(c, files, names, commit, source)
            && StatesIdentity(c, files, commit, source)
            && forall sealed :: IsSealed(c, files, names, commit, source, sealed) ==>
                 AT_ROOT in sealed && |sealed[AT_ROOT]| > METADATA_LIMIT && !Accepts(c, sealed, commit, source)
  {
    var files, names := LongFiles(publication), AllNames();
    AllNamesListed(publication);
    LongFilesAreFit(c, publication);
    LongFilesAreSmall(publication);
    assert PUBLICATION in files && SOURCE !in files;
    forall sealed | IsSealed(c, files, names, commit, source, sealed)
      ensures AT_ROOT in sealed && |sealed[AT_ROOT]| > METADATA_LIMIT && !Accepts(c, sealed, commit, source)
    {
      LongSealIsLarge(c, files, commit, source, sealed);
    }
  }
}
