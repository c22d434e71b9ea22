/** What a release packet must be like to be sealed and to be accepted (ops/github-release.py), spelled out, and that
    both are one thing: an accepted packet is one that sealing its own inputs would have produced. */
module PacketRules {
  import opened Types
  import opened Packet

  const MIB := 1024 * 1024
  const MANIFEST_PATH: Name := ["packet-integrity.json"]
  const SOURCE_PATH: Name := ["source-manifest.json"]
  const PUBLICATION_PATH: Name := ["publication.json"]

  /** n digits of lower-case hexadecimal. */
  predicate LowerHex(s: string, n: nat) { |s| == n && forall ch :: ch in s ==> ch in "0123456789abcdef" }

  /** A metadata file of at most four mebibytes. */
  predicate Readable(files: Files, name: Name) { name in files && |files[name]| <= 4 * MIB }

  /** No path part climbs or holds a backslash, and the path is not that of a generated journal. */
  predicate JournalFree(path: Name) {
    && (path[0] == "" || path[0][0] != '/')
    && (forall part :: part in path ==> part != ".." && forall ch :: ch in part ==> ch != '\\')
    && path[|path| - 1] != "strategy_v2_research_ledger.jsonl" && path[|path| - 1] != "strategy_v2_verdict_ledger.jsonl"
    && path[|path| - 1] != "strategy_v3_research_ledger.jsonl"
  }

  /** A source manifest that is there can be read and lists journal-free paths. */
  ghost predicate CleanSource(c: Codec, files: Files) {
    SOURCE_PATH in files ==>
      && Readable(files, SOURCE_PATH) && c.source(files[SOURCE_PATH]).Some?
      && c.source(files[SOURCE_PATH]).value.paths.Some?
      && forall p :: p in c.source(files[SOURCE_PATH]).value.paths.value ==> JournalFree(p)
  }

  /** The file states this commit and this source. */
  ghost predicate States(c: Codec, files: Files, name: Name, commit: string, source: string) {
    Readable(files, name) && exists paths :: c.source(files[name]) == Some(Source(Some(commit), Some(source), paths))
  }

  /** The identity is the source manifest's; only a packet without one goes by its publication. */
  ghost predicate Identified(c: Codec, files: Files, commit: string, source: string) {
    if SOURCE_PATH in files then States(c, files, SOURCE_PATH, commit, source)
    else States(c, files, PUBLICATION_PATH, commit, source)
  }

  predicate NamedLikeManifest(name: Name) { name[|name| - 1] == "packet-integrity.json" }

  /** A row with the size and the digest of a permitted file that is not named like the manifest. */
  ghost predicate Describes(c: Codec, files: Files, row: FileRow) {
    && row.path in files && c.permits(row.path) && !NamedLikeManifest(row.path)
    && row.size == |files[row.path]| && row.digest == c.digest(files[row.path])
  }

  /** Every file not named like the manifest has its row, and there are no other rows and no two for one file. */
  ghost predicate DescribesAll(c: Codec, files: Files, rows: seq<FileRow>) {
    && (forall i :: 0 <= i < |rows| ==> Describes(c, files, rows[i]))
    && (forall i, j :: 0 <= i < j < |rows| ==> rows[i].path != rows[j].path)
    && (forall n :: n in files && !NamedLikeManifest(n) ==> exists i :: 0 <= i < |rows| && rows[i].path == n)
  }

  /** At most a thousand rows and eight gibibytes in all. */
  predicate WithinLimits(rows: seq<FileRow>) { |rows| <= 1000 && TotalOf(rows) <= 8 * 1024 * MIB }

  function TotalOf(rows: seq<FileRow>): nat { if rows == [] then 0 else rows[0].size + TotalOf(rows[1..]) }

  ghost predicate ManifestIs(c: Codec, files: Files, m: Manifest) {
    Readable(files, MANIFEST_PATH) && c.decode(files[MANIFEST_PATH]) == Some(m)
  }

  lemma {:induction false} TotalSnoc(rows: seq<FileRow>, row: FileRow)
    ensures TotalOf(rows + [row]) == TotalOf(rows) + row.size
  {
    if rows != [] {
      TotalSnoc(rows[1..], row);
      assert (rows + [row])[1..] == rows[1..] + [row];
    } else {
      assert [row][1..] == [];
    }
  }

  lemma {:induction false} TotalAgrees(rows: seq<FileRow>)
    ensures TotalSize(rows) == TotalOf(rows)
  {
    if rows != [] {
      var n := |rows| - 1;
      TotalAgrees(rows[..n]);
      TotalSnoc(rows[..n], rows[n]);
      assert rows == rows[..n] + [rows[n]];
    }
  }

  lemma SourceAgrees(c: Codec, files: Files)
    ensures SourceClean(c, files) <==> CleanSource(c, files)
  {
    if SOURCE in files {
      var s := ReadSource(c, files, SOURCE);
      if s.Some? && s.value.paths.Some? {
        forall p | p in s.value.paths.value ensures (SafeName(p) && !Journal(p)) <==> JournalFree(p) { PathAgrees(p); }
      }
    }
  }

  lemma PathAgrees(p: Name)
    ensures (SafeName(p) && !Journal(p)) <==> JournalFree(p)
  {
  }

  lemma IdentityAgrees(c: Codec, files: Files, commit: string, source: string)
    ensures StatesIdentity(c, files, commit, source) <==> Identified(c, files, commit, source)
  {
    var name := if SOURCE in files then SOURCE else PUBLICATION;
    var s := ReadSource(c, files, name);
    if s.Some? && s.value.commit == Some(commit) && s.value.source == Some(source) {
      assert c.source(files[name]) == Some(Source(Some(commit), Some(source), s.value.paths));
    }
  }

  lemma RowsAgree(c: Codec, files: Files, rows: seq<FileRow>)
    ensures RowsHold(c, files, rows) && Complete(files, rows) <==> DescribesAll(c, files, rows)
  {
    if RowsHold(c, files, rows) && Complete(files, rows) {
      forall i | 0 <= i < |rows| ensures Describes(c, files, rows[i]) { assert rows[i] in rows; }
      forall n | n in files && !NamedLikeManifest(n) ensures exists i :: 0 <= i < |rows| && rows[i].path == n {
        var row :| row in rows && row.path == n;
      }
    }
    if DescribesAll(c, files, rows) {
      forall row | row in rows ensures RowHolds(c, files, row) && IsInput(row.path) {
        var i :| 0 <= i < |rows| && rows[i] == row;
        assert Describes(c, files, rows[i]);
      }
      forall n | n in files && IsInput(n) ensures exists row :: row in rows && row.path == n {
        var i :| 0 <= i < |rows| && rows[i].path == n;
        assert rows[i] in rows;
      }
    }
  }

  lemma VerifiableAgrees(c: Codec, files: Files, commit: string, source: string, rows: seq<FileRow>)
    ensures Verifiable(c, files, commit, source, rows) <==>
              && CleanSource(c, files) && Identified(c, files, commit, source)
              && DescribesAll(c, files, rows) && WithinLimits(rows)
  {
    SourceAgrees(c, files);
    IdentityAgrees(c, files, commit, source);
    RowsAgree(c, files, rows);
    TotalAgrees(rows);
  }

  /** A packet is accepted if and only if its manifest can be read, bears the identity asked for and describes exactly
      the permitted files beside it within the limits, and its own metadata is clean and states that identity. */
  lemma AcceptedExactly(c: Codec, files: Files, commit: string, source: string)
    ensures Accepts(c, files, commit, source) <==>
              && CleanSource(c, files) && Identified(c, files, commit, source)
              && exists rows :: ManifestIs(c, files, Manifest(commit, source, rows)) &&
                                DescribesAll(c, files, rows) && WithinLimits(rows)
  {
    var m := ReadManifest(c, files);
    if m.Some? {
      VerifiableAgrees(c, files, commit, source, m.value.files);
      assert m.value == Manifest(m.value.commit, m.value.source, m.value.files);
    }
  }

  // ---- sealing

  lemma {:induction false} SizesAgree(c: Codec, files: Files, names: seq<Name>, rows: seq<FileRow>)
    requires RowsFor(c, files, names, rows)
    ensures SizeOf(files, names) == TotalSize(rows)
  {
    if names != [] {
      var n := |names| - 1;
      assert RowsFor(c, files, names[..n], rows[..n]);
      SizesAgree(c, files, names[..n], rows[..n]);
    }
  }

  lemma HexAgrees(s: string, n: nat)
    ensures Hex(s, n) <==> LowerHex(s, n)
  {
    if Hex(s, n) {
      forall ch | ch in s ensures ch in "0123456789abcdef" {
        var i :| 0 <= i < |s| && s[i] == ch;
        Digit(ch);
      }
    }
    if LowerHex(s, n) {
      forall i | 0 <= i < n ensures '0' <= s[i] <= '9' || 'a' <= s[i] <= 'f' {
        assert s[i] in s;
        Digit(s[i]);
      }
    }
  }

  lemma Digit(ch: char)
    ensures ('0' <= ch <= '9' || 'a' <= ch <= 'f') <==> ch in "0123456789abcdef"
  {
    var digits := "0123456789abcdef";
    assert digits[0] == '0' && digits[9] == '9' && digits[10] == 'a' && digits[15] == 'f';
    if '0' <= ch <= '9' { assert digits[ch as int - '0' as int] == ch; }
    if 'a' <= ch <= 'f' { assert digits[10 + ch as int - 'a' as int] == ch; }
  }

  /** A row for every file, in the order of the listing. */
  ghost predicate Seals(c: Codec, files: Files, names: seq<Name>, rows: seq<FileRow>) {
    && |rows| == |names| && DescribesAll(c, files, rows) && (forall i :: 0 <= i < |names| ==> rows[i].path == names[i])
    && forall n :: n in files ==> !NamedLikeManifest(n)
  }

  lemma SealsAgrees(c: Codec, files: Files, names: seq<Name>, rows: seq<FileRow>)
    requires Listing(files, names) && Seals(c, files, names, rows)
    ensures RowsFor(c, files, names, rows)
  {
    forall i | 0 <= i < |names| ensures names[i] in files && rows[i] == RowFor(c, files, names[i]) {
      assert Describes(c, files, rows[i]);
    }
  }

  lemma SealedNamesAcceptable(c: Codec, files: Files, names: seq<Name>, rows: seq<FileRow>)
    requires Listing(files, names) && Seals(c, files, names, rows)
    ensures forall n :: n in files ==> Acceptable(c, n)
  {
    forall n | n in files ensures Acceptable(c, n) {
      var i :| 0 <= i < |rows| && rows[i].path == n;
      assert Describes(c, files, rows[i]);
    }
  }

  lemma AcceptableRowsSeal(c: Codec, files: Files, names: seq<Name>, rows: seq<FileRow>)
    requires Listing(files, names) && RowsFor(c, files, names, rows) && forall n :: n in files ==> Acceptable(c, n)
    ensures Seals(c, files, names, rows)
  {
    forall i | 0 <= i < |rows| ensures Describes(c, files, rows[i]) && rows[i].path == names[i] {
      assert rows[i] == RowFor(c, files, names[i]);
    }
    forall n | n in files ensures exists i :: 0 <= i < |rows| && rows[i].path == n {
      assert n in names;
      var i :| 0 <= i < |names| && names[i] == n;
      assert rows[i].path == n;
    }
  }

  /** These rows make a sealed packet of the files. */
  ghost predicate SealedBy(c: Codec, files: Files, names: seq<Name>, commit: string, source: string,
                           rows: seq<FileRow>) {
    && LowerHex(commit, 40) && LowerHex(source, 64) && CleanSource(c, files) && files != map[]
    && Seals(c, files, names, rows) && WithinLimits(rows)
  }

  lemma FitRows(c: Codec, files: Files, names: seq<Name>, rows: seq<FileRow>)
    requires Listing(files, names) && RowsFor(c, files, names, rows)
    ensures (forall n :: n in files ==> Acceptable(c, n)) <==> Seals(c, files, names, rows)
    ensures |names| == |rows| && SizeOf(files, names) == TotalOf(rows)
  {
    SizesAgree(c, files, names, rows);
    TotalAgrees(rows);
    if forall n :: n in files ==> Acceptable(c, n) { AcceptableRowsSeal(c, files, names, rows); }
    if Seals(c, files, names, rows) { SealedNamesAcceptable(c, files, names, rows); }
  }

  lemma SealableWithRows(c: Codec, files: Files, names: seq<Name>, commit: string, source: string, rows: seq<FileRow>)
    requires Listing(files, names) && RowsFor(c, files, names, rows)
    ensures Sealable(c, files, names, commit, source) <==> SealedBy(c, files, names, commit, source, rows)
  {
    HexAgrees(commit, 40);
    HexAgrees(source, 64);
    SourceAgrees(c, files);
    FitRows(c, files, names, rows);
    assert Fit(c, files) <==> CleanSource(c, files) && Seals(c, files, names, rows);
  }

  function RowsOf(c: Codec, files: Files, names: seq<Name>): seq<FileRow>
    requires forall n :: n in names ==> n in files
  { seq(|names|, i requires 0 <= i < |names| => assert names[i] in names; RowFor(c, files, names[i])) }

  /** A packet is sealed if and only if commit and source are digests, its metadata is clean, it is not empty and
      holds no file named like the manifest, and rows within the limits describe exactly its files. */
  lemma SealedExactly(c: Codec, files: Files, names: seq<Name>, commit: string, source: string)
    requires Listing(files, names)
    ensures Sealable(c, files, names, commit, source) <==>
              exists rows :: SealedBy(c, files, names, commit, source, rows)
  {
    SealableWithRows(c, files, names, commit, source, RowsOf(c, files, names));
    if rows :| SealedBy(c, files, names, commit, source, rows) {
      SealsAgrees(c, files, names, rows);
      SealableWithRows(c, files, names, commit, source, rows);
    }
  }

  /** The packet without the files named like the manifest. */
  function Inputs(files: Files): Files { map n | n in files && !NamedLikeManifest(n) :: files[n] }

  function PathsOf(rows: seq<FileRow>): seq<Name> { seq(|rows|, i requires 0 <= i < |rows| => rows[i].path) }

  lemma InputsDescribed(c: Codec, files: Files, rows: seq<FileRow>)
    ensures DescribesAll(c, files, rows) <==> DescribesAll(c, Inputs(files), rows)
    ensures CleanSource(c, files) <==> CleanSource(c, Inputs(files))
  {
    if DescribesAll(c, files, rows) {
      forall i | 0 <= i < |rows| ensures Describes(c, Inputs(files), rows[i]) { assert Describes(c, files, rows[i]); }
    }
    if DescribesAll(c, Inputs(files), rows) {
      forall i | 0 <= i < |rows| ensures Describes(c, files, rows[i]) { assert Describes(c, Inputs(files), rows[i]); }
    }
    assert !NamedLikeManifest(SOURCE_PATH);
    assert SOURCE_PATH in files <==> SOURCE_PATH in Inputs(files);
  }

  lemma PathsList(c: Codec, files: Files, rows: seq<FileRow>)
    requires DescribesAll(c, files, rows) && forall n :: n in files ==> !NamedLikeManifest(n)
    ensures Listing(files, PathsOf(rows))
  {
    forall n ensures n in PathsOf(rows) <==> n in files {
      if n in files {
        var i :| 0 <= i < |rows| && rows[i].path == n;
        assert PathsOf(rows)[i] == n;
      }
      if n in PathsOf(rows) {
        var i :| 0 <= i < |rows| && PathsOf(rows)[i] == n;
        assert Describes(c, files, rows[i]);
      }
    }
  }

  /** The packet could have come out of sealing its own inputs in the order of its manifest. */
  ghost predicate CouldBeSealed(c: Codec, files: Files, commit: string, source: string, rows: seq<FileRow>) {
    && Listing(Inputs(files), PathsOf(rows)) && Sealable(c, Inputs(files), PathsOf(rows), commit, source)
    && RowsFor(c, Inputs(files), PathsOf(rows), rows)
  }

  lemma CouldBeSealedBy(c: Codec, files: Files, commit: string, source: string, rows: seq<FileRow>)
    ensures CouldBeSealed(c, files, commit, source, rows) <==>
              Listing(Inputs(files), PathsOf(rows)) && SealedBy(c, Inputs(files), PathsOf(rows), commit, source, rows)
  {
    var inputs, names := Inputs(files), PathsOf(rows);
    if Listing(inputs, names) {
      if RowsFor(c, inputs, names, rows) { SealableWithRows(c, inputs, names, commit, source, rows); }
      if Seals(c, inputs, names, rows) { SealsAgrees(c, inputs, names, rows); }
    }
  }

  lemma DescribedCouldBeSealed(c: Codec, files: Files, commit: string, source: string, rows: seq<FileRow>)
    requires LowerHex(commit, 40) && LowerHex(source, 64) && Inputs(files) != map[]
    ensures CleanSource(c, files) && DescribesAll(c, files, rows) && WithinLimits(rows) <==>
              CouldBeSealed(c, files, commit, source, rows)
  {
    InputsDescribed(c, files, rows);
    CouldBeSealedBy(c, files, commit, source, rows);
    if DescribesAll(c, Inputs(files), rows) { PathsList(c, Inputs(files), rows); }
  }

  lemma IdentifiedHasInputs(c: Codec, files: Files, commit: string, source: string)
    requires Identified(c, files, commit, source)
    ensures Inputs(files) != map[]
  {
    assert SOURCE_PATH in files || PUBLICATION_PATH in files;
    assert SOURCE_PATH in Inputs(files) || PUBLICATION_PATH in Inputs(files);
  }

  /** Verification accepts exactly the packets that sealing produces: the manifest is what sealing the packet's own
      inputs writes, in some order of the files, and the packet's metadata states the sealed identity. */
  lemma AcceptedIsSealed(c: Codec, files: Files, commit: string, source: string)
    requires LowerHex(commit, 40) && LowerHex(source, 64)
    ensures Accepts(c, files, commit, source) <==>
              Identified(c, files, commit, source) &&
              exists rows :: ManifestIs(c, files, Manifest(commit, source, rows)) &&
                             CouldBeSealed(c, files, commit, source, rows)
  {
    AcceptedExactly(c, files, commit, source);
    if Identified(c, files, commit, source) {
      IdentifiedHasInputs(c, files, commit, source);
      forall rows { DescribedCouldBeSealed(c, files, commit, source, rows); }
    }
  }

  // ---- the names that releases permit

  predicate EndsIn(s: string, ending: string) { |ending| <= |s| && s[|s| - |ending|..] == ending }

  /** Working directories, credentials and state, wherever they stand in a path. */
  const HIDDEN: set<string> := {
    ".git", ".venv", "node_modules", "__pycache__", ".pytest_cache", "dist", "logs", ".ssh", ".aws", ".codex",
    ".agents", "secrets", "state", "runtime", "backups", "letsencrypt", "certbot-webroot", ".github-credentials"}

  /** Files that never travel, by name or by ending: journals, keys, databases. */
  predicate Sensitive(file: string) {
    || file in {"strategy_v2_research_ledger.jsonl", "strategy_v2_verdict_ledger.jsonl",
                "strategy_v3_research_ledger.jsonl", "credentials.json", ".netrc", "id_rsa", "id_ed25519"}
    || (exists x :: x in [".pem", ".key", ".crt", ".p12", ".pfx", ".db", ".sqlite", ".sqlite3", ".db-wal", ".db-shm",
                          ".db-journal", ".sqlite-wal", ".sqlite-shm"] && EndsIn(file, x))
  }

  predicate Packed(file: string) { exists x :: x in [".tar", ".tar.gz", ".tgz", ".oci"] && EndsIn(file, x) }

  predicate RootImage(path: Name) {
    |path| == 1 &&
    (path[0] == "api.tar" || path[0] == "worker.tar" || path[0] == "api.tar.gz" || path[0] == "worker.tar.gz")
  }

  predicate HiddenPart(part: string) { part in HIDDEN || ".env" <= part || part == ".." || '\\' in part }

  lemma EndingsAgree(file: string)
    ensures Sensitive(file) <==>
              Last([file]) in JOURNALS || file in PRIVATE_NAMES || EndsWithAny(file, DATABASES)
              || EndsWithAny(file, PRIVATE_ENDINGS)
    ensures Packed(file) <==> EndsWithAny(file, ARCHIVES)
  {
    EndingsSplit(file);
    if x :| x in ARCHIVES && EndsWith(file, x) { assert EndsIn(file, x); }
    if x :| x in [".tar", ".tar.gz", ".tgz", ".oci"] && EndsIn(file, x) { assert x in ARCHIVES && EndsWith(file, x); }
  }

  lemma EndingsSplit(file: string)
    ensures (exists x :: x in [".pem", ".key", ".crt", ".p12", ".pfx", ".db", ".sqlite", ".sqlite3", ".db-wal",
                               ".db-shm", ".db-journal", ".sqlite-wal", ".sqlite-shm"] && EndsIn(file, x)) <==>
              EndsWithAny(file, DATABASES) || EndsWithAny(file, PRIVATE_ENDINGS)
  {
    var all := [".pem", ".key", ".crt", ".p12", ".pfx", ".db", ".sqlite", ".sqlite3", ".db-wal", ".db-shm",
                ".db-journal", ".sqlite-wal", ".sqlite-shm"];
    forall x ensures x in all <==> x in DATABASES || x in PRIVATE_ENDINGS {}
    if x :| x in all && EndsIn(file, x) { assert EndsWith(file, x); }
    if x :| x in DATABASES && EndsWith(file, x) { assert x in all && EndsIn(file, x); }
    if x :| x in PRIVATE_ENDINGS && EndsWith(file, x) { assert x in all && EndsIn(file, x); }
  }

  /** A release may hold a file if and only if its path is relative, no part of it is hidden or climbs, and the file is
      neither sensitive nor an archive other than the four images at the root. */
  lemma PermittedExactly(path: Name)
    ensures Permitted(path) <==>
              && (path[0] == "" || path[0][0] != '/') && (forall part :: part in path ==> !HiddenPart(part))
              && !Sensitive(path[|path| - 1]) && (Packed(path[|path| - 1]) ==> RootImage(path))
  {
    EndingsAgree(Last(path));
    PartsAgree(path);
    ImagesAgree(path);
  }

  lemma PartsAgree(path: Name)
    ensures (forall part :: part in path ==> !HiddenPart(part)) <==>
              && (forall part :: part in path ==> part != ".." && '\\' !in part)
              && !(exists part :: part in path && (part in EXCLUDED_PARTS || StartsWith(part, ".env")))
              && !exists part :: part in path && part in PRIVATE_PARTS
  {
    forall part ensures part in HIDDEN <==> part in EXCLUDED_PARTS || part in PRIVATE_PARTS {}
  }

  lemma ImagesAgree(path: Name)
    ensures RootImage(path) <==> path in IMAGES
  {
    if RootImage(path) { assert path == [path[0]]; }
  }
}
