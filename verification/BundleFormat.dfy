/** The bundle on disk: the manifest that `Export` writes and the checks of `ValidateBundle`. */
module BundleFormat {
  import opened Prelude

  const MAX_ARTIFACTS := 64
  const MAX_JSON_BYTES := 1024 * 1024
  const MAX_COPIED_IQ_BYTES := 64 * 1024 * 1024
  const MAX_REFERENCED_IQ_BYTES := 512 * 1024 * 1024
  const MAX_RETAINED_BYTES := 512 * 1024 * 1024
  const MAX_COMPONENT_BYTES := 64
  const MAX_BUNDLES := 32
  const UINT64_MAX := 0xFFFF_FFFF_FFFF_FFFF

  /** A directory entry; `Other` is any name that is not one of the fixed ones. */
  datatype FileName =
    | ManifestFile | DigestFile | Truth | Observation | Comparison | ReceiverConfig | ReceiverResult
    | SigMfMeta | Provenance | Actions | BuildApi | IqData | IqReference | Other(text: string)

  datatype Class =
    | GeneratorTruth | ReceiverObservation | OfflineEvaluation | ReceiverInput | ReceiverOutput | SignalMetadata
    | ProvenanceRecord | OperatorActions | BuildApiManifest | RawIq | ExternalIqReference | OtherClass

  datatype Schema = Pinned(of: FileName) | Binary | OtherSchema

  datatype Format = Cf32 | Cf64 | OtherFormat

  datatype Mode = Copy | Reference | OtherMode

  datatype Entry = Entry(path: FileName, schema: Schema, json: bool, class_: Class, receiverVisible: bool,
                         replayUse: bool, bytes: nat, sha256: Bytes, sha512: Bytes)

  /** Where the bundle comes from; `expected` is the digest that a replay must reproduce. */
  datatype Identity = Identity(createdAt: string, job: string, request: string, epoch: nat, scenario: string,
                               expected: Bytes)

  datatype Manifest = Manifest(bundle: string, version: nat, artifacts: seq<Entry>, mode: Mode, selfContained: bool,
                               format: Format, iqBytes: nat, sampleCount: nat, iqSha256: Bytes, iqSha512: Bytes,
                               identity: Identity)

  datatype Locator = Locator(root: string, job: string, file: string, bytes: nat, sha256: Bytes, sha512: Bytes,
                             device: nat, inode: nat)

  /** A recording in the job directory, outside the bundle. */
  datatype Recording = Recording(content: Bytes, device: nat, inode: nat)

  type Files = map<FileName, Bytes>
  type Recordings = map<(string, string), Recording>

  /** Hash functions and JSON, as this format uses them. `canonical` is the canonical rendering of a
      JSON text, `sigmf` the metadata check, `clean` the absence of generator truth in a receiver
      graph. `wrap` puts a graph into a receiver configuration with its revision and tag, and `graph`
      takes it out. `semantic` is the digest of what a receiver result means; `report` renders a
      result with that digest, `declared` and `computed` are the digest such a document carries and
      the one its content has. */
  datatype Codec = Codec(sha256: Bytes -> Bytes, sha512: Bytes -> Bytes, json: Bytes -> bool, canonical: Bytes -> Bytes,
                         sigmf: (Bytes, nat, Bytes) -> bool, clean: Bytes -> bool,
                         wrap: (nat, string, Bytes) -> Bytes, graph: Bytes -> Option<Bytes>,
                         semantic: Bytes -> Bytes, report: Bytes -> Bytes,
                         declared: Bytes -> Bytes, computed: Bytes -> Bytes,
                         dump: Manifest -> Bytes, parse: Bytes -> Option<Manifest>,
                         dumpLocator: Locator -> Bytes, parseLocator: Bytes -> Option<Locator>)

  function NameLength(n: FileName): nat { if n.Other? then |n.text| else 32 }

  /** The variable text of an artifact entry. */
  function EntryText(e: Entry): nat {
    |e.sha256| + |e.sha512| + NameLength(e.path) + if e.schema.Pinned? then NameLength(e.schema.of) else 0
  }

  function EntriesText(entries: seq<Entry>): nat {
    if entries == [] then 0 else EntriesText(entries[..|entries| - 1]) + 1024 + 6 * EntryText(entries[|entries| - 1])
  }

  function ManifestText(m: Manifest): nat {
    |m.bundle| + |m.iqSha256| + |m.iqSha512| + |m.identity.createdAt| + |m.identity.job| + |m.identity.request|
    + |m.identity.scenario| + |m.identity.expected|
  }

  predicate Numbers64(m: Manifest) {
    && m.version <= UINT64_MAX && m.iqBytes <= UINT64_MAX && m.sampleCount <= UINT64_MAX && m.identity.epoch <= UINT64_MAX
    && forall e <- m.artifacts :: e.bytes <= UINT64_MAX
  }

  /** Hex digests have their fixed lengths, JSON that was dumped parses back, and a dumped manifest
      is no longer than its keys and numbers plus its text, each character taking at most six bytes;
      rendering a document again keeps what it says. */
  ghost predicate Lawful(codec: Codec) {
    && (forall b: Bytes :: |codec.sha256(b)| == 64 && |codec.sha512(b)| == 128)
    && (forall b: Bytes :: |codec.semantic(b)| == 64 && codec.json(codec.report(b)))
    && (forall b: Bytes :: codec.declared(codec.report(b)) == codec.semantic(b) == codec.computed(codec.report(b)))
    && (forall b: Bytes :: codec.json(codec.canonical(b)) && (codec.clean(codec.canonical(b)) <==> codec.clean(b)))
    && (forall b: Bytes, n: nat, d: Bytes :: codec.sigmf(codec.canonical(b), n, d) <==> codec.sigmf(b, n, d))
    && (forall v: nat, tag: string, b: Bytes ::
          codec.json(codec.wrap(v, tag, b)) && codec.graph(codec.wrap(v, tag, b)) == Some(codec.canonical(b)))
    && (forall m: Manifest :: codec.parse(codec.dump(m)) == Some(m))
    && (forall m: Manifest :: Numbers64(m) ==> |codec.dump(m)| <= 4096 + 6 * ManifestText(m) + EntriesText(m.artifacts))
    && (forall p: Locator :: codec.parseLocator(codec.dumpLocator(p)) == Some(p) && codec.json(codec.dumpLocator(p)))
  }

  // ---- Vocabulary shared by the writer and the checker ------------------------------------------------

  predicate SafeComponent(text: string) {
    && 0 < |text| <= MAX_COMPONENT_BYTES && text != "." && text != ".."
    && forall c <- text :: 'a' <= c <= 'z' || 'A' <= c <= 'Z' || '0' <= c <= '9' || c == '-' || c == '_' || c == '.'
  }

  predicate SafeName(n: FileName) { n.Other? ==> SafeComponent(n.text) }

  function ArtifactSchema(n: FileName): Schema {
    if n.Other? || n.ManifestFile? || n.DigestFile? || n.IqData? then Binary else Pinned(n)
  }

  function Stride(f: Format): nat {
    match f case Cf32 => 8 case Cf64 => 16 case OtherFormat => 0
  }

  predicate ReceiverVisible(c: Class) { c.ReceiverInput? || c.RawIq? }

  predicate Describes(codec: Codec, e: Entry, content: Bytes) {
    e.bytes == |content| && e.sha256 == codec.sha256(content) && e.sha512 == codec.sha512(content)
  }

  function Total(entries: seq<Entry>): nat {
    if entries == [] then 0 else Total(entries[..|entries| - 1]) + entries[|entries| - 1].bytes
  }

  function Paths(entries: seq<Entry>): set<FileName> { set e <- entries :: e.path }

  function ClassOf(n: FileName): Class {
    match n
    case Truth => GeneratorTruth
    case Observation => ReceiverObservation
    case Comparison => OfflineEvaluation
    case ReceiverConfig => ReceiverInput
    case ReceiverResult => ReceiverOutput
    case SigMfMeta => SignalMetadata
    case Provenance => ProvenanceRecord
    case Actions => OperatorActions
    case BuildApi => BuildApiManifest
    case IqData => RawIq
    case IqReference => ExternalIqReference
    case _ => OtherClass
  }

  /** The artifacts a bundle must hold, beside the manifest and its digest. */
  function Required(mode: Mode): set<FileName> {
    {Truth, Observation, Comparison, ReceiverConfig, ReceiverResult, SigMfMeta, Provenance, Actions, BuildApi,
     if mode.Copy? then IqData else IqReference}
  }

  // ---- What ValidateBundle accepts ---------------------------------------------------------------------

  ghost predicate ManifestOk(codec: Codec, bundle: string, files: Files) {
    && ManifestFile in files && |files[ManifestFile]| <= MAX_JSON_BYTES
    && codec.parse(files[ManifestFile]).Some?
    && (var m := codec.parse(files[ManifestFile]).value;
        && codec.dump(m) == files[ManifestFile]
        && m.bundle == bundle && m.version == 1 && |m.artifacts| <= MAX_ARTIFACTS)
    && DigestFile in files && |files[DigestFile]| <= 129
    && files[DigestFile] == codec.sha256(files[ManifestFile]) + [10]
  }

  ghost predicate EntryOk(codec: Codec, files: Files, e: Entry) {
    && SafeName(e.path) && e.schema == ArtifactSchema(e.path)
    && e.receiverVisible == ReceiverVisible(e.class_) && e.replayUse == ReceiverVisible(e.class_)
    && e.bytes <= MAX_RETAINED_BYTES
    && e.path in files && Describes(codec, e, files[e.path])
    && (e.json ==> |files[e.path]| <= MAX_JSON_BYTES && codec.json(files[e.path]))
  }

  ghost predicate Distinct(entries: seq<Entry>) {
    && (forall i, j :: 0 <= i < j < |entries| ==> entries[i].path != entries[j].path)
    && (forall e <- entries :: !e.path.ManifestFile? && !e.path.DigestFile?)
  }

  ghost predicate ArtifactsOk(codec: Codec, files: Files, entries: seq<Entry>, manifestBytes: nat) {
    && Distinct(entries) && (forall e <- entries :: EntryOk(codec, files, e))
    && manifestBytes + 65 + Total(entries) <= MAX_RETAINED_BYTES
  }

  ghost predicate InventoryOk(files: Files, m: Manifest) {
    && files.Keys == Paths(m.artifacts) + {ManifestFile, DigestFile}
    && !m.mode.OtherMode? && m.selfContained == m.mode.Copy?
    && Paths(m.artifacts) == Required(m.mode)
  }

  ghost predicate SamplesOk(m: Manifest) {
    Stride(m.format) != 0 && m.iqBytes % Stride(m.format) == 0 && m.sampleCount == m.iqBytes / Stride(m.format)
  }

  ghost predicate MatchesIq(codec: Codec, m: Manifest, iq: Bytes) {
    m.iqBytes == |iq| && m.iqSha256 == codec.sha256(iq) && m.iqSha512 == codec.sha512(iq)
  }

  ghost predicate IqOk(codec: Codec, files: Files, outside: Recordings, m: Manifest) {
    if m.mode.Copy? then
      IqData in files && |files[IqData]| <= MAX_COPIED_IQ_BYTES && MatchesIq(codec, m, files[IqData])
    else
      && IqReference in files && codec.parseLocator(files[IqReference]).Some?
      && (var p := codec.parseLocator(files[IqReference]).value;
          && p.root == "fhss-jobs" && SafeComponent(p.job) && SafeComponent(p.file) && (p.job, p.file) in outside
          && (var r := outside[(p.job, p.file)];
              && |r.content| <= MAX_REFERENCED_IQ_BYTES && MatchesIq(codec, m, r.content)
              && p.bytes == |r.content| && p.sha256 == codec.sha256(r.content) && p.sha512 == codec.sha512(r.content)
              && p.device == r.device && p.inode == r.inode))
  }

  /** The metadata, isolation and semantic-digest checks on three of the documents. */
  ghost predicate DocumentsOk(codec: Codec, files: Files, m: Manifest) {
    && SigMfMeta in files && ReceiverConfig in files && ReceiverResult in files
    && codec.sigmf(files[SigMfMeta], m.iqBytes, m.iqSha512)
    && codec.graph(files[ReceiverConfig]).Some? && codec.clean(codec.graph(files[ReceiverConfig]).value)
    && |m.identity.expected| == 64 && codec.declared(files[ReceiverResult]) == m.identity.expected
    && codec.computed(files[ReceiverResult]) == m.identity.expected
  }

  /** The inventory, digest, visibility, size, sample-count and document checks, together. */
  ghost predicate Acceptable(codec: Codec, bundle: string, files: Files, outside: Recordings) {
    && ManifestOk(codec, bundle, files)
    && (var m := codec.parse(files[ManifestFile]).value;
        && ArtifactsOk(codec, files, m.artifacts, |files[ManifestFile]|)
        && InventoryOk(files, m) && SamplesOk(m) && IqOk(codec, files, outside, m) && DocumentsOk(codec, files, m))
  }

  /** A second look at the bundle, after everything was hashed: what its files then hold, and which
      names still lead to the files that were opened. */
  datatype Look = Look(files: Files, same: set<FileName>)

  /** Nothing that was hashed has been replaced or rewritten since. */
  ghost predicate Steady(codec: Codec, entries: seq<Entry>, files: Files, again: Look) {
    forall e <- entries :: e.path in files && StillThere(codec, files[e.path], again, e.path)
  }

  predicate StillThere(codec: Codec, content: Bytes, again: Look, n: FileName) {
    && n in again.files && n in again.same && |again.files[n]| <= MAX_RETAINED_BYTES
    && |again.files[n]| == |content| && codec.sha256(again.files[n]) == codec.sha256(content)
    && codec.sha512(again.files[n]) == codec.sha512(content)
  }

  // ---- ValidateBundle -------------------------------------------------------------------------------------

  method CheckEntry(codec: Codec, files: Files, e: Entry) returns (ok: bool)
    ensures ok <==> EntryOk(codec, files, e)
  {
    if !SafeName(e.path) || e.schema != ArtifactSchema(e.path) {
      return false;
    }
    var visible := e.class_ == ReceiverInput || e.class_ == RawIq;
    if e.receiverVisible != visible || e.replayUse != visible || e.bytes > MAX_RETAINED_BYTES || e.path !in files {
      return false;
    }
    var content := files[e.path];
    if |content| > MAX_RETAINED_BYTES || |content| != e.bytes || codec.sha256(content) != e.sha256
       || codec.sha512(content) != e.sha512 {
      return false;
    }
    ok := !e.json || (|content| <= MAX_JSON_BYTES && codec.json(content));
  }

  lemma {:induction false} TotalPrefix(entries: seq<Entry>, i: nat)
    requires i < |entries|
    ensures Total(entries[..i + 1]) == Total(entries[..i]) + entries[i].bytes
    ensures Total(entries[..i + 1]) <= Total(entries)
    decreases |entries| - i
  {
    assert entries[..i + 1][..i] == entries[..i];
    if i + 1 < |entries| { TotalPrefix(entries, i + 1); } else { assert entries[..i + 1] == entries; }
  }

  /** A path that is already expected is a second entry for one file, or claims a reserved name. */
  lemma RepeatedPath(entries: seq<Entry>, i: nat)
    requires i < |entries|
    ensures entries[i].path in Paths(entries[..i]) + {ManifestFile, DigestFile} ==> !Distinct(entries)
    ensures Paths(entries[..i + 1]) == Paths(entries[..i]) + {entries[i].path}
    ensures entries[i].path !in Paths(entries[..i]) + {ManifestFile, DigestFile} && Distinct(entries[..i])
            ==> Distinct(entries[..i + 1])
  {
    var s, t := entries[..i], entries[..i + 1];
    assert t == s + [entries[i]];
    if entries[i].path in Paths(s) {
      var e :| e in s && e.path == entries[i].path;
      var k :| 0 <= k < |s| && s[k] == e;
      assert entries[k].path == entries[i].path;
    }
    assert entries[i] in entries;
    forall k | 0 <= k < i ensures s[k].path in Paths(s) { assert s[k] in s; }
  }

  method CheckArtifacts(codec: Codec, files: Files, entries: seq<Entry>, manifestBytes: nat)
    returns (ok: bool, expected: set<FileName>)
    requires manifestBytes <= MAX_JSON_BYTES
    ensures ok <==> ArtifactsOk(codec, files, entries, manifestBytes)
    ensures ok ==> expected == Paths(entries) + {ManifestFile, DigestFile}
  {
    hide Distinct, EntryOk, Paths;
    assert Paths([]) == {} && Distinct([]) by { NoEntries(); }
    expected := {ManifestFile, DigestFile};
    var retained := manifestBytes + 65;
    assert entries[..0] == [];
    for i := 0 to |entries|
      invariant Distinct(entries[..i])
      invariant forall k :: 0 <= k < i ==> EntryOk(codec, files, entries[k])
      invariant expected == Paths(entries[..i]) + {ManifestFile, DigestFile}
      invariant retained == manifestBytes + 65 + Total(entries[..i]) <= MAX_RETAINED_BYTES
    {
      var e := entries[i];
      assert e in entries;
      TotalPrefix(entries, i);
      RepeatedPath(entries, i);
      if e.path in expected {
        return false, expected;
      }
      expected := expected + {e.path};
      var good := CheckEntry(codec, files, e);
      if !good {
        return false, expected;
      }
      EntryHasContent(codec, files, e);
      retained := retained + |files[e.path]|;
      if retained > MAX_RETAINED_BYTES {
        return false, expected;
      }
    }
    assert entries[..|entries|] == entries;
    ok := true;
  }

  lemma NoEntries()
    ensures Paths([]) == {} && Distinct([])
  {
  }

  lemma EntryHasContent(codec: Codec, files: Files, e: Entry)
    requires EntryOk(codec, files, e)
    ensures e.path in files && Describes(codec, e, files[e.path])
  {
  }

  /** What the checker returns to replay. */
  datatype Validated = Validated(mode: Mode, format: Format, iq: Bytes, sampleCount: nat, manifestSha256: Bytes)

  method OpenIq(codec: Codec, files: Files, outside: Recordings, m: Manifest) returns (r: Option<Bytes>)
    requires m.mode.Copy? || m.mode.Reference?
    requires (if m.mode.Copy? then IqData else IqReference) in files
    ensures r.Some? <==> IqOk(codec, files, outside, m)
    ensures r.Some? ==> MatchesIq(codec, m, r.value)
  {
    var iq: Bytes;
    var limit := MAX_COPIED_IQ_BYTES;
    var locator: Option<Locator> := None;
    if m.mode.Copy? {
      iq := files[IqData];
    } else {
      limit := MAX_REFERENCED_IQ_BYTES;
      locator := codec.parseLocator(files[IqReference]);
      if locator.None? || locator.value.root != "fhss-jobs" {
        return None;
      }
      var p := locator.value;
      if !SafeComponent(p.job) || !SafeComponent(p.file) || (p.job, p.file) !in outside {
        return None;
      }
      iq := outside[(p.job, p.file)].content;
    }
    if |iq| > limit || |iq| != m.iqBytes || codec.sha256(iq) != m.iqSha256 || codec.sha512(iq) != m.iqSha512 {
      return None;
    }
    if locator.Some? {
      var p := locator.value;
      var r := outside[(p.job, p.file)];
      if p.bytes != |iq| || p.sha256 != codec.sha256(iq) || p.sha512 != codec.sha512(iq) || p.device != r.device
         || p.inode != r.inode {
        return None;
      }
    }
    r := Some(iq);
  }

  /** The second hash of every artifact. */
  method CheckAgain(codec: Codec, entries: seq<Entry>, files: Files, again: Look) returns (ok: bool)
    requires forall e <- entries :: e.path in files
    ensures ok <==> Steady(codec, entries, files, again)
  {
    hide StillThere;
    for i := 0 to |entries|
      invariant forall k :: 0 <= k < i ==> StillThere(codec, files[entries[k].path], again, entries[k].path)
    {
      if !StillThere(codec, files[entries[i].path], again, entries[i].path) {
        return false;
      }
    }
    ok := true;
  }

  method ValidateBundle(codec: Codec, bundle: string, files: Files, outside: Recordings, again: Look)
    returns (r: Option<Validated>)
    ensures r.Some? <==> Acceptable(codec, bundle, files, outside)
                         && Steady(codec, codec.parse(files[ManifestFile]).value.artifacts, files, again)
    ensures r.Some? ==>
      var m := codec.parse(files[ManifestFile]).value;
      && r.value.mode == m.mode && r.value.format == m.format && MatchesIq(codec, m, r.value.iq)
      && |r.value.iq| == r.value.sampleCount * Stride(r.value.format)
      && files[DigestFile] == r.value.manifestSha256 + [10]
  {
    hide ArtifactsOk, IqOk, Paths, Required, MatchesIq, Steady;
    if ManifestFile !in files || |files[ManifestFile]| > MAX_JSON_BYTES {
      return None;
    }
    var text := files[ManifestFile];
    var parsed := codec.parse(text);
    if parsed.None? || codec.dump(parsed.value) != text {
      return None;
    }
    var m := parsed.value;
    if m.bundle != bundle || m.version != 1 || |m.artifacts| > MAX_ARTIFACTS {
      return None;
    }
    var sha := codec.sha256(text);
    if DigestFile !in files || |files[DigestFile]| > 129 || files[DigestFile] != sha + [10] {
      return None;
    }
    var ok, expected := CheckArtifacts(codec, files, m.artifacts, |text|);
    if !ok || files.Keys != expected {
      return None;
    }
    if m.mode.OtherMode? || m.selfContained != m.mode.Copy? {
      return None;
    }
    SameInventory(codec, files, m, |text|, expected);
    if expected != Required(m.mode) + {ManifestFile, DigestFile} {
      return None;
    }
    var stride := Stride(m.format);
    if stride == 0 || m.iqBytes % stride != 0 || m.sampleCount != m.iqBytes / stride {
      return None;
    }
    IqIsRequired(m.mode);
    var iq := OpenIq(codec, files, outside, m);
    if iq.None? {
      return None;
    }
    MatchedLength(codec, m, iq.value);
    DescribedExist(codec, files, m.artifacts, |text|);
    var steady := CheckAgain(codec, m.artifacts, files, again);
    if !steady {
      return None;
    }
    DocumentsAreRequired(m.mode);
    var graph := codec.graph(files[ReceiverConfig]);
    if !codec.sigmf(files[SigMfMeta], m.iqBytes, m.iqSha512) || graph.None? || !codec.clean(graph.value) {
      return None;
    }
    var expectedHash := m.identity.expected;
    if |expectedHash| != 64 || codec.declared(files[ReceiverResult]) != expectedHash
       || codec.computed(files[ReceiverResult]) != expectedHash {
      return None;
    }
    r := Some(Validated(m.mode, m.format, iq.value, m.sampleCount, sha));
  }

  lemma MatchedLength(codec: Codec, m: Manifest, iq: Bytes)
    requires MatchesIq(codec, m, iq)
    ensures |iq| == m.iqBytes
  {
  }

  lemma DescribedExist(codec: Codec, files: Files, entries: seq<Entry>, manifestBytes: nat)
    requires ArtifactsOk(codec, files, entries, manifestBytes)
    ensures forall e <- entries :: e.path in files
  {
  }

  lemma IqIsRequired(mode: Mode)
    ensures (if mode.Copy? then IqData else IqReference) in Required(mode)
  {
  }

  lemma DocumentsAreRequired(mode: Mode)
    ensures SigMfMeta in Required(mode) && ReceiverConfig in Required(mode) && ReceiverResult in Required(mode)
  {
  }

  /** The reserved names are never paths, so comparing with or without them is the same. */
  lemma SameInventory(codec: Codec, files: Files, m: Manifest, manifestBytes: nat, expected: set<FileName>)
    requires ArtifactsOk(codec, files, m.artifacts, manifestBytes)
    requires expected == Paths(m.artifacts) + {ManifestFile, DigestFile}
    ensures expected == Required(m.mode) + {ManifestFile, DigestFile} <==> Paths(m.artifacts) == Required(m.mode)
  {
    assert forall n <- Paths(m.artifacts) :: !n.ManifestFile? && !n.DigestFile?;
    assert Paths(m.artifacts) == expected - {ManifestFile, DigestFile};
    assert Required(m.mode) == (Required(m.mode) + {ManifestFile, DigestFile}) - {ManifestFile, DigestFile};
  }

  // ---- Export -----------------------------------------------------------------------------------------------

  /** The job's files that `Export` compares with the job's record. */
  datatype Committed = CommittedTruth | CommittedSigMf | CommittedReceiver

  /** A completed job as `Export` sees it: its files and their recorded digests, the observation,
      comparison and receiver result of the services, and the records that the export itself makes. */
  datatype Source = Source(job: string, format: Format, iq: Recording, recordedBytes: nat, recordedSha256: Bytes,
                           stored: Committed -> Bytes, recorded: Committed -> Bytes, observation: Bytes,
                           comparison: Bytes, result: Bytes, provenance: Bytes, actions: Bytes, buildApi: Bytes,
                           revision: nat, tag: string, createdAt: string, request: string, epoch: nat, scenario: string)

  /** The directories of the bundle root and the bytes they hold. */
  datatype Root = Root(names: set<string>, bytes: nat)

  predicate IsStaging(name: string) { ".tmp-" <= name }

  function Visible(root: Root): set<string> { set n <- root.names | !IsStaging(n) }

  /** The files are those of the completed job, and its documents are JSON. */
  predicate MatchesRecord(codec: Codec, source: Source) {
    && source.recordedBytes == |source.iq.content| && source.recordedSha256 == codec.sha256(source.iq.content)
    && codec.sha256(source.stored(CommittedTruth)) == source.recorded(CommittedTruth)
    && codec.sha256(source.stored(CommittedSigMf)) == source.recorded(CommittedSigMf)
    && codec.sha256(source.stored(CommittedReceiver)) == source.recorded(CommittedReceiver)
    && (forall d <- {CommittedTruth, CommittedSigMf, CommittedReceiver} ::
          |source.stored(d)| <= MAX_JSON_BYTES && codec.json(source.stored(d)))
  }

  function IqName(f: Format): string { if f.Cf32? then "iq.cf32" else "iq.cf64" }

  function LocatorOf(codec: Codec, source: Source): Locator {
    Locator("fhss-jobs", source.job, IqName(source.format), |source.iq.content|, codec.sha256(source.iq.content),
            codec.sha512(source.iq.content), source.iq.device, source.iq.inode)
  }

  /** What each artifact holds. */
  function Content(codec: Codec, source: Source, n: FileName): Bytes {
    match n
    case IqData => source.iq.content
    case IqReference => codec.dumpLocator(LocatorOf(codec, source))
    case Truth => codec.canonical(source.stored(CommittedTruth))
    case Observation => codec.canonical(source.observation)
    case Comparison => codec.canonical(source.comparison)
    case ReceiverConfig => codec.wrap(source.revision, source.tag, source.stored(CommittedReceiver))
    case ReceiverResult => codec.report(source.result)
    case SigMfMeta => codec.canonical(source.stored(CommittedSigMf))
    case Provenance => codec.canonical(source.provenance)
    case Actions => codec.canonical(source.actions)
    case BuildApi => codec.canonical(source.buildApi)
    case _ => []
  }

  /** The order in which the artifacts are written. */
  function Plan(copy: bool): seq<FileName> {
    [Truth, Observation, Comparison, ReceiverConfig, ReceiverResult, SigMfMeta, Provenance, Actions, BuildApi,
     if copy then IqData else IqReference]
  }

  function ModeOf(copy: bool): Mode { if copy then Copy else Reference }

  function EntryFor(codec: Codec, source: Source, n: FileName): Entry {
    var content := Content(codec, source, n);
    Entry(n, ArtifactSchema(n), !n.IqData?, ClassOf(n), ReceiverVisible(ClassOf(n)), ReceiverVisible(ClassOf(n)),
          |content|, codec.sha256(content), codec.sha512(content))
  }

  function EntriesFor(codec: Codec, source: Source, plan: seq<FileName>): (r: seq<Entry>)
    ensures |r| == |plan| && forall i :: 0 <= i < |r| ==> r[i] == EntryFor(codec, source, plan[i])
  {
    seq(|plan|, i requires 0 <= i < |plan| => EntryFor(codec, source, plan[i]))
  }

  function Entries(codec: Codec, source: Source, copy: bool): seq<Entry> { EntriesFor(codec, source, Plan(copy)) }

  function ManifestFor(codec: Codec, source: Source, bundle: string, copy: bool): Manifest {
    Manifest(bundle, 1, Entries(codec, source, copy), ModeOf(copy), copy, source.format,
             |source.iq.content|,
             if Stride(source.format) == 0 then 0 else |source.iq.content| / Stride(source.format),
             codec.sha256(source.iq.content), codec.sha512(source.iq.content),
             Identity(source.createdAt, source.job, source.request, source.epoch, source.scenario,
                      codec.semantic(source.result)))
  }

  function Exported(codec: Codec, source: Source, bundle: string, copy: bool): Files {
    var text := codec.dump(ManifestFor(codec, source, bundle, copy));
    (map n <- Required(ModeOf(copy)) :: Content(codec, source, n))
      [ManifestFile := text][DigestFile := codec.sha256(text) + [10]]
  }

  /** When `Export` gets as far as the rename. */
  ghost predicate Exportable(codec: Codec, source: Source, bundle: string, copy: bool, root: Root) {
    var size := |source.iq.content|;
    && MatchesRecord(codec, source) && codec.clean(source.stored(CommittedReceiver))
    && codec.sigmf(source.stored(CommittedSigMf), size, codec.sha512(source.iq.content))
    && root.bytes < MAX_RETAINED_BYTES && bundle !in root.names && |Visible(root)| < MAX_BUNDLES
    && Stride(source.format) != 0
    && size <= (if copy then MAX_COPIED_IQ_BYTES else MAX_REFERENCED_IQ_BYTES)
    && size > 0 && size % Stride(source.format) == 0
    && (forall n <- Plan(copy) :: Fits(codec, source, n))
    && (var retained := Total(Entries(codec, source, copy)) + |codec.dump(ManifestFor(codec, source, bundle, copy))| + 65;
        retained + root.bytes <= MAX_RETAINED_BYTES)
  }

  function Rank(n: FileName): nat {
    match n
    case Truth => 0 case Observation => 1 case Comparison => 2 case ReceiverConfig => 3 case ReceiverResult => 4
    case SigMfMeta => 5 case Provenance => 6 case Actions => 7 case BuildApi => 8 case _ => 9
  }

  ghost predicate IsPlan(plan: seq<FileName>, required: set<FileName>) {
    && |plan| == 10
    && (forall i :: 0 <= i < 10 ==> plan[i] in required && Rank(plan[i]) == i)
    && (forall n <- required :: plan[Rank(n)] == n)
  }

  lemma PlanCovers(copy: bool)
    ensures IsPlan(Plan(copy), Required(ModeOf(copy)))
    ensures forall n <- Required(ModeOf(copy)) :: !n.ManifestFile? && !n.DigestFile? && !n.Other?
  {
  }

  ghost predicate Fits(codec: Codec, source: Source, n: FileName) {
    n.IqData? || |Content(codec, source, n)| <= MAX_JSON_BYTES
  }

  /** The `add_json` calls and the copy of the recording, in their order. */
  method StageArtifacts(codec: Codec, source: Source, plan: seq<FileName>) returns (ok: bool, files: Files, retained: nat)
    ensures ok <==> forall n <- plan :: Fits(codec, source, n)
    ensures ok ==> files == map n <- plan :: Content(codec, source, n)
    ensures ok ==> retained == Total(EntriesFor(codec, source, plan))
  {
    hide Content, Fits, EntryFor;
    ghost var entries := EntriesFor(codec, source, plan);
    files, retained := map[], 0;
    for i := 0 to |plan|
      invariant forall n <- plan[..i] :: Fits(codec, source, n)
      invariant files == map n <- plan[..i] :: Content(codec, source, n)
      invariant retained == Total(entries[..i])
    {
      var n := plan[i];
      var content := Content(codec, source, n);
      assert n in plan && plan[..i + 1] == plan[..i] + [n];
      FitsMeans(codec, source, n);
      if !n.IqData? && |content| > MAX_JSON_BYTES {
        return false, files, retained;
      }
      TotalPrefix(entries, i);
      files := files[n := content];
      retained := retained + |content|;
    }
    assert entries[..|entries|] == entries && plan[..|plan|] == plan;
    ok := true;
  }

  lemma FitsMeans(codec: Codec, source: Source, n: FileName)
    ensures Fits(codec, source, n) <==> n.IqData? || |Content(codec, source, n)| <= MAX_JSON_BYTES
    ensures EntryFor(codec, source, n).bytes == |Content(codec, source, n)|
  {
  }

  /** The manifest's artifact array, built from what was written. */
  method DescribeArtifacts(codec: Codec, source: Source, files: Files, plan: seq<FileName>) returns (artifacts: seq<Entry>)
    requires files == map n <- plan :: Content(codec, source, n)
    ensures artifacts == EntriesFor(codec, source, plan)
  {
    hide Content, ArtifactSchema, ClassOf;
    artifacts := [];
    for i := 0 to |plan|
      invariant |artifacts| == i && forall k :: 0 <= k < i ==> artifacts[k] == EntryFor(codec, source, plan[k])
    {
      var n := plan[i];
      var class_ := ClassOf(n);
      var visible := class_ == ReceiverInput || class_ == RawIq;
      artifacts := artifacts + [Entry(n, ArtifactSchema(n), n != IqData, class_, visible, visible, |files[n]|,
                                      codec.sha256(files[n]), codec.sha512(files[n]))];
    }
  }

  lemma StagedFiles(codec: Codec, source: Source, copy: bool)
    ensures |Plan(copy)| == 10
    ensures (map n <- Plan(copy) :: Content(codec, source, n)) == map n <- Required(ModeOf(copy)) :: Content(codec, source, n)
  {
    hide Plan, Content, Required;
    PlanCovers(copy);
  }

  function Held(files: Files, n: FileName): Option<Bytes> { if n in files then Some(files[n]) else None }

  /** What the bundle holds under each name, and nothing else. */
  ghost predicate HoldsSource(codec: Codec, source: Source, copy: bool, files: Files) {
    && Held(files, Truth) == Some(codec.canonical(source.stored(CommittedTruth)))
    && Held(files, Observation) == Some(codec.canonical(source.observation))
    && Held(files, Comparison) == Some(codec.canonical(source.comparison))
    && Held(files, ReceiverConfig) == Some(codec.wrap(source.revision, source.tag, source.stored(CommittedReceiver)))
    && Held(files, ReceiverResult) == Some(codec.report(source.result))
    && Held(files, SigMfMeta) == Some(codec.canonical(source.stored(CommittedSigMf)))
    && Held(files, Provenance) == Some(codec.canonical(source.provenance))
    && Held(files, Actions) == Some(codec.canonical(source.actions))
    && Held(files, BuildApi) == Some(codec.canonical(source.buildApi))
    && Held(files, IqData) == (if copy then Some(source.iq.content) else None)
    && Held(files, IqReference) == (if copy then None else Some(codec.dumpLocator(
         Locator("fhss-jobs", source.job, if source.format.Cf32? then "iq.cf32" else "iq.cf64", |source.iq.content|,
                 codec.sha256(source.iq.content), codec.sha512(source.iq.content), source.iq.device, source.iq.inode))))
    && ManifestFile in files && Held(files, DigestFile) == Some(codec.sha256(files[ManifestFile]) + [10])
    && (forall text :: Other(text) !in files)
  }

  /** An entry describes its file, and only the receiver configuration and the recording are for the
      receiver to see. */
  ghost predicate EntrySays(codec: Codec, files: Files, e: Entry) {
    && e.path in files && e.bytes == |files[e.path]|
    && e.sha256 == codec.sha256(files[e.path]) && e.sha512 == codec.sha512(files[e.path])
    && (e.receiverVisible <==> e.path.ReceiverConfig? || e.path.IqData?) && e.replayUse == e.receiverVisible
    && (e.json <==> !e.path.IqData?) && e.schema == (if e.path.IqData? then Binary else Pinned(e.path))
    && (e.class_.GeneratorTruth? <==> e.path.Truth?)
    && (e.class_.ReceiverObservation? <==> e.path.Observation?) && (e.class_.OfflineEvaluation? <==> e.path.Comparison?)
    && (e.class_.ReceiverInput? <==> e.path.ReceiverConfig?) && (e.class_.ReceiverOutput? <==> e.path.ReceiverResult?)
    && (e.class_.RawIq? <==> e.path.IqData?) && (e.class_.ExternalIqReference? <==> e.path.IqReference?)
  }

  /** The manifest names the bundle, its source job and its recording, and has one entry for each
      other file. */
  ghost predicate ManifestSays(codec: Codec, source: Source, bundle: string, copy: bool, files: Files, m: Manifest) {
    && m.bundle == bundle && m.version == 1 && m.selfContained == copy && m.mode == (if copy then Copy else Reference)
    && m.format == source.format && m.iqBytes == |source.iq.content|
    && m.sampleCount * (if m.format.Cf32? then 8 else 16) == m.iqBytes
    && m.iqSha256 == codec.sha256(source.iq.content) && m.iqSha512 == codec.sha512(source.iq.content)
    && m.identity.job == source.job && m.identity.request == source.request && m.identity.epoch == source.epoch
    && m.identity.scenario == source.scenario && m.identity.expected == codec.semantic(source.result)
    && |m.artifacts| == 10 && (forall e <- m.artifacts :: EntrySays(codec, files, e))
    && Paths(m.artifacts) == files.Keys - {ManifestFile, DigestFile}
  }

  lemma ExportedSays(codec: Codec, source: Source, bundle: string, copy: bool, root: Root)
    requires Exportable(codec, source, bundle, copy, root)
    ensures var files := Exported(codec, source, bundle, copy);
            && HoldsSource(codec, source, copy, files)
            && ManifestSays(codec, source, bundle, copy, files, ManifestFor(codec, source, bundle, copy))
            && files[ManifestFile] == codec.dump(ManifestFor(codec, source, bundle, copy))
  {
    hide HoldsSource, Exported, ManifestSays, Exportable;
    ExportedHolds(codec, source, bundle, copy);
    ManifestIsSaid(codec, source, bundle, copy, root);
  }

  lemma ManifestIsSaid(codec: Codec, source: Source, bundle: string, copy: bool, root: Root)
    requires Exportable(codec, source, bundle, copy, root)
    ensures ManifestSays(codec, source, bundle, copy, Exported(codec, source, bundle, copy), ManifestFor(codec, source, bundle, copy))
  {
    hide MatchesRecord, Visible, Total, Fits, Plan, Exported, Required, EntrySays, Entries, Stride, Paths;
    EntriesAreSaid(codec, source, bundle, copy);
    WholeSamples(|source.iq.content|, source.format);
  }

  lemma WholeSamples(bytes: nat, f: Format)
    requires Stride(f) != 0 && bytes % Stride(f) == 0
    ensures bytes / Stride(f) * (if f.Cf32? then 8 else 16) == bytes
  {
  }

  lemma EntriesAreSaid(codec: Codec, source: Source, bundle: string, copy: bool)
    ensures var files, entries := Exported(codec, source, bundle, copy), Entries(codec, source, copy);
            && |entries| == 10 && (forall e <- entries :: EntrySays(codec, files, e))
            && Paths(entries) == files.Keys - {ManifestFile, DigestFile}
  {
    hide Plan, Exported, Required, EntrySays, Content, EntryFor, Paths;
    var files, entries := Exported(codec, source, bundle, copy), Entries(codec, source, copy);
    KeysOfExport(codec, source, bundle, copy);
    PathsOfPlan(codec, source, copy);
    PlanCovers(copy);
    assert |entries| == 10 by { StagedFiles(codec, source, copy); }
    forall e <- entries ensures EntrySays(codec, files, e) {
      var i :| 0 <= i < |entries| && entries[i] == e;
      assert Plan(copy)[i] in Plan(copy);
      EntryIsSaid(codec, source, bundle, copy, Plan(copy)[i]);
    }
  }

  lemma RequiredNames(copy: bool, n: FileName)
    ensures n in Required(ModeOf(copy)) <==> !n.Other? && !n.ManifestFile? && !n.DigestFile? && n != if copy then IqReference else IqData
  {
  }

  lemma ExportedHolds(codec: Codec, source: Source, bundle: string, copy: bool)
    ensures HoldsSource(codec, source, copy, Exported(codec, source, bundle, copy))
    ensures Exported(codec, source, bundle, copy)[ManifestFile] == codec.dump(ManifestFor(codec, source, bundle, copy))
  {
    hide Exported, ManifestFor, Held, Content;
    ExportedDigest(codec, source, bundle, copy);
    ExportedAt(codec, source, bundle, copy, Truth);
    ExportedAt(codec, source, bundle, copy, Observation);
    ExportedAt(codec, source, bundle, copy, Comparison);
    ExportedAt(codec, source, bundle, copy, ReceiverConfig);
    ExportedAt(codec, source, bundle, copy, ReceiverResult);
    ExportedAt(codec, source, bundle, copy, SigMfMeta);
    ExportedAt(codec, source, bundle, copy, Provenance);
    ExportedAt(codec, source, bundle, copy, Actions);
    ExportedAt(codec, source, bundle, copy, BuildApi);
    ExportedAt(codec, source, bundle, copy, IqData);
    ExportedAt(codec, source, bundle, copy, IqReference);
    ContentOfDocuments(codec, source);
    ContentOfRecording(codec, source);
  }

  lemma ContentOfDocuments(codec: Codec, source: Source)
    ensures Content(codec, source, Truth) == codec.canonical(source.stored(CommittedTruth))
    ensures Content(codec, source, Observation) == codec.canonical(source.observation)
    ensures Content(codec, source, Comparison) == codec.canonical(source.comparison)
    ensures Content(codec, source, ReceiverConfig) == codec.wrap(source.revision, source.tag, source.stored(CommittedReceiver))
    ensures Content(codec, source, ReceiverResult) == codec.report(source.result)
    ensures Content(codec, source, SigMfMeta) == codec.canonical(source.stored(CommittedSigMf))
    ensures Content(codec, source, Provenance) == codec.canonical(source.provenance)
    ensures Content(codec, source, Actions) == codec.canonical(source.actions)
    ensures Content(codec, source, BuildApi) == codec.canonical(source.buildApi)
  {
  }

  lemma ContentOfRecording(codec: Codec, source: Source)
    ensures Content(codec, source, IqData) == source.iq.content
    ensures Content(codec, source, IqReference) == codec.dumpLocator(
      Locator("fhss-jobs", source.job, if source.format.Cf32? then "iq.cf32" else "iq.cf64", |source.iq.content|,
              codec.sha256(source.iq.content), codec.sha512(source.iq.content), source.iq.device, source.iq.inode))
  {
  }

  lemma ExportedDigest(codec: Codec, source: Source, bundle: string, copy: bool)
    ensures var files := Exported(codec, source, bundle, copy); var text := codec.dump(ManifestFor(codec, source, bundle, copy));
            && ManifestFile in files && files[ManifestFile] == text && Held(files, DigestFile) == Some(codec.sha256(text) + [10])
            && forall text :: Other(text) !in files
  {
    hide ManifestFor, Content, Required;
    RequiredNames(copy, ManifestFile);
    RequiredNames(copy, DigestFile);
    forall text ensures Other(text) !in Exported(codec, source, bundle, copy) { RequiredNames(copy, Other(text)); }
  }

  lemma ExportedAt(codec: Codec, source: Source, bundle: string, copy: bool, n: FileName)
    requires !n.ManifestFile? && !n.DigestFile?
    ensures Held(Exported(codec, source, bundle, copy), n)
            == if n.Other? || n == (if copy then IqReference else IqData) then None else Some(Content(codec, source, n))
  {
    hide ManifestFor, Content, Required;
    RequiredNames(copy, n);
  }

  lemma KeysOfExport(codec: Codec, source: Source, bundle: string, copy: bool)
    ensures var files := Exported(codec, source, bundle, copy);
            && files.Keys == Required(ModeOf(copy)) + {ManifestFile, DigestFile}
            && files.Keys - {ManifestFile, DigestFile} == Required(ModeOf(copy))
  {
    hide ManifestFor, Content, Required;
    RequiredNames(copy, ManifestFile);
    RequiredNames(copy, DigestFile);
  }

  lemma EntryIsSaid(codec: Codec, source: Source, bundle: string, copy: bool, n: FileName)
    requires n in Required(ModeOf(copy))
    ensures EntrySays(codec, Exported(codec, source, bundle, copy), EntryFor(codec, source, n))
  {
    hide Exported, Content, Required;
    RequiredNames(copy, n);
    ExportedAt(codec, source, bundle, copy, n);
  }

  /** Publication is reached exactly when every check passes; then the files hold the job's documents
      under their own names, and the manifest says what they are. */
  method Export(codec: Codec, source: Source, bundle: string, copy: bool, root: Root) returns (r: Option<Files>)
    ensures r.Some? <==> Exportable(codec, source, bundle, copy, root)
    ensures r.Some? ==> HoldsSource(codec, source, copy, r.value)
    ensures r.Some? ==> exists m :: r.value[ManifestFile] == codec.dump(m)
                                    && ManifestSays(codec, source, bundle, copy, r.value, m)
    ensures r.Some? ==> r.value == Exported(codec, source, bundle, copy)
  {
    hide HoldsSource, ManifestSays, Plan, Content, Required, Total, EntriesFor, Stride, Fits, MatchesRecord, Visible;
    StagedFiles(codec, source, copy);
    var iq := source.iq.content;
    var stride := Stride(source.format);
    if stride == 0 || |iq| > (if copy then MAX_COPIED_IQ_BYTES else MAX_REFERENCED_IQ_BYTES) || |iq| == 0
       || |iq| % stride != 0 || !MatchesRecord(codec, source) {
      return None;
    }
    if !codec.clean(source.stored(CommittedReceiver)) || !codec.sigmf(source.stored(CommittedSigMf), |iq|, codec.sha512(iq)) {
      return None;
    }
    if root.bytes >= MAX_RETAINED_BYTES || bundle in root.names || |Visible(root)| >= MAX_BUNDLES {
      return None;
    }
    var ok, files, retained := StageArtifacts(codec, source, Plan(copy));
    if !ok || |Plan(copy)| > MAX_ARTIFACTS || retained > MAX_RETAINED_BYTES {
      return None;
    }
    var artifacts := DescribeArtifacts(codec, source, files, Plan(copy));
    var manifest := Manifest(bundle, 1, artifacts, ModeOf(copy), copy, source.format, |iq|,
                             |iq| / stride, codec.sha256(iq), codec.sha512(iq),
                             Identity(source.createdAt, source.job, source.request, source.epoch, source.scenario,
                                      codec.semantic(source.result)));
    assert manifest == ManifestFor(codec, source, bundle, copy);
    var text := codec.dump(manifest);
    files := files[ManifestFile := text];
    files := files[DigestFile := codec.sha256(text) + [10]];
    retained := retained + |text| + 65;
    if retained > MAX_RETAINED_BYTES || root.bytes > MAX_RETAINED_BYTES - retained {
      return None;
    }
    ExportedSays(codec, source, bundle, copy, root);
    r := Some(files);
  }

  // ---- The writer and the checker agree ------------------------------------------------------------------

  ghost predicate Untouched(source: Source, outside: Recordings) {
    var at := (source.job, IqName(source.format));
    at in outside && outside[at] == source.iq
  }

  /** What request checking and the job controller guarantee about a source: bounded tokens, a
      64-bit epoch, a time stamp from a 32-byte buffer, a 26-character correlation id. */
  ghost predicate Identified(source: Source, bundle: string) {
    && SafeComponent(bundle) && SafeComponent(source.job) && |source.request| <= 64 && |source.scenario| <= 26
    && |source.createdAt| <= 31 && source.epoch <= UINT64_MAX
  }

  /** Every bundle that `Export` publishes passes the checks of `ValidateBundle`. */
  lemma ExportedIsAcceptable(codec: Codec, source: Source, bundle: string, copy: bool, root: Root, outside: Recordings)
    requires Lawful(codec) && Identified(source, bundle) && Exportable(codec, source, bundle, copy, root)
    requires !copy ==> Untouched(source, outside)
    ensures Acceptable(codec, bundle, Exported(codec, source, bundle, copy), outside)
  {
    hide Content, Plan, Required, Total, Paths, ArtifactsOk, IqOk, DocumentsOk, ManifestOk, InventoryOk, SamplesOk, Exported, Fits, MatchesRecord, Visible;
    ExportedArtifacts(codec, source, bundle, copy, root);
    ExportedIq(codec, source, bundle, copy, outside);
    ExportedDocuments(codec, source, bundle, copy);
    ExportedManifest(codec, source, bundle, copy, root);
    ExportedInventory(codec, source, bundle, copy, root);
  }

  lemma ExportedManifest(codec: Codec, source: Source, bundle: string, copy: bool, root: Root)
    requires Lawful(codec) && Identified(source, bundle) && Exportable(codec, source, bundle, copy, root)
    ensures ManifestOk(codec, bundle, Exported(codec, source, bundle, copy))
    ensures var files := Exported(codec, source, bundle, copy);
            codec.parse(files[ManifestFile]) == Some(ManifestFor(codec, source, bundle, copy))
            && |files[ManifestFile]| == |codec.dump(ManifestFor(codec, source, bundle, copy))|
  {
    ManifestFits(codec, source, bundle, copy, root);
    assert |Entries(codec, source, copy)| == 10 by { StagedFiles(codec, source, copy); }
    hide Content, Plan, Required, Total, Entries, Exported, Exportable, Identified;
    ExportedDigest(codec, source, bundle, copy);
  }

  lemma ExportedInventory(codec: Codec, source: Source, bundle: string, copy: bool, root: Root)
    requires Exportable(codec, source, bundle, copy, root)
    ensures InventoryOk(Exported(codec, source, bundle, copy), ManifestFor(codec, source, bundle, copy))
    ensures SamplesOk(ManifestFor(codec, source, bundle, copy))
  {
    hide Content, Plan, Required, Total, Paths, Exported, Fits, MatchesRecord, Visible;
    KeysOfExport(codec, source, bundle, copy);
    PathsOfPlan(codec, source, copy);
  }

  lemma {:induction false} EntriesTextBound(entries: seq<Entry>)
    requires forall e <- entries :: |e.sha256| == 64 && |e.sha512| == 128 && !e.path.Other? && (e.schema.Pinned? ==> !e.schema.of.Other?)
    ensures EntriesText(entries) <= |entries| * 2560
  {
    if entries != [] {
      var last := entries[|entries| - 1];
      assert last in entries;
      EntriesTextBound(entries[..|entries| - 1]);
    }
  }

  /** Fixed names, fixed-length digests and bounded tokens keep the manifest far below the limit. */
  lemma ManifestFits(codec: Codec, source: Source, bundle: string, copy: bool, root: Root)
    requires Lawful(codec) && Identified(source, bundle) && Exportable(codec, source, bundle, copy, root)
    ensures |codec.dump(ManifestFor(codec, source, bundle, copy))| <= MAX_JSON_BYTES
  {
    hide Plan, Required, Content, Total, Fits, SafeComponent;
    var m, entries := ManifestFor(codec, source, bundle, copy), Entries(codec, source, copy);
    PlanCovers(copy);
    assert |bundle| <= 64 && |source.job| <= 64 by { SafeLength(bundle); SafeLength(source.job); }
    forall e <- entries
      ensures |e.sha256| == 64 && |e.sha512| == 128 && !e.path.Other? && (e.schema.Pinned? ==> !e.schema.of.Other?)
      ensures e.bytes <= MAX_RETAINED_BYTES
    {
      var i :| 0 <= i < |entries| && entries[i] == e;
      assert e == EntryFor(codec, source, Plan(copy)[i]) && Plan(copy)[i] in Required(ModeOf(copy));
      TotalPrefix(entries, i);
    }
    EntriesTextBound(entries);
    assert m.sampleCount <= m.iqBytes by { SamplesBelow(m.iqBytes, source.format); }
    assert Numbers64(m);
  }

  lemma SafeLength(text: string)
    ensures SafeComponent(text) ==> |text| <= 64
  {
  }

  lemma SamplesBelow(bytes: nat, f: Format)
    ensures Stride(f) > 0 ==> bytes / Stride(f) <= bytes
  {
  }

  lemma ExportedDocuments(codec: Codec, source: Source, bundle: string, copy: bool)
    requires Lawful(codec) && Identified(source, bundle) && codec.clean(source.stored(CommittedReceiver))
    requires codec.sigmf(source.stored(CommittedSigMf), |source.iq.content|, codec.sha512(source.iq.content))
    ensures DocumentsOk(codec, Exported(codec, source, bundle, copy), ManifestFor(codec, source, bundle, copy))
  {
    hide Entries, Required;
    DocumentsAreRequired(ModeOf(copy));
  }

  lemma ExportedEntry(codec: Codec, source: Source, bundle: string, copy: bool, n: FileName)
    requires Lawful(codec) && n in Required(ModeOf(copy))
    requires Fits(codec, source, n) && |Content(codec, source, n)| <= MAX_RETAINED_BYTES
    ensures EntryOk(codec, Exported(codec, source, bundle, copy), EntryFor(codec, source, n))
  {
    hide Plan, Entries;
    PlanCovers(copy);
    hide Required;
  }

  lemma ExportedArtifacts(codec: Codec, source: Source, bundle: string, copy: bool, root: Root)
    requires Lawful(codec) && Exportable(codec, source, bundle, copy, root)
    ensures var m := ManifestFor(codec, source, bundle, copy);
            && ArtifactsOk(codec, Exported(codec, source, bundle, copy), m.artifacts, |codec.dump(m)|)
            && Paths(m.artifacts) == Required(m.mode)
            && Exported(codec, source, bundle, copy).Keys == Paths(m.artifacts) + {ManifestFile, DigestFile}
  {
    hide Plan, Required, Total, Lawful, EntryOk, Content, MatchesRecord, Fits, Stride;
    var files := Exported(codec, source, bundle, copy);
    var entries := Entries(codec, source, copy);
    PlanCovers(copy);
    forall i | 0 <= i < |entries| ensures EntryOk(codec, files, entries[i]) {
      TotalPrefix(entries, i);
      var n := Plan(copy)[i];
      assert n in Plan(copy) && Fits(codec, source, n);
      ExportedEntry(codec, source, bundle, copy, n);
    }
    PathsOfPlan(codec, source, copy);
  }

  /** The entries name the required artifacts, each once. */
  lemma PathsOfPlan(codec: Codec, source: Source, copy: bool)
    ensures Paths(Entries(codec, source, copy)) == Required(ModeOf(copy)) && Distinct(Entries(codec, source, copy))
  {
    hide Plan, Required, Content;
    PlanCovers(copy);
    var entries := Entries(codec, source, copy);
    forall n <- Required(ModeOf(copy)) ensures n in Paths(entries) {
      assert entries[Rank(n)].path == n && entries[Rank(n)] in entries;
    }
  }

  lemma ExportedIq(codec: Codec, source: Source, bundle: string, copy: bool, outside: Recordings)
    requires Lawful(codec) && SafeComponent(source.job) && Stride(source.format) != 0
    requires |source.iq.content| <= (if copy then MAX_COPIED_IQ_BYTES else MAX_REFERENCED_IQ_BYTES)
    requires !copy ==> Untouched(source, outside)
    ensures IqOk(codec, Exported(codec, source, bundle, copy), outside, ManifestFor(codec, source, bundle, copy))
  {
    hide Entries;
  }

  /** Two accepted bundles with the same detached digest are the same bundle, or some file of one
      collides with its namesake under SHA-256. */
  /** An accepted artifact is what its entry says. */
  lemma EntryBinds(codec: Codec, files: Files, e: Entry)
    requires EntryOk(codec, files, e)
    ensures e.path in files && Describes(codec, e, files[e.path]) && |files[e.path]| <= MAX_RETAINED_BYTES
  {
  }

  lemma DigestBindsTheBundle(codec: Codec, bundle: string, a: Files, b: Files, outside: Recordings, outside': Recordings)
    requires Acceptable(codec, bundle, a, outside) && Acceptable(codec, bundle, b, outside')
    requires Lawful(codec) && a[DigestFile] == b[DigestFile]
    ensures a == b || exists n :: n in a && n in b && a[n] != b[n] && codec.sha256(a[n]) == codec.sha256(b[n])
  {
    hide IqOk, SamplesOk, DocumentsOk, Total, Required, EntryOk, Distinct;
    if forall n :: n in a && n in b && codec.sha256(a[n]) == codec.sha256(b[n]) ==> a[n] == b[n] {
      assert codec.sha256(a[ManifestFile]) == codec.sha256(b[ManifestFile]) by {
        assert a[DigestFile][..64] == codec.sha256(a[ManifestFile]) && b[DigestFile][..64] == codec.sha256(b[ManifestFile]);
      }
      assert a[ManifestFile] == b[ManifestFile];
      var m := codec.parse(a[ManifestFile]).value;
      forall n <- Paths(m.artifacts) ensures a[n] == b[n] {
        var e :| e in m.artifacts && e.path == n;
        EntryBinds(codec, a, e);
        EntryBinds(codec, b, e);
      }
      assert a == b;
    }
  }

  /** Altering one file of an accepted bundle is caught, short of a SHA-256 collision; for an
      artifact the altered file would also have to collide under SHA-512 and keep its length. */
  lemma AlteredFileIsRejected(codec: Codec, bundle: string, files: Files, outside: Recordings, n: FileName, x: Bytes)
    requires Acceptable(codec, bundle, files, outside) && n in files && x != files[n]
    ensures Acceptable(codec, bundle, files[n := x], outside) ==>
      && !n.DigestFile? && codec.sha256(x) == codec.sha256(files[n])
      && (!n.ManifestFile? ==> codec.sha512(x) == codec.sha512(files[n]) && |x| == |files[n]|)
  {
    hide IqOk, SamplesOk, DocumentsOk, Total, Required;
    var b := files[n := x];
    if Acceptable(codec, bundle, b, outside) {
      var m := codec.parse(files[ManifestFile]).value;
      if n in Paths(m.artifacts) && !n.ManifestFile? && !n.DigestFile? {
        var e :| e in m.artifacts && e.path == n;
        assert EntryOk(codec, files, e) && EntryOk(codec, b, e);
      } else if n.ManifestFile? {
        SameDigest(codec.sha256(x), codec.sha256(files[n]));
      }
    }
  }

  lemma SameDigest(a: Bytes, b: Bytes)
    ensures a + [10] == b + [10] ==> a == b
  {
    if a + [10] == b + [10] {
      assert a == (a + [10])[..|a + [10]| - 1] == (b + [10])[..|b + [10]| - 1] == b;
    }
  }

  lemma AddedOrRemovedFileIsRejected(codec: Codec, bundle: string, files: Files, outside: Recordings, n: FileName, x: Bytes)
    requires Acceptable(codec, bundle, files, outside)
    ensures n in files ==> !Acceptable(codec, bundle, files - {n}, outside)
    ensures n !in files ==> !Acceptable(codec, bundle, files[n := x], outside)
  {
    hide IqOk, SamplesOk, DocumentsOk, Total, Paths, Required, ArtifactsOk;
    assert n in files ==> n !in (files - {n}).Keys;
  }

  /** An accepted bundle that is left alone passes its second look; one of its artifacts replaced,
      removed or rewritten between the two looks is caught, short of content of the same length that
      collides under both hash functions. */
  lemma ChangedWhileCheckedIsRejected(codec: Codec, bundle: string, files: Files, outside: Recordings, again: Look, n: FileName)
    requires Acceptable(codec, bundle, files, outside) && n in files && !n.ManifestFile? && !n.DigestFile?
    ensures var artifacts := codec.parse(files[ManifestFile]).value.artifacts;
            && Steady(codec, artifacts, files, Look(files, files.Keys))
            && (Steady(codec, artifacts, files, again) ==>
                  && n in again.files && n in again.same && |again.files[n]| == |files[n]|
                  && codec.sha256(again.files[n]) == codec.sha256(files[n])
                  && codec.sha512(again.files[n]) == codec.sha512(files[n]))
  {
    hide IqOk, SamplesOk, DocumentsOk, Total, Required, EntryOk, Distinct;
    var artifacts := codec.parse(files[ManifestFile]).value.artifacts;
    forall e <- artifacts ensures StillThere(codec, files[e.path], Look(files, files.Keys), e.path) {
      EntryBinds(codec, files, e);
    }
    var e :| e in artifacts && e.path == n;
  }
}
