/**
 * Materialising a pod's volumes as directories of files. Iteration over a map takes its keys in
 * any order; the file system, the API objects and the base64 decoder are given.
 */
module Volumes {
  import opened Collections

  /** The components of a path. */
  type Path = seq<string>

  type Bytes = seq<bv8>

  /** Joins and cleans: empty and dot components vanish, a double dot steps back. */
  function Resolve(dir: Path, parts: seq<string>): Path
    decreases parts
  {
    if parts == [] then dir
    else
      var p := parts[0];
      Resolve(if p == "" || p == "." then dir
              else if p == ".." then (if dir == [] then [] else dir[..|dir| - 1])
              else dir + [p],
              parts[1..])
  }

  /** The parts of a text between its slashes. */
  function Components(p: string): (r: seq<string>)
    ensures r != []
  {
    if p == "" then [""]
    else
      var rest := Components(p[1..]);
      if p[0] == '/' then [""] + rest else [[p[0]] + rest[0]] + rest[1..]
  }

  /** A directory joined with a text that may have slashes in it. */
  function Join(dir: Path, p: string): Path { Resolve(dir, Components(p)) }

  /** An ordinary component, as the API server requires of volume names and of keys. */
  predicate Plain(p: string) { p != "" && p != "." && p != ".." && '/' !in p }

  lemma {:induction false} OneComponent(p: string)
    requires '/' !in p
    ensures Components(p) == [p]
  {
    if p != "" {
      assert p[0] in p && forall c :: c in p[1..] ==> c in p;
      OneComponent(p[1..]);
      assert [p[0]] + p[1..] == p;
    }
  }

  /** Joining an ordinary component goes one step down. */
  lemma {:induction false} JoinPlain(dir: Path, p: string)
    requires Plain(p)
    ensures Join(dir, p) == dir + [p]
  {
    OneComponent(p);
    assert Resolve(dir, [p]) == Resolve(dir + [p], []);
  }

  /** The entries of an API object: their keys are ordinary file names. */
  type Files = m: map<string, Bytes> | forall k :: k in m ==> Plain(k)

  type Strings = m: map<string, string> | forall k :: k in m ==> Plain(k)

  datatype Secret = Secret(isToken: bool, annotations: map<string, string>, stringData: Strings, data: Files)

  datatype ConfigMap = ConfigMap(data: Files, binaryData: Files)

  datatype Lookup<T> = Found(value: T) | NotFound | LookupFailed

  datatype Item = Item(key: string, path: string)

  datatype Source =
    | ServiceAccountToken
    | ProjectedConfigMap(name: string, optional: Option<bool>, items: seq<Item>)
    | OtherSource

  datatype VolumeSource =
    | HostPath
    | EmptyDir
    | SecretSource(secretName: string, optional: Option<bool>)
    | ConfigMapSource(configMapName: string, optional: Option<bool>)
    | Projected(sources: seq<Source>)
    | Unsupported

  datatype Volume = Volume(name: string, source: VolumeSource)

  /** Everything volumes is given; root is the pod's directory. */
  datatype Env = Env(
    root: Path,
    serviceAccount: string,
    secret: string -> Lookup<Secret>,
    configMap: string -> Lookup<ConfigMap>,
    secrets: Option<seq<Secret>>,
    decode: string -> Option<Bytes>,
    creatable: Path -> bool,
    writable: Path -> bool)

  const SECRETS := "secrets"
  const CONFIGMAPS := "configmaps"
  const EMPTYDIRS := "emptydirs"
  const ACCOUNT_ANNOTATION := "kubernetes.io/service-account.name"

  function Dir(env: Env, kind: string, name: string): Path { Join(Join(env.root, kind), name) }

  // ---------- What each volume puts on disk ----------

  lemma {:induction false} OneStepDown(dir: Path)
    ensures forall k: string :: (dir + [k])[..|dir|] == dir && (dir + [k])[|dir|] == k
    ensures forall j: string, k: string :: dir + [j] == dir + [k] ==> j == k
  {
    forall j: string, k: string | dir + [j] == dir + [k] ensures j == k {
      assert (dir + [j])[|dir|] == j && (dir + [k])[|dir|] == k;
    }
  }

  function Placed(dir: Path, files: Files): map<Path, Bytes> {
    OneStepDown(dir);
    map k | k in files :: dir + [k] := files[k]
  }

  lemma {:induction false} PlacedPush(dir: Path, files: Files, k: string, data: Bytes)
    requires Plain(k)
    ensures Placed(dir, files[k := data]) == Placed(dir, files)[dir + [k] := data]
  {
    OneStepDown(dir);
  }

  lemma {:induction false} AddUpdate<K, V>(m: map<K, V>, a: map<K, V>, k: K, v: V)
    ensures (m + a)[k := v] == m + a[k := v]
  {
  }

  lemma {:induction false} AddAssoc<K, V>(m: map<K, V>, a: map<K, V>, b: map<K, V>)
    ensures (m + a) + b == m + (a + b)
  {
  }

  lemma {:induction false} AddNothing<K, V>(m: map<K, V>)
    ensures m + map[] == m
  {
  }

  /** The keys still to come, and what has been handled: one more key moves over. */
  ghost predicate Progress<V, W>(entries: map<string, V>, keys: set<string>, done: map<string, W>) {
    keys <= entries.Keys && done.Keys == entries.Keys - keys
  }

  lemma {:induction false} ProgressStep<V, W>(entries: map<string, V>, keys: set<string>, done: map<string, W>, k: string, w: W)
    requires Progress(entries, keys, done) && k in keys
    ensures Progress(entries, keys - {k}, done[k := w])
  {
  }

  ghost predicate CopiedSoFar(entries: Files, keys: set<string>, done: Files) {
    Progress(entries, keys, done) && forall k :: k in done ==> done[k] == entries[k]
  }

  lemma {:induction false} CopiedStep(entries: Files, keys: set<string>, done: Files, k: string)
    requires CopiedSoFar(entries, keys, done) && k in keys
    ensures Plain(k) && CopiedSoFar(entries, keys - {k}, done[k := entries[k]])
  {
    ProgressStep(entries, keys, done, k, entries[k]);
  }

  lemma {:induction false} CopiedAll(entries: Files, done: Files)
    requires CopiedSoFar(entries, {}, done)
    ensures done == entries
  {
  }

  ghost predicate DecodedSoFar(env: Env, entries: Strings, keys: set<string>, done: Files) {
    Progress(entries, keys, done) && forall k :: k in done ==> env.decode(entries[k]) == Some(done[k])
  }

  lemma {:induction false} DecodedStep(env: Env, entries: Strings, keys: set<string>, done: Files, k: string)
    requires DecodedSoFar(env, entries, keys, done) && k in keys && env.decode(entries[k]).Some?
    ensures Plain(k)
    ensures DecodedSoFar(env, entries, keys - {k}, done[k := env.decode(entries[k]).value])
  {
    ProgressStep(entries, keys, done, k, env.decode(entries[k]).value);
  }

  lemma {:induction false} DecodedAll(env: Env, entries: Strings, done: Files)
    requires DecodedSoFar(env, entries, {}, done)
    ensures Decodable(env, entries) && done == Decoded(env, entries) && done.Keys == entries.Keys
  {
  }

  lemma {:induction false} PlacedNothing(base: map<Path, Bytes>, dir: Path)
    ensures base + Placed(dir, map[]) == base
  {
    assert Placed(dir, map[]) == map[];
    AddNothing(base);
  }

  predicate Writable(env: Env, dir: Path, keys: set<string>) { forall k :: k in keys ==> env.writable(dir + [k]) }

  predicate Decodable(env: Env, encoded: Strings) { forall k :: k in encoded ==> env.decode(encoded[k]).Some? }

  function Decoded(env: Env, encoded: Strings): Files
    requires Decodable(env, encoded)
  {
    map k | k in encoded :: env.decode(encoded[k]).value
  }

  predicate SecretOk(env: Env, dir: Path, s: Secret) {
    Decodable(env, s.stringData) && Writable(env, dir, s.stringData.Keys) && Writable(env, dir, s.data.Keys)
  }

  /** The decoded string data, overridden by the data. */
  function SecretFiles(env: Env, dir: Path, s: Secret): map<Path, Bytes>
    requires Decodable(env, s.stringData)
  {
    Placed(dir, Decoded(env, s.stringData)) + Placed(dir, s.data)
  }

  predicate ConfigMapOk(env: Env, dir: Path, c: ConfigMap) {
    Writable(env, dir, c.data.Keys) && Writable(env, dir, c.binaryData.Keys)
  }

  /** The data, overridden by the binary data. */
  function ConfigMapFiles(dir: Path, c: ConfigMap): map<Path, Bytes> { Placed(dir, c.data) + Placed(dir, c.binaryData) }

  predicate Selected(item: Item, c: ConfigMap) { item.key in c.data || item.key in c.binaryData }

  function SelectedBytes(item: Item, c: ConfigMap): Bytes
    requires Selected(item, c)
  {
    if item.key in c.binaryData then c.binaryData[item.key] else c.data[item.key]
  }

  predicate ItemsOk(env: Env, dir: Path, items: seq<Item>, c: ConfigMap) {
    forall i :: 0 <= i < |items| && Selected(items[i], c) ==> env.writable(Join(dir, items[i].path))
  }

  /** Each item present in the config map is written to its path, in the order of the items. */
  function ItemsFiles(dir: Path, items: seq<Item>, c: ConfigMap): map<Path, Bytes> {
    if items == [] then map[]
    else
      var before, last := ItemsFiles(dir, items[..|items| - 1], c), items[|items| - 1];
      if Selected(last, c) then before[Join(dir, last.path) := SelectedBytes(last, c)] else before
  }

  /** A volume's effect: failure, or the files it writes and the directory it is given, if any. */
  datatype Effect = Failure | Effect(files: map<Path, Bytes>, dir: Option<Path>)

  const NOTHING := Effect(map[], None)

  /** Both directories, the kind's and the volume's, can be made. */
  predicate DirOk(env: Env, kind: string, name: string) {
    env.creatable(Join(env.root, kind)) && env.creatable(Dir(env, kind, name))
  }

  /** A missing object is an error only if the volume says it is not optional. */
  predicate Missing<T>(optional: Option<bool>, found: Lookup<T>) { optional == Some(false) && found.NotFound? }

  function SecretEffect(env: Env, name: string, s: Secret): Effect {
    var dir := Dir(env, SECRETS, name);
    if DirOk(env, SECRETS, name) && SecretOk(env, dir, s) then Effect(SecretFiles(env, dir, s), Some(dir)) else Failure
  }

  function ConfigMapEffect(env: Env, name: string, c: ConfigMap): Effect {
    var dir := Dir(env, CONFIGMAPS, name);
    if DirOk(env, CONFIGMAPS, name) && ConfigMapOk(env, dir, c) then Effect(ConfigMapFiles(dir, c), Some(dir)) else Failure
  }

  function ItemsEffect(env: Env, name: string, items: seq<Item>, c: ConfigMap): Effect {
    var dir := Dir(env, CONFIGMAPS, name);
    if DirOk(env, CONFIGMAPS, name) && ItemsOk(env, dir, items, c) then Effect(ItemsFiles(dir, items, c), Some(dir)) else Failure
  }

  predicate IsAccountToken(env: Env, s: Secret) {
    s.isToken && ACCOUNT_ANNOTATION in s.annotations && s.annotations[ACCOUNT_ANNOTATION] == env.serviceAccount
  }

  /** The first secret holding the pod's service account token. */
  function AccountToken(env: Env, secrets: seq<Secret>): Option<Secret> {
    if secrets == [] then None
    else if IsAccountToken(env, secrets[0]) then Some(secrets[0])
    else AccountToken(env, secrets[1..])
  }

  function SourceEffect(env: Env, name: string, source: Source): Effect {
    match source
    case ServiceAccountToken =>
      if env.secrets.None? then Failure
      else
        var token := AccountToken(env, env.secrets.value);
        if token.None? then NOTHING else SecretEffect(env, name, token.value)
    case ProjectedConfigMap(configMap, optional, items) =>
      var found := env.configMap(configMap);
      if Missing(optional, found) then Failure
      else if !found.Found? then NOTHING
      else ItemsEffect(env, name, items, found.value)
    case OtherSource => NOTHING
  }

  /** One effect after another: later files win, and the later directory if it has one. */
  function Then(first: Effect, second: Effect): Effect {
    if first.Failure? || second.Failure? then Failure
    else Effect(first.files + second.files, if second.dir.Some? then second.dir else first.dir)
  }

  function SourcesEffect(env: Env, name: string, sources: seq<Source>): Effect {
    if sources == [] then NOTHING
    else Then(SourcesEffect(env, name, sources[..|sources| - 1]), SourceEffect(env, name, sources[|sources| - 1]))
  }

  function VolumeEffect(env: Env, v: Volume): Effect {
    match v.source
    case HostPath => Effect(map[], Some([]))
    case EmptyDir =>
      if DirOk(env, EMPTYDIRS, v.name) then Effect(map[], Some(Dir(env, EMPTYDIRS, v.name))) else Failure
    case SecretSource(secretName, optional) =>
      var found := env.secret(secretName);
      if Missing(optional, found) then Failure
      else if !found.Found? then NOTHING
      else SecretEffect(env, v.name, found.value)
    case ConfigMapSource(configMapName, optional) =>
      var found := env.configMap(configMapName);
      if Missing(optional, found) then Failure
      else if !found.Found? then NOTHING
      else ConfigMapEffect(env, v.name, found.value)
    case Projected(sources) => SourcesEffect(env, v.name, sources)
    case Unsupported => Failure
  }

  /** What all the volumes write together, in their order; later volumes would win. */
  function AllFiles(env: Env, volumes: seq<Volume>): map<Path, Bytes> {
    if volumes == [] then map[]
    else
      var last := VolumeEffect(env, volumes[|volumes| - 1]);
      AllFiles(env, volumes[..|volumes| - 1]) + if last.Failure? then map[] else last.files
  }

  function AllDirs(env: Env, volumes: seq<Volume>): map<string, Path> {
    if volumes == [] then map[]
    else
      var before, v := AllDirs(env, volumes[..|volumes| - 1]), volumes[|volumes| - 1];
      var last := VolumeEffect(env, v);
      if last.Effect? && last.dir.Some? then before[v.name := last.dir.value] else before
  }

  lemma {:induction false} NextVolume(env: Env, volumes: seq<Volume>, i: nat, base: map<Path, Bytes>)
    requires i < |volumes| && VolumeEffect(env, volumes[i]).Effect?
    ensures base + AllFiles(env, volumes[..i + 1]) == base + AllFiles(env, volumes[..i]) + VolumeEffect(env, volumes[i]).files
    ensures AllDirs(env, volumes[..i + 1])
         == match VolumeEffect(env, volumes[i]).dir
            case None => AllDirs(env, volumes[..i])
            case Some(dir) => AllDirs(env, volumes[..i])[volumes[i].name := dir]
  {
    assert volumes[..i + 1][..i] == volumes[..i];
    AddAssoc(base, AllFiles(env, volumes[..i]), VolumeEffect(env, volumes[i]).files);
  }

  // ---------- The code ----------

  class Disk {
    var files: map<Path, Bytes>

    /** Renames the finished temporary file over the target. */
    method WriteFile(env: Env, dir: Path, file: string, data: Bytes) returns (ok: bool)
      modifies this
      ensures ok == env.writable(Join(dir, file))
      ensures files == if ok then old(files)[Join(dir, file) := data] else old(files)
    {
      var path := Join(dir, file);
      ok := env.writable(path);
      if ok { files := files[path := data]; }
    }

    /** One entry of a directory; base and done say what the disk holds so far. */
    method WriteEntry(env: Env, dir: Path, k: string, data: Bytes, ghost base: map<Path, Bytes>, ghost done: Files)
      returns (ok: bool)
      requires Plain(k) && files == base + Placed(dir, done)
      modifies this
      ensures ok == env.writable(dir + [k])
      ensures ok ==> files == base + Placed(dir, done[k := data])
    {
      PlacedPush(dir, done, k, data);
      AddUpdate(base, Placed(dir, done), dir + [k], data);
      JoinPlain(dir, k);
      ok := WriteFile(env, dir, k, data);
    }

    /** Ranges over a map of entries, in whatever order its keys come. */
    method WriteAll(env: Env, dir: Path, entries: Files) returns (ok: bool)
      modifies this
      ensures ok == Writable(env, dir, entries.Keys)
      ensures ok ==> files == old(files) + Placed(dir, entries)
    {
      var keys := entries.Keys;
      ghost var done: Files := map[];
      PlacedNothing(files, dir);
      while keys != {}
        invariant CopiedSoFar(entries, keys, done)
        invariant Writable(env, dir, done.Keys)
        invariant files == old(files) + Placed(dir, done)
        decreases keys
      {
        var k :| k in keys;
        CopiedStep(entries, keys, done, k);
        var written := WriteEntry(env, dir, k, entries[k], old(files), done);
        if !written { return false; }
        done := done[k := entries[k]];
        keys := keys - {k};
      }
      CopiedAll(entries, done);
      ok := true;
    }

    /** Ranges over the encoded entries, decoding each before it is written. */
    method WriteDecoded(env: Env, dir: Path, entries: Strings) returns (ok: bool)
      modifies this
      ensures ok <==> Decodable(env, entries) && Writable(env, dir, entries.Keys)
      ensures ok ==> files == old(files) + Placed(dir, Decoded(env, entries))
    {
      var keys := entries.Keys;
      ghost var done: Files := map[];
      PlacedNothing(files, dir);
      while keys != {}
        invariant DecodedSoFar(env, entries, keys, done)
        invariant Writable(env, dir, done.Keys)
        invariant files == old(files) + Placed(dir, done)
        decreases keys
      {
        var k :| k in keys;
        var data := env.decode(entries[k]);
        if data.None? { return false; }
        DecodedStep(env, entries, keys, done, k);
        var written := WriteEntry(env, dir, k, data.value, old(files), done);
        if !written { return false; }
        done := done[k := data.value];
        keys := keys - {k};
      }
      DecodedAll(env, entries, done);
      ok := true;
    }

    method WriteSecret(env: Env, name: string, s: Secret) returns (ok: bool, dir: Path)
      modifies this
      ensures ok <==> SecretEffect(env, name, s).Effect?
      ensures ok ==> Some(dir) == SecretEffect(env, name, s).dir && files == old(files) + SecretEffect(env, name, s).files
    {
      dir := Dir(env, SECRETS, name);
      if !DirOk(env, SECRETS, name) { return false, dir; }
      ok := WriteDecoded(env, dir, s.stringData);
      if !ok { return; }
      AddAssoc(old(files), Placed(dir, Decoded(env, s.stringData)), Placed(dir, s.data));
      ok := WriteAll(env, dir, s.data);
    }

    method WriteConfigMap(env: Env, name: string, c: ConfigMap) returns (ok: bool, dir: Path)
      modifies this
      ensures ok <==> ConfigMapEffect(env, name, c).Effect?
      ensures ok ==> Some(dir) == ConfigMapEffect(env, name, c).dir && files == old(files) + ConfigMapEffect(env, name, c).files
    {
      dir := Dir(env, CONFIGMAPS, name);
      if !DirOk(env, CONFIGMAPS, name) { return false, dir; }
      ok := WriteAll(env, dir, c.data);
      if !ok { return; }
      AddAssoc(old(files), Placed(dir, c.data), Placed(dir, c.binaryData));
      ok := WriteAll(env, dir, c.binaryData);
    }

    /** Ranges over a map and writes the entry of one key, if it is there. */
    method WriteKey(env: Env, dir: Path, path: string, key: string, entries: Files) returns (ok: bool)
      modifies this
      ensures ok == (key in entries ==> env.writable(Join(dir, path)))
      ensures ok ==> files == if key in entries then old(files)[Join(dir, path) := entries[key]] else old(files)
    {
      var keys := entries.Keys;
      while keys != {}
        invariant keys <= entries.Keys
        invariant key in entries && key !in keys ==> env.writable(Join(dir, path))
        invariant files == if key in entries && key !in keys then old(files)[Join(dir, path) := entries[key]] else old(files)
        decreases keys
      {
        var k :| k in keys;
        keys := keys - {k};
        if key == k {
          var written := WriteFile(env, dir, path, entries[k]);
          if !written { return false; }
        }
      }
      ok := true;
    }

    /** The body of the items loop: the two passes over the config map for one item. */
    method WriteItem(env: Env, dir: Path, item: Item, c: ConfigMap) returns (ok: bool)
      modifies this
      ensures ok == (Selected(item, c) ==> env.writable(Join(dir, item.path)))
      ensures ok ==> files == if Selected(item, c) then old(files)[Join(dir, item.path) := SelectedBytes(item, c)] else old(files)
    {
      ok := WriteKey(env, dir, item.path, item.key, c.data);
      if !ok { return; }
      ok := WriteKey(env, dir, item.path, item.key, c.binaryData);
    }

    method WriteItems(env: Env, dir: Path, items: seq<Item>, c: ConfigMap) returns (ok: bool)
      modifies this
      ensures ok == ItemsOk(env, dir, items, c)
      ensures ok ==> files == old(files) + ItemsFiles(dir, items, c)
    {
      for i := 0 to |items|
        invariant forall j :: 0 <= j < i && Selected(items[j], c) ==> env.writable(Join(dir, items[j].path))
        invariant files == old(files) + ItemsFiles(dir, items[..i], c)
      {
        assert items[..i + 1][..i] == items[..i];
        if Selected(items[i], c) {
          AddUpdate(old(files), ItemsFiles(dir, items[..i], c), Join(dir, items[i].path), SelectedBytes(items[i], c));
        }
        ok := WriteItem(env, dir, items[i], c);
        if !ok { return; }
      }
      assert items[..|items|] == items;
      ok := true;
    }

    method WriteItemsOf(env: Env, name: string, items: seq<Item>, c: ConfigMap) returns (ok: bool, dir: Path)
      modifies this
      ensures ok <==> ItemsEffect(env, name, items, c).Effect?
      ensures ok ==> Some(dir) == ItemsEffect(env, name, items, c).dir && files == old(files) + ItemsEffect(env, name, items, c).files
    {
      dir := Dir(env, CONFIGMAPS, name);
      if !DirOk(env, CONFIGMAPS, name) { return false, dir; }
      ok := WriteItems(env, dir, items, c);
    }

    method SetUpSource(env: Env, name: string, source: Source) returns (ok: bool, dir: Option<Path>)
      modifies this
      ensures ok <==> SourceEffect(env, name, source).Effect?
      ensures ok ==> dir == SourceEffect(env, name, source).dir && files == old(files) + SourceEffect(env, name, source).files
    {
      match source {
        case ServiceAccountToken =>
          if env.secrets.None? { return false, None; }
          var secrets := env.secrets.value;
          for i := 0 to |secrets|
            invariant files == old(files)
            invariant AccountToken(env, secrets[i..]) == AccountToken(env, secrets)
          {
            if !IsAccountToken(env, secrets[i]) { continue; }
            var written, d := WriteSecret(env, name, secrets[i]);
            return written, Some(d);
          }
          return true, None;
        case ProjectedConfigMap(configMap, optional, items) =>
          var found := env.configMap(configMap);
          if Missing(optional, found) { return false, None; }
          if !found.Found? { return true, None; }
          var written, d := WriteItemsOf(env, name, items, found.value);
          return written, Some(d);
        case OtherSource => return true, None;
      }
    }

    method SetUpSources(env: Env, name: string, sources: seq<Source>) returns (ok: bool, dir: Option<Path>)
      modifies this
      ensures ok <==> SourcesEffect(env, name, sources).Effect?
      ensures ok ==> dir == SourcesEffect(env, name, sources).dir && files == old(files) + SourcesEffect(env, name, sources).files
    {
      dir := None;
      AddNothing(files);
      for i := 0 to |sources|
        invariant SourcesEffect(env, name, sources[..i]).Effect?
        invariant dir == SourcesEffect(env, name, sources[..i]).dir
        invariant files == old(files) + SourcesEffect(env, name, sources[..i]).files
      {
        assert sources[..i + 1][..i] == sources[..i];
        ghost var before, this_one := SourcesEffect(env, name, sources[..i]), SourceEffect(env, name, sources[i]);
        if this_one.Effect? { AddAssoc(old(files), before.files, this_one.files); }
        var done, d := SetUpSource(env, name, sources[i]);
        if !done {
          FailedSource(env, name, sources, i);
          return false, None;
        }
        if d.Some? { dir := d; }
      }
      assert sources[..|sources|] == sources;
      ok := true;
    }

    method SetUpVolume(env: Env, v: Volume) returns (ok: bool, dir: Option<Path>)
      modifies this
      ensures ok <==> VolumeEffect(env, v).Effect?
      ensures ok ==> dir == VolumeEffect(env, v).dir && files == old(files) + VolumeEffect(env, v).files
    {
      match v.source {
        case HostPath => return true, Some([]);
        case EmptyDir =>
          if !DirOk(env, EMPTYDIRS, v.name) { return false, None; }
          return true, Some(Dir(env, EMPTYDIRS, v.name));
        case SecretSource(secretName, optional) =>
          var found := env.secret(secretName);
          if Missing(optional, found) { return false, None; }
          if !found.Found? { return true, None; }
          var written, d := WriteSecret(env, v.name, found.value);
          return written, Some(d);
        case ConfigMapSource(configMapName, optional) =>
          var found := env.configMap(configMapName);
          if Missing(optional, found) { return false, None; }
          if !found.Found? { return true, None; }
          var written, d := WriteConfigMap(env, v.name, found.value);
          return written, Some(d);
        case Projected(sources) =>
          ok, dir := SetUpSources(env, v.name, sources);
        case Unsupported => return false, None;
      }
    }

    /** Sets up every volume and returns the directory of each that has one; fails exactly when
        some volume does. */
    method Volumes(env: Env, volumes: seq<Volume>) returns (ok: bool, vol: map<string, Path>)
      modifies this
      ensures ok <==> forall i :: 0 <= i < |volumes| ==> VolumeEffect(env, volumes[i]).Effect?
      ensures ok ==> vol == AllDirs(env, volumes) && files == old(files) + AllFiles(env, volumes)
    {
      vol := map[];
      for i := 0 to |volumes|
        invariant forall j :: 0 <= j < i ==> VolumeEffect(env, volumes[j]).Effect?
        invariant vol == AllDirs(env, volumes[..i]) && files == old(files) + AllFiles(env, volumes[..i])
      {
        if VolumeEffect(env, volumes[i]).Effect? { NextVolume(env, volumes, i, old(files)); }
        var done, dir := SetUpVolume(env, volumes[i]);
        if !done { return false, map[]; }
        if dir.Some? { vol := vol[volumes[i].name := dir.value]; }
      }
      assert volumes[..|volumes|] == volumes;
      ok := true;
    }
  }

  lemma {:induction false} FailedSource(env: Env, name: string, sources: seq<Source>, i: nat)
    requires i < |sources| && SourceEffect(env, name, sources[i]).Failure?
    ensures SourcesEffect(env, name, sources).Failure?
  {
    if i < |sources| - 1 {
      assert sources[..|sources| - 1][i] == sources[i];
      FailedSource(env, name, sources[..|sources| - 1], i);
    }
  }
}
