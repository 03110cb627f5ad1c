/** What the directories hold after all volumes have been set up. */
module VolumeProperties {
  import opened Collections
  import opened Volumes

  // ---------- One directory ----------

  /** A secret's directory holds, under each key, the data if the secret has data for it, and
      otherwise the decoded string data; it holds no other file of the secret. */
  lemma {:induction false} SecretDirectory(env: Env, dir: Path, s: Secret, p: Path)
    requires Decodable(env, s.stringData)
    ensures p in SecretFiles(env, dir, s) <==>
      p != [] && p[..|p| - 1] == dir && (p[|p| - 1] in s.data || p[|p| - 1] in s.stringData)
    ensures p in SecretFiles(env, dir, s) ==>
      SecretFiles(env, dir, s)[p]
        == if p[|p| - 1] in s.data then s.data[p[|p| - 1]] else env.decode(s.stringData[p[|p| - 1]]).value
  {
    PlacedAt(dir, s.data, p);
    PlacedAt(dir, Decoded(env, s.stringData), p);
  }

  /** A config map's directory holds, under each key, the binary data if there is any for it, and
      otherwise the data; it holds no other file of the config map. */
  lemma {:induction false} ConfigMapDirectory(dir: Path, c: ConfigMap, p: Path)
    ensures p in ConfigMapFiles(dir, c) <==>
      p != [] && p[..|p| - 1] == dir && (p[|p| - 1] in c.binaryData || p[|p| - 1] in c.data)
    ensures p in ConfigMapFiles(dir, c) ==>
      ConfigMapFiles(dir, c)[p] == if p[|p| - 1] in c.binaryData then c.binaryData[p[|p| - 1]] else c.data[p[|p| - 1]]
  {
    PlacedAt(dir, c.data, p);
    PlacedAt(dir, c.binaryData, p);
  }

  lemma {:induction false} PlacedAt(dir: Path, files: Files, p: Path)
    ensures p in Placed(dir, files) <==> p != [] && p[..|p| - 1] == dir && p[|p| - 1] in files
    ensures p in Placed(dir, files) ==> Placed(dir, files)[p] == files[p[|p| - 1]]
  {
    OneStepDown(dir);
    if p != [] && p[..|p| - 1] == dir {
      assert p == dir + [p[|p| - 1]];
    }
  }

  /** The item at i is in the config map and goes to the path. */
  ghost predicate Hits(dir: Path, items: seq<Item>, c: ConfigMap, p: Path, i: nat) {
    i < |items| && Selected(items[i], c) && Join(dir, items[i].path) == p
  }

  /** A projected config map's directory holds, at each path, what the last present item of that
      path selects: its binary data if the key has any, and otherwise its data. */
  lemma {:induction false} LastItemWins(dir: Path, items: seq<Item>, c: ConfigMap, p: Path, i: nat)
    requires Hits(dir, items, c, p, i) && forall j :: j > i ==> !Hits(dir, items, c, p, j)
    ensures p in ItemsFiles(dir, items, c)
    ensures ItemsFiles(dir, items, c)[p]
         == if items[i].key in c.binaryData then c.binaryData[items[i].key] else c.data[items[i].key]
  {
    var n := |items| - 1;
    if i < n {
      assert !Hits(dir, items, c, p, n);
      forall j | j > i ensures !Hits(dir, items[..n], c, p, j) {
        assert !Hits(dir, items, c, p, j);
      }
      LastItemWins(dir, items[..n], c, p, i);
    }
  }

  /** It holds nothing else. */
  lemma {:induction false} OnlyItems(dir: Path, items: seq<Item>, c: ConfigMap, p: Path)
    requires p in ItemsFiles(dir, items, c)
    ensures exists i: nat :: Hits(dir, items, c, p, i)
  {
    var n := |items| - 1;
    if p in ItemsFiles(dir, items[..n], c) {
      OnlyItems(dir, items[..n], c, p);
      var i: nat :| Hits(dir, items[..n], c, p, i);
      assert Hits(dir, items, c, p, i);
    } else {
      assert Hits(dir, items, c, p, n);
    }
  }

  // ---------- Volumes keep apart ----------

  /** A path that never steps back stays below where it starts. */
  lemma {:induction false} NoStepBackStaysBelow(dir: Path, parts: seq<string>)
    requires ".." !in parts
    ensures dir <= Resolve(dir, parts)
    decreases parts
  {
    if parts != [] {
      NoStepBackStaysBelow(if parts[0] == "" || parts[0] == "." then dir else dir + [parts[0]], parts[1..]);
    }
  }

  /** The path lies in a directory of a volume of that name. */
  predicate Under(env: Env, name: string, p: Path) {
    |env.root| + 2 <= |p| && p[..|env.root|] == env.root && p[|env.root| + 1] == name
  }

  predicate ConfinedSource(source: Source) {
    source.ProjectedConfigMap? ==> forall i :: 0 <= i < |source.items| ==> ".." !in Components(source.items[i].path)
  }

  /** The volume's name is an ordinary component and its projected paths never step back. */
  predicate Confined(v: Volume) {
    Plain(v.name) && (v.source.Projected? ==> forall i :: 0 <= i < |v.source.sources| ==> ConfinedSource(v.source.sources[i]))
  }

  lemma {:induction false} DirIs(env: Env, kind: string, name: string)
    requires Plain(kind) && Plain(name)
    ensures Dir(env, kind, name) == env.root + [kind, name]
  {
    JoinPlain(env.root, kind);
    JoinPlain(env.root + [kind], name);
    assert env.root + [kind] + [name] == env.root + [kind, name];
  }

  lemma {:induction false} BelowIsUnder(env: Env, kind: string, name: string, p: Path)
    requires Plain(kind) && Plain(name) && Dir(env, kind, name) <= p
    ensures Under(env, name, p)
  {
    DirIs(env, kind, name);
    var d := env.root + [kind, name];
    assert p[..|d|] == d;
    assert p[..|env.root|] == d[..|env.root|] && p[|env.root| + 1] == d[|env.root| + 1];
  }

  ghost predicate AllUnder(env: Env, name: string, files: map<Path, Bytes>) { forall p :: p in files ==> Under(env, name, p) }

  lemma {:induction false} PlacedUnder(env: Env, kind: string, name: string, files: Files)
    requires Plain(kind) && Plain(name)
    ensures AllUnder(env, name, Placed(Dir(env, kind, name), files))
  {
    var dir := Dir(env, kind, name);
    forall p | p in Placed(dir, files) ensures Under(env, name, p) {
      PlacedAt(dir, files, p);
      BelowIsUnder(env, kind, name, p);
    }
  }

  lemma {:induction false} SecretUnder(env: Env, name: string, s: Secret)
    requires Plain(name) && SecretEffect(env, name, s).Effect?
    ensures AllUnder(env, name, SecretEffect(env, name, s).files)
  {
    PlacedUnder(env, SECRETS, name, Decoded(env, s.stringData));
    PlacedUnder(env, SECRETS, name, s.data);
  }

  lemma {:induction false} ConfigMapUnder(env: Env, name: string, c: ConfigMap)
    requires Plain(name) && ConfigMapEffect(env, name, c).Effect?
    ensures AllUnder(env, name, ConfigMapEffect(env, name, c).files)
  {
    PlacedUnder(env, CONFIGMAPS, name, c.data);
    PlacedUnder(env, CONFIGMAPS, name, c.binaryData);
  }

  lemma {:induction false} ItemsUnder(env: Env, name: string, items: seq<Item>, c: ConfigMap)
    requires Plain(name) && forall i :: 0 <= i < |items| ==> ".." !in Components(items[i].path)
    ensures AllUnder(env, name, ItemsFiles(Dir(env, CONFIGMAPS, name), items, c))
  {
    var dir := Dir(env, CONFIGMAPS, name);
    forall p | p in ItemsFiles(dir, items, c) ensures Under(env, name, p) {
      OnlyItems(dir, items, c, p);
      var i: nat :| Hits(dir, items, c, p, i);
      NoStepBackStaysBelow(dir, Components(items[i].path));
      BelowIsUnder(env, CONFIGMAPS, name, p);
    }
  }

  lemma {:induction false} SourceUnder(env: Env, name: string, source: Source)
    requires Plain(name) && ConfinedSource(source) && SourceEffect(env, name, source).Effect?
    ensures AllUnder(env, name, SourceEffect(env, name, source).files)
  {
    match source
    case ServiceAccountToken =>
      if AccountToken(env, env.secrets.value).Some? { SecretUnder(env, name, AccountToken(env, env.secrets.value).value); }
    case ProjectedConfigMap(configMap, _, items) =>
      if env.configMap(configMap).Found? {
        ItemsUnder(env, name, items, env.configMap(configMap).value);
      }
    case OtherSource =>
  }

  lemma {:induction false} SourcesUnder(env: Env, name: string, sources: seq<Source>)
    requires Plain(name) && forall i :: 0 <= i < |sources| ==> ConfinedSource(sources[i])
    requires SourcesEffect(env, name, sources).Effect?
    ensures AllUnder(env, name, SourcesEffect(env, name, sources).files)
  {
    if sources != [] {
      SourcesUnder(env, name, sources[..|sources| - 1]);
      SourceUnder(env, name, sources[|sources| - 1]);
    }
  }

  /** A volume writes only below its own directories. */
  lemma {:induction false} VolumeUnder(env: Env, v: Volume)
    requires Confined(v) && VolumeEffect(env, v).Effect?
    ensures AllUnder(env, v.name, VolumeEffect(env, v).files)
  {
    match v.source
    case SecretSource(secretName, _) =>
      if env.secret(secretName).Found? { SecretUnder(env, v.name, env.secret(secretName).value); }
    case ConfigMapSource(configMapName, _) =>
      if env.configMap(configMapName).Found? { ConfigMapUnder(env, v.name, env.configMap(configMapName).value); }
    case Projected(sources) => SourcesUnder(env, v.name, sources);
    case HostPath =>
    case EmptyDir =>
    case Unsupported =>
  }

  ghost predicate Distinct(volumes: seq<Volume>) {
    forall i, j :: 0 <= i < j < |volumes| ==> volumes[i].name != volumes[j].name
  }

  ghost predicate DistinctConfined(volumes: seq<Volume>) {
    Distinct(volumes) && forall i :: 0 <= i < |volumes| ==> Confined(volumes[i])
  }

  /** Nothing lies under a name that no volume has. */
  lemma {:induction false} NothingUnderOtherNames(env: Env, volumes: seq<Volume>, name: string, p: Path)
    requires forall i :: 0 <= i < |volumes| ==> Confined(volumes[i]) && volumes[i].name != name
    requires Under(env, name, p)
    ensures p !in AllFiles(env, volumes)
  {
    if volumes != [] {
      var n := |volumes| - 1;
      NothingUnderOtherNames(env, volumes[..n], name, p);
      if VolumeEffect(env, volumes[n]).Effect? { VolumeUnder(env, volumes[n]); }
    }
  }

  /** However many volumes a pod has, the directory of each holds what that volume alone would
      write there, over what was there before: the others never touch it. */
  lemma {:induction false} EachVolumeHoldsItsOwn(env: Env, volumes: seq<Volume>, i: nat, p: Path)
    requires DistinctConfined(volumes) && i < |volumes|
    requires forall j :: 0 <= j < |volumes| ==> VolumeEffect(env, volumes[j]).Effect?
    requires Under(env, volumes[i].name, p)
    ensures p in AllFiles(env, volumes) <==> p in VolumeEffect(env, volumes[i]).files
    ensures p in AllFiles(env, volumes) ==> AllFiles(env, volumes)[p] == VolumeEffect(env, volumes[i]).files[p]
  {
    var n := |volumes| - 1;
    if i == n {
      NothingUnderOtherNames(env, volumes[..n], volumes[n].name, p);
    } else {
      assert volumes[..n][i] == volumes[i];
      EachVolumeHoldsItsOwn(env, volumes[..n], i, p);
      VolumeUnder(env, volumes[n]);
    }
  }

  /** The directory reported for a volume is the one its own set-up gave it. */
  lemma {:induction false} EachVolumeHasItsDirectory(env: Env, volumes: seq<Volume>, i: nat)
    requires Distinct(volumes) && i < |volumes|
    requires forall j :: 0 <= j < |volumes| ==> VolumeEffect(env, volumes[j]).Effect?
    ensures volumes[i].name in AllDirs(env, volumes) <==> VolumeEffect(env, volumes[i]).dir.Some?
    ensures volumes[i].name in AllDirs(env, volumes) ==>
      Some(AllDirs(env, volumes)[volumes[i].name]) == VolumeEffect(env, volumes[i]).dir
  {
    var n := |volumes| - 1;
    if i == n {
      NoSuchDirectory(env, volumes[..n], volumes[n].name);
    } else {
      assert volumes[..n][i] == volumes[i];
      EachVolumeHasItsDirectory(env, volumes[..n], i);
    }
  }

  lemma {:induction false} NoSuchDirectory(env: Env, volumes: seq<Volume>, name: string)
    requires forall j :: 0 <= j < |volumes| ==> volumes[j].name != name
    ensures name !in AllDirs(env, volumes)
  {
    if volumes != [] { NoSuchDirectory(env, volumes[..|volumes| - 1], name); }
  }

  // ---------- Missing objects ----------

  /** The volume names an object, and it was not found or could not be looked up. */
  predicate ObjectAbsent(env: Env, v: Volume) {
    match v.source
    case SecretSource(secretName, _) => !env.secret(secretName).Found?
    case ConfigMapSource(configMapName, _) => !env.configMap(configMapName).Found?
    case _ => false
  }

  /** The volume says that its object is not optional, and the object does not exist. */
  predicate RequiredButMissing(env: Env, v: Volume) {
    match v.source
    case SecretSource(secretName, optional) => optional == Some(false) && env.secret(secretName).NotFound?
    case ConfigMapSource(configMapName, optional) => optional == Some(false) && env.configMap(configMapName).NotFound?
    case _ => false
  }

  /** A volume without its object fails exactly when it says that the object is not optional and the
      object does not exist. Otherwise, an unset flag and a failed lookup included, it is passed over. */
  lemma {:induction false} MissingObjects(env: Env, v: Volume)
    requires ObjectAbsent(env, v)
    ensures VolumeEffect(env, v) == if RequiredButMissing(env, v) then Failure else NOTHING
  {
  }

  /** A volume that is passed over has no directory. */
  lemma {:induction false} PassedOverHasNoDirectory(env: Env, volumes: seq<Volume>, i: nat)
    requires Distinct(volumes) && i < |volumes|
    requires forall j :: 0 <= j < |volumes| ==> VolumeEffect(env, volumes[j]).Effect?
    ensures ObjectAbsent(env, volumes[i]) ==> volumes[i].name !in AllDirs(env, volumes)
  {
    EachVolumeHasItsDirectory(env, volumes, i);
    if ObjectAbsent(env, volumes[i]) { MissingObjects(env, volumes[i]); }
  }
}
