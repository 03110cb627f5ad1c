/** Where a pod's volumes lie once all have been set up, what is there, and when setting them up fails. */
module VolumeDirectories {
  import opened Collections
  import opened Volumes
  import opened VolumeProperties

  ghost predicate AllSetUp(env: Env, volumes: seq<Volume>) {
    forall j :: 0 <= j < |volumes| ==> VolumeEffect(env, volumes[j]).Effect?
  }

  /** The directory is reported for the volume, or none is. */
  ghost predicate Reports(env: Env, volumes: seq<Volume>, name: string, dir: Option<Path>) {
    var dirs := AllDirs(env, volumes);
    match dir case None => name !in dirs case Some(d) => name in dirs && dirs[name] == d
  }

  lemma {:induction false} ReportsItsOwn(env: Env, volumes: seq<Volume>, i: nat)
    requires Distinct(volumes) && AllSetUp(env, volumes) && i < |volumes|
    ensures Reports(env, volumes, volumes[i].name, VolumeEffect(env, volumes[i]).dir)
  {
    EachVolumeHasItsDirectory(env, volumes, i);
  }

  // ---------- The directory reported ----------

  lemma {:induction false} SecretPlace(env: Env, name: string, s: Secret)
    requires Plain(name) && SecretEffect(env, name, s).Effect?
    ensures SecretEffect(env, name, s).dir == Some(env.root + ["secrets", name])
    ensures SecretEffect(env, name, s).files == SecretFiles(env, env.root + ["secrets", name], s)
  {
    DirIs(env, SECRETS, name);
  }

  lemma {:induction false} ConfigMapPlace(env: Env, name: string, c: ConfigMap)
    requires Plain(name) && ConfigMapEffect(env, name, c).Effect?
    ensures ConfigMapEffect(env, name, c).dir == Some(env.root + ["configmaps", name])
    ensures ConfigMapEffect(env, name, c).files == ConfigMapFiles(env.root + ["configmaps", name], c)
  {
    DirIs(env, CONFIGMAPS, name);
  }

  lemma {:induction false} ItemsPlace(env: Env, name: string, items: seq<Item>, c: ConfigMap)
    requires Plain(name) && ItemsEffect(env, name, items, c).Effect?
    ensures ItemsEffect(env, name, items, c).dir == Some(env.root + ["configmaps", name])
    ensures ItemsEffect(env, name, items, c).files == ItemsFiles(env.root + ["configmaps", name], items, c)
  {
    DirIs(env, CONFIGMAPS, name);
  }

  /** A volume's directory is the directory of its name in the directory of its kind; a host path's is
      the empty path; a volume whose object was not there has none. */
  lemma {:induction false} DirectoryByKind(env: Env, volumes: seq<Volume>, i: nat)
    requires Distinct(volumes) && AllSetUp(env, volumes) && i < |volumes| && Plain(volumes[i].name)
    ensures var name := volumes[i].name;
      match volumes[i].source
      case HostPath => Reports(env, volumes, name, Some([]))
      case EmptyDir => Reports(env, volumes, name, Some(env.root + ["emptydirs", name]))
      case SecretSource(secretName, _) =>
        Reports(env, volumes, name, if env.secret(secretName).Found? then Some(env.root + ["secrets", name]) else None)
      case ConfigMapSource(configMapName, _) =>
        Reports(env, volumes, name, if env.configMap(configMapName).Found? then Some(env.root + ["configmaps", name]) else None)
      case _ => true
  {
    ReportsItsOwn(env, volumes, i);
    match volumes[i].source
    case EmptyDir => DirIs(env, EMPTYDIRS, volumes[i].name);
    case SecretSource(secretName, _) =>
      if env.secret(secretName).Found? { SecretPlace(env, volumes[i].name, env.secret(secretName).value); }
    case ConfigMapSource(configMapName, _) =>
      if env.configMap(configMapName).Found? { ConfigMapPlace(env, volumes[i].name, env.configMap(configMapName).value); }
    case _ =>
  }

  /** The secret holds a token, and is annotated with the pod's service account. */
  predicate HoldsTokenOf(s: Secret, account: string) {
    && s.isToken && "kubernetes.io/service-account.name" in s.annotations
    && s.annotations["kubernetes.io/service-account.name"] == account
  }

  /** The first secret of the list that does. */
  ghost predicate FirstToken(secrets: seq<Secret>, account: string, j: nat) {
    j < |secrets| && HoldsTokenOf(secrets[j], account) && forall k :: 0 <= k < j ==> !HoldsTokenOf(secrets[k], account)
  }

  lemma {:induction false} AccountTokenIsFirst(env: Env, secrets: seq<Secret>)
    ensures AccountToken(env, secrets).None? <==> forall k :: 0 <= k < |secrets| ==> !HoldsTokenOf(secrets[k], env.serviceAccount)
    ensures AccountToken(env, secrets).Some? ==>
      exists j: nat :: FirstToken(secrets, env.serviceAccount, j) && AccountToken(env, secrets) == Some(secrets[j])
  {
    if secrets != [] {
      if HoldsTokenOf(secrets[0], env.serviceAccount) {
        assert FirstToken(secrets, env.serviceAccount, 0);
      } else {
        AccountTokenIsFirst(env, secrets[1..]);
        if AccountToken(env, secrets).Some? {
          var j: nat :| FirstToken(secrets[1..], env.serviceAccount, j) && AccountToken(env, secrets[1..]) == Some(secrets[1..][j]);
          forall k | 0 <= k < j + 1 ensures !HoldsTokenOf(secrets[k], env.serviceAccount) {
            if k > 0 { assert secrets[1..][k - 1] == secrets[k]; }
          }
          assert FirstToken(secrets, env.serviceAccount, j + 1);
        } else {
          forall k | 0 <= k < |secrets| ensures !HoldsTokenOf(secrets[k], env.serviceAccount) {
            if k > 0 { assert secrets[1..][k - 1] == secrets[k]; }
          }
        }
      }
    }
  }

  /** The kind of directory a source of a projected volume gives it, if what it asks for is there. */
  ghost function GivenKind(env: Env, source: Source): Option<string> {
    match source
    case ServiceAccountToken =>
      if env.secrets.Some? && exists k :: 0 <= k < |env.secrets.value| && HoldsTokenOf(env.secrets.value[k], env.serviceAccount)
      then Some("secrets") else None
    case ProjectedConfigMap(name, _, _) => if env.configMap(name).Found? then Some("configmaps") else None
    case OtherSource => None
  }

  lemma {:induction false} SourceDirectory(env: Env, name: string, source: Source)
    requires Plain(name) && SourceEffect(env, name, source).Effect?
    ensures SourceEffect(env, name, source).dir
         == match GivenKind(env, source) case None => None case Some(kind) => Some(env.root + [kind, name])
    ensures GivenKind(env, source).None? ==> SourceEffect(env, name, source) == NOTHING
  {
    match source
    case ServiceAccountToken =>
      AccountTokenIsFirst(env, env.secrets.value);
      if AccountToken(env, env.secrets.value).Some? { SecretPlace(env, name, AccountToken(env, env.secrets.value).value); }
    case ProjectedConfigMap(configMap, _, items) =>
      if env.configMap(configMap).Found? { ItemsPlace(env, name, items, env.configMap(configMap).value); }
    case OtherSource =>
  }

  /** The sources after the n-th give nothing. */
  ghost predicate LastGiving(env: Env, sources: seq<Source>, n: nat) {
    n < |sources| && GivenKind(env, sources[n]).Some? && forall j :: n < j < |sources| ==> GivenKind(env, sources[j]).None?
  }

  lemma {:induction false} LastSourceDecides(env: Env, name: string, sources: seq<Source>, n: nat)
    requires Plain(name) && SourcesEffect(env, name, sources).Effect? && LastGiving(env, sources, n)
    ensures SourceEffect(env, name, sources[n]).Effect?
    ensures SourcesEffect(env, name, sources).dir == SourceEffect(env, name, sources[n]).dir
    ensures forall p :: p in SourceEffect(env, name, sources[n]).files ==>
      && p in SourcesEffect(env, name, sources).files
      && SourcesEffect(env, name, sources).files[p] == SourceEffect(env, name, sources[n]).files[p]
  {
    var front, last := sources[..|sources| - 1], sources[|sources| - 1];
    SourceDirectory(env, name, last);
    if n < |front| {
      assert front[n] == sources[n];
      ThenNothing(SourcesEffect(env, name, front));
      LastSourceDecides(env, name, front, n);
    } else {
      ThenWins(SourcesEffect(env, name, front), SourceEffect(env, name, last));
    }
  }

  lemma {:induction false} ThenNothing(first: Effect)
    ensures Then(first, NOTHING) == first
  {
    if first.Effect? { AddNothing(first.files); }
  }

  lemma {:induction false} ThenWins(first: Effect, second: Effect)
    requires first.Effect? && second.Effect? && second.dir.Some?
    ensures Then(first, second).Effect? && Then(first, second).dir == second.dir
    ensures forall p :: p in second.files ==> p in Then(first, second).files && Then(first, second).files[p] == second.files[p]
  {
  }

  /** A projected volume's directory is that of the last of its sources to give one. */
  lemma {:induction false} ProjectedDirectory(env: Env, volumes: seq<Volume>, i: nat, n: nat)
    requires Distinct(volumes) && AllSetUp(env, volumes) && i < |volumes| && Plain(volumes[i].name)
    requires volumes[i].source.Projected? && LastGiving(env, volumes[i].source.sources, n)
    ensures Reports(env, volumes, volumes[i].name,
      Some(env.root + [GivenKind(env, volumes[i].source.sources[n]).value, volumes[i].name]))
  {
    ReportsItsOwn(env, volumes, i);
    LastSourceDecides(env, volumes[i].name, volumes[i].source.sources, n);
    SourceDirectory(env, volumes[i].name, volumes[i].source.sources[n]);
  }

  // ---------- What is in it ----------

  ghost predicate Holds(env: Env, volumes: seq<Volume>, p: Path, bytes: Option<Bytes>) {
    var files := AllFiles(env, volumes);
    match bytes case None => p !in files case Some(b) => p in files && files[p] == b
  }

  lemma {:induction false} HoldsItsOwn(env: Env, volumes: seq<Volume>, i: nat, kind: string, rest: Path)
    requires DistinctConfined(volumes) && AllSetUp(env, volumes) && i < |volumes|
    ensures var p := env.root + [kind, volumes[i].name] + rest; var own := VolumeEffect(env, volumes[i]).files;
      Holds(env, volumes, p, if p in own then Some(own[p]) else None)
  {
    var p := env.root + [kind, volumes[i].name] + rest;
    assert p[..|env.root|] == env.root && p[|env.root| + 1] == volumes[i].name;
    EachVolumeHoldsItsOwn(env, volumes, i, p);
  }

  lemma {:induction false} LastStep(dir: Path, k: string)
    ensures (dir + [k])[..|dir + [k]| - 1] == dir && (dir + [k])[|dir + [k]| - 1] == k
  {
  }

  /** In the directory of a config map volume lies, under each key, the binary data, or else the data. */
  lemma {:induction false} ConfigMapOnDisk(env: Env, volumes: seq<Volume>, i: nat, k: string)
    requires DistinctConfined(volumes) && AllSetUp(env, volumes) && i < |volumes| && volumes[i].source.ConfigMapSource?
    requires env.configMap(volumes[i].source.configMapName).Found?
    ensures var c := env.configMap(volumes[i].source.configMapName).value;
      Holds(env, volumes, env.root + ["configmaps", volumes[i].name] + [k],
        if k in c.binaryData then Some(c.binaryData[k]) else if k in c.data then Some(c.data[k]) else None)
  {
    var name, c := volumes[i].name, env.configMap(volumes[i].source.configMapName).value;
    var dir := env.root + ["configmaps", name];
    HoldsItsOwn(env, volumes, i, "configmaps", [k]);
    ConfigMapPlace(env, name, c);
    LastStep(dir, k);
    ConfigMapDirectory(dir, c, dir + [k]);
  }

  /** In that of a secret volume, the data, or else the decoded string data. */
  lemma {:induction false} SecretOnDisk(env: Env, volumes: seq<Volume>, i: nat, k: string)
    requires DistinctConfined(volumes) && AllSetUp(env, volumes) && i < |volumes| && volumes[i].source.SecretSource?
    requires env.secret(volumes[i].source.secretName).Found?
    ensures var s := env.secret(volumes[i].source.secretName).value;
      Holds(env, volumes, env.root + ["secrets", volumes[i].name] + [k],
        if k in s.data then Some(s.data[k]) else if k in s.stringData then env.decode(s.stringData[k]) else None)
  {
    var name, s := volumes[i].name, env.secret(volumes[i].source.secretName).value;
    var dir := env.root + ["secrets", name];
    HoldsItsOwn(env, volumes, i, "secrets", [k]);
    SecretPlace(env, name, s);
    LastStep(dir, k);
    SecretDirectory(env, dir, s, dir + [k]);
  }

  /** The item is in the config map, and no later one that is goes to the same path. */
  ghost predicate LastHit(dir: Path, items: seq<Item>, c: ConfigMap, h: nat) {
    && h < |items| && (items[h].key in c.data || items[h].key in c.binaryData)
    && forall j :: h < j < |items| ==>
        !(items[j].key in c.data || items[j].key in c.binaryData) || Join(dir, items[j].path) != Join(dir, items[h].path)
  }

  /** In that of a projected volume whose last giving source is a config map, at each item's path what the
      last present item of that path selects. */
  lemma {:induction false} ProjectedOnDisk(env: Env, volumes: seq<Volume>, i: nat, n: nat, h: nat)
    requires DistinctConfined(volumes) && AllSetUp(env, volumes) && i < |volumes|
    requires volumes[i].source.Projected? && LastGiving(env, volumes[i].source.sources, n)
    requires volumes[i].source.sources[n].ProjectedConfigMap?
    requires var source := volumes[i].source.sources[n];
      LastHit(env.root + ["configmaps", volumes[i].name], source.items, env.configMap(source.name).value, h)
    ensures var source := volumes[i].source.sources[n]; var c := env.configMap(source.name).value;
      var key := source.items[h].key;
      Holds(env, volumes, Join(env.root + ["configmaps", volumes[i].name], source.items[h].path),
        Some(if key in c.binaryData then c.binaryData[key] else c.data[key]))
  {
    var name, source := volumes[i].name, volumes[i].source.sources[n];
    var dir, items, c := env.root + ["configmaps", name], source.items, env.configMap(source.name).value;
    var p := Join(dir, items[h].path);
    LastSourceDecides(env, name, volumes[i].source.sources, n);
    ItemsPlace(env, name, items, c);
    LastHitWins(dir, items, c, h);
    assert p in VolumeEffect(env, volumes[i]).files;
    VolumeUnder(env, volumes[i]);
    EachVolumeHoldsItsOwn(env, volumes, i, p);
  }

  lemma {:induction false} LastHitWins(dir: Path, items: seq<Item>, c: ConfigMap, h: nat)
    requires LastHit(dir, items, c, h)
    ensures var p := Join(dir, items[h].path);
      && p in ItemsFiles(dir, items, c)
      && ItemsFiles(dir, items, c)[p] == if items[h].key in c.binaryData then c.binaryData[items[h].key] else c.data[items[h].key]
  {
    var p := Join(dir, items[h].path);
    forall j | j > h ensures !Hits(dir, items, c, p, j) {
      if j < |items| { assert !(items[j].key in c.data || items[j].key in c.binaryData) || Join(dir, items[j].path) != p; }
    }
    LastItemWins(dir, items, c, p, h);
  }

  // ---------- When it fails ----------

  /** One of the two directories of a volume cannot be made. */
  predicate NoDirectory(env: Env, kind: string, name: string) {
    !env.creatable(env.root + [kind]) || !env.creatable(env.root + [kind, name])
  }

  /** Some key cannot be written in the directory. */
  predicate Unwritable(env: Env, dir: Path, keys: set<string>) { exists k :: k in keys && !env.writable(dir + [k]) }

  /** Setting up a secret fails exactly if a directory cannot be made, some string data cannot be decoded,
      or some key cannot be written. */
  lemma {:induction false} SecretFailsIff(env: Env, name: string, s: Secret)
    requires Plain(name)
    ensures SecretEffect(env, name, s).Failure? <==>
      || NoDirectory(env, "secrets", name)
      || (exists k :: k in s.stringData && env.decode(s.stringData[k]).None?)
      || Unwritable(env, env.root + ["secrets", name], s.stringData.Keys + s.data.Keys)
  {
    JoinPlain(env.root, SECRETS);
    DirIs(env, SECRETS, name);
    UnwritableBoth(env, env.root + ["secrets", name], s.stringData.Keys, s.data.Keys);
  }

  lemma {:induction false} UnwritableBoth(env: Env, dir: Path, some: set<string>, more: set<string>)
    ensures Unwritable(env, dir, some + more) <==> !Writable(env, dir, some) || !Writable(env, dir, more)
  {
  }

  /** Setting up a config map, exactly if a directory cannot be made or some key cannot be written. */
  lemma {:induction false} ConfigMapFailsIff(env: Env, name: string, c: ConfigMap)
    requires Plain(name)
    ensures ConfigMapEffect(env, name, c).Failure? <==>
      NoDirectory(env, "configmaps", name) || Unwritable(env, env.root + ["configmaps", name], c.data.Keys + c.binaryData.Keys)
  {
    JoinPlain(env.root, CONFIGMAPS);
    DirIs(env, CONFIGMAPS, name);
    UnwritableBoth(env, env.root + ["configmaps", name], c.data.Keys, c.binaryData.Keys);
  }

  /** And a volume: a host path never, an empty directory if it cannot be made, a volume of an unsupported
      kind always, a secret or config map volume if its object is required and missing, or is there and
      cannot be set up. */
  lemma {:induction false} VolumeFailsIff(env: Env, v: Volume)
    requires Plain(v.name) && !v.source.Projected?
    ensures VolumeEffect(env, v).Failure? <==>
      match v.source
      case HostPath => false
      case EmptyDir => NoDirectory(env, "emptydirs", v.name)
      case SecretSource(secretName, _) =>
        RequiredButMissing(env, v) || (env.secret(secretName).Found? && SecretEffect(env, v.name, env.secret(secretName).value).Failure?)
      case ConfigMapSource(configMapName, _) =>
        RequiredButMissing(env, v)
        || (env.configMap(configMapName).Found? && ConfigMapEffect(env, v.name, env.configMap(configMapName).value).Failure?)
      case _ => true
  {
    JoinPlain(env.root, EMPTYDIRS);
    DirIs(env, EMPTYDIRS, v.name);
  }

  /** A source of a projected volume fails if the secrets cannot be listed, the account's token cannot be
      set up, or the config map is required and missing, has no directory, or has an item that cannot be written. */
  lemma {:induction false} SourceFailsIff(env: Env, name: string, source: Source)
    requires Plain(name)
    ensures SourceEffect(env, name, source).Failure? <==>
      match source
      case ServiceAccountToken =>
        || env.secrets.None?
        || exists j: nat :: FirstToken(env.secrets.value, env.serviceAccount, j) && SecretEffect(env, name, env.secrets.value[j]).Failure?
      case ProjectedConfigMap(configMap, optional, items) =>
        || (optional == Some(false) && env.configMap(configMap).NotFound?)
        || (env.configMap(configMap).Found?
            && var c := env.configMap(configMap).value;
            && (|| NoDirectory(env, "configmaps", name)
                || exists h :: 0 <= h < |items| && (items[h].key in c.data || items[h].key in c.binaryData)
                     && !env.writable(Join(env.root + ["configmaps", name], items[h].path))))
      case OtherSource => false
  {
    match source
    case ServiceAccountToken => if env.secrets.Some? { TokenFailsIff(env, name, env.secrets.value); }
    case ProjectedConfigMap(configMap, _, items) =>
      if env.configMap(configMap).Found? { ItemsFailIff(env, name, items, env.configMap(configMap).value); }
    case OtherSource =>
  }

  lemma {:induction false} TokenFailsIff(env: Env, name: string, secrets: seq<Secret>)
    ensures (AccountToken(env, secrets).Some? && SecretEffect(env, name, AccountToken(env, secrets).value).Failure?) <==>
      exists j: nat :: FirstToken(secrets, env.serviceAccount, j) && SecretEffect(env, name, secrets[j]).Failure?
  {
    AccountTokenIsFirst(env, secrets);
    forall j: nat, k: nat | FirstToken(secrets, env.serviceAccount, j) && FirstToken(secrets, env.serviceAccount, k) ensures j == k {}
  }

  lemma {:induction false} ItemsFailIff(env: Env, name: string, items: seq<Item>, c: ConfigMap)
    requires Plain(name)
    ensures ItemsEffect(env, name, items, c).Failure? <==>
      || NoDirectory(env, "configmaps", name)
      || exists h :: 0 <= h < |items| && (items[h].key in c.data || items[h].key in c.binaryData)
           && !env.writable(Join(env.root + ["configmaps", name], items[h].path))
  {
    JoinPlain(env.root, CONFIGMAPS);
    DirIs(env, CONFIGMAPS, name);
  }

  ghost predicate Any<T(!new)>(p: T -> bool, xs: seq<T>) { exists n :: 0 <= n < |xs| && p(xs[n]) }

  lemma {:induction false} AnyPush<T(!new)>(p: T -> bool, xs: seq<T>)
    requires xs != []
    ensures Any(p, xs) <==> Any(p, xs[..|xs| - 1]) || p(xs[|xs| - 1])
  {
    var front := xs[..|xs| - 1];
    forall n | 0 <= n < |front| ensures front[n] == xs[n] {}
    if n :| 0 <= n < |front| && p(front[n]) { assert p(xs[n]); }
  }

  function FailsIn(env: Env, name: string): Source -> bool { (source: Source) => SourceEffect(env, name, source).Failure? }

  /** A projected volume fails exactly if one of its sources does. */
  lemma {:induction false} SourcesFailIff(env: Env, name: string, sources: seq<Source>)
    ensures SourcesEffect(env, name, sources).Failure? <==> Any(FailsIn(env, name), sources)
  {
    if sources != [] {
      SourcesFailIff(env, name, sources[..|sources| - 1]);
      AnyPush(FailsIn(env, name), sources);
      ThenFails(SourcesEffect(env, name, sources[..|sources| - 1]), SourceEffect(env, name, sources[|sources| - 1]));
    }
  }

  lemma {:induction false} ThenFails(first: Effect, second: Effect)
    ensures Then(first, second).Failure? <==> first.Failure? || second.Failure?
  {
  }
}
