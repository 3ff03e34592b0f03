/**
 * The configuration records of bacman and the resolver that turns every declared
 * backup path into its effective settings (src/modules/config.rs).
 *
 * Resolution has two stages per path: pick the effective profile (the path's own
 * profile if it names a declared one, else the global default if that names a
 * declared one, else none), then merge field by field. The three option fields
 * take the path's value when present and the profile's otherwise; `encrypt` is an
 * OR of the two sides; `enabled` is an AND, the profile side counting as `true`
 * when there is no profile.
 */
module Config {
  import opened Options

  // ---------------------------------------------------------------------------
  // Data model
  // ---------------------------------------------------------------------------

  /** The `[global]` table. */
  datatype GlobalConfig = GlobalConfig(defaultProfile: Option<string>)

  /** One entry of the `[profiles]` table: reusable defaults for backup paths. */
  datatype Profile = Profile(
    encrypt: bool,
    backupMethod: Option<string>,
    backupTo: Option<string>,
    interval: Option<string>,
    enabled: bool)

  /** One declared `[[backup_paths]]` entry, with its optional overrides. */
  datatype BackupPath = BackupPath(
    path: string,
    profile: Option<string>,
    encrypt: Option<bool>,
    backupMethod: Option<string>,
    backupTo: Option<string>,
    interval: Option<string>,
    enabled: bool)

  /** A whole parsed configuration document. */
  datatype Config = Config(
    global: GlobalConfig,
    profiles: map<string, Profile>,
    backupPaths: seq<BackupPath>)

  /** The effective settings of one backup path. */
  datatype ResolvedBackupPath = ResolvedBackupPath(
    path: string,
    encrypt: bool,
    backupMethod: Option<string>,
    backupTo: Option<string>,
    interval: Option<string>,
    enabled: bool)

  /** `name` is present and names a profile declared in `cfg`. */
  predicate Declared(cfg: Config, name: Option<string>) {
    name.Some? && name.value in cfg.profiles
  }

  // ---------------------------------------------------------------------------
  // Resolver
  // ---------------------------------------------------------------------------

  /**
   * The profile whose defaults apply to `bp`: `path.profile.and_then(get)`,
   * falling back with `or_else` to `default_profile.and_then(get)`.
   */
  function EffectiveProfile(cfg: Config, bp: BackupPath): (r: Option<Profile>)
    ensures Declared(cfg, bp.profile) ==> r == Some(cfg.profiles[bp.profile.value])
    ensures !Declared(cfg, bp.profile) && Declared(cfg, cfg.global.defaultProfile) ==>
              r == Some(cfg.profiles[cfg.global.defaultProfile.value])
    ensures !Declared(cfg, bp.profile) && !Declared(cfg, cfg.global.defaultProfile) ==>
              r == None
  {
    bp.profile
      .AndThen((p: string) => Get(cfg.profiles, p))
      .OrElse(() => cfg.global.defaultProfile.AndThen((d: string) => Get(cfg.profiles, d)))
  }

  /** The body of the closure that `resolve_backup_paths` maps over the paths. */
  function ResolveOne(cfg: Config, bp: BackupPath): (r: ResolvedBackupPath)
    ensures r.path == bp.path
    // backup_method, backup_to, interval: the path's own value wins ...
    ensures bp.backupMethod.Some? ==> r.backupMethod == bp.backupMethod
    ensures bp.backupTo.Some? ==> r.backupTo == bp.backupTo
    ensures bp.interval.Some? ==> r.interval == bp.interval
    // ... otherwise the effective profile's value ...
    ensures bp.backupMethod.None? && EffectiveProfile(cfg, bp).Some? ==>
              r.backupMethod == EffectiveProfile(cfg, bp).value.backupMethod
    ensures bp.backupTo.None? && EffectiveProfile(cfg, bp).Some? ==>
              r.backupTo == EffectiveProfile(cfg, bp).value.backupTo
    ensures bp.interval.None? && EffectiveProfile(cfg, bp).Some? ==>
              r.interval == EffectiveProfile(cfg, bp).value.interval
    // ... and nothing at all when there is no effective profile
    ensures bp.backupMethod.None? && EffectiveProfile(cfg, bp).None? ==> r.backupMethod.None?
    ensures bp.backupTo.None? && EffectiveProfile(cfg, bp).None? ==> r.backupTo.None?
    ensures bp.interval.None? && EffectiveProfile(cfg, bp).None? ==> r.interval.None?
    // encrypt: either side may switch it on
    ensures r.encrypt <==>
              bp.encrypt == Some(true) ||
              (EffectiveProfile(cfg, bp).Some? && EffectiveProfile(cfg, bp).value.encrypt)
    // enabled: both sides must allow it
    ensures r.enabled <==>
              bp.enabled &&
              (EffectiveProfile(cfg, bp).None? || EffectiveProfile(cfg, bp).value.enabled)
  {
    var profile := EffectiveProfile(cfg, bp);
    ResolvedBackupPath(
      path := bp.path,
      encrypt := bp.encrypt.UnwrapOr(false) || profile.MapOr(false, (p: Profile) => p.encrypt),
      backupMethod := bp.backupMethod.OrElse(() => profile.AndThen((p: Profile) => p.backupMethod)),
      backupTo := bp.backupTo.OrElse(() => profile.AndThen((p: Profile) => p.backupTo)),
      interval := bp.interval.OrElse(() => profile.AndThen((p: Profile) => p.interval)),
      enabled := bp.enabled && profile.MapOr(true, (p: Profile) => p.enabled))
  }

  /** `paths.iter().map(...).collect()`: resolve every path, keeping the order. */
  function ResolveAll(cfg: Config, paths: seq<BackupPath>): (r: seq<ResolvedBackupPath>)
    ensures |r| == |paths|
    ensures forall i :: 0 <= i < |paths| ==> r[i] == ResolveOne(cfg, paths[i])
  {
    if paths == [] then [] else [ResolveOne(cfg, paths[0])] + ResolveAll(cfg, paths[1..])
  }

  /**
   * `Config::resolve_backup_paths`: one resolved entry per declared path, in
   * declaration order. It has no precondition: every configuration resolves,
   * dangling profile references included.
   */
  function ResolveBackupPaths(cfg: Config): (r: seq<ResolvedBackupPath>)
    ensures |r| == |cfg.backupPaths|
    ensures forall i :: 0 <= i < |r| ==>
              r[i].path == cfg.backupPaths[i].path && r[i] == ResolveOne(cfg, cfg.backupPaths[i])
  {
    ResolveAll(cfg, cfg.backupPaths)
  }

  // ---------------------------------------------------------------------------
  // Properties of the resolver
  // ---------------------------------------------------------------------------

  /** A selected profile is always one declared in the configuration, under the
      path's own name or the global default. */
  lemma EffectiveProfileIsDeclared(cfg: Config, bp: BackupPath)
    ensures EffectiveProfile(cfg, bp).Some? ==>
              exists n :: n in cfg.profiles && cfg.profiles[n] == EffectiveProfile(cfg, bp).value &&
                          (bp.profile == Some(n) || cfg.global.defaultProfile == Some(n))
  {
    if Declared(cfg, bp.profile) {
      assert cfg.profiles[bp.profile.value] == EffectiveProfile(cfg, bp).value;
    } else if Declared(cfg, cfg.global.defaultProfile) {
      var d := cfg.global.defaultProfile.value;
      assert cfg.profiles[d] == EffectiveProfile(cfg, bp).value;
    }
  }

  /** A path whose explicit profile is not declared resolves exactly as if it named
      no profile: it silently falls back to the global default. */
  lemma DanglingReferenceFallsBack(cfg: Config, bp: BackupPath)
    requires bp.profile.Some? && bp.profile.value !in cfg.profiles
    ensures EffectiveProfile(cfg, bp) == EffectiveProfile(cfg, bp.(profile := None))
    ensures ResolveOne(cfg, bp) == ResolveOne(cfg, bp.(profile := None))
  {
    var bp' := bp.(profile := None);
    assert EffectiveProfile(cfg, bp) == EffectiveProfile(cfg, bp');
    ResolvedEqual(cfg, bp, cfg, bp');
  }

  /** Two paths that agree on their own fields and get the same effective profile
      resolve to the same entry. */
  lemma ResolvedEqual(cfg: Config, bp: BackupPath, cfg': Config, bp': BackupPath)
    requires bp.path == bp'.path && bp.encrypt == bp'.encrypt && bp.enabled == bp'.enabled
    requires bp.backupMethod == bp'.backupMethod && bp.backupTo == bp'.backupTo
    requires bp.interval == bp'.interval
    requires EffectiveProfile(cfg, bp) == EffectiveProfile(cfg', bp')
    ensures ResolveOne(cfg, bp) == ResolveOne(cfg', bp')
  {
  }

  /** With no effective profile the result mirrors the path's own settings, an
      absent `encrypt` counting as `false`. */
  lemma NoProfileMirrorsPath(cfg: Config, bp: BackupPath)
    requires !Declared(cfg, bp.profile) && !Declared(cfg, cfg.global.defaultProfile)
    ensures ResolveOne(cfg, bp) ==
              ResolvedBackupPath(bp.path, bp.encrypt == Some(true), bp.backupMethod,
                                 bp.backupTo, bp.interval, bp.enabled)
  {
  }

  /** Explicit path options do not depend on the profiles at all. */
  lemma ExplicitOptionsIgnoreProfiles(cfg: Config, cfg': Config, bp: BackupPath)
    ensures bp.backupMethod.Some? ==> ResolveOne(cfg, bp).backupMethod == ResolveOne(cfg', bp).backupMethod
    ensures bp.backupTo.Some? ==> ResolveOne(cfg, bp).backupTo == ResolveOne(cfg', bp).backupTo
    ensures bp.interval.Some? ==> ResolveOne(cfg, bp).interval == ResolveOne(cfg', bp).interval
  {
  }

  /** An explicit `encrypt = false` on the path cannot switch off a profile's
      `encrypt = true`; an explicit `true` always wins. */
  lemma EncryptIsOr(cfg: Config, bp: BackupPath)
    ensures EffectiveProfile(cfg, bp).Some? && EffectiveProfile(cfg, bp).value.encrypt ==>
              ResolveOne(cfg, bp).encrypt
    ensures bp.encrypt == Some(true) ==> ResolveOne(cfg, bp).encrypt
    ensures bp.encrypt != Some(true) && EffectiveProfile(cfg, bp).None? ==> !ResolveOne(cfg, bp).encrypt
  {
  }

  /** A path that is disabled itself, or whose effective profile is disabled, is
      disabled; with no profile the path's own flag decides. */
  lemma EnabledIsAnd(cfg: Config, bp: BackupPath)
    ensures !bp.enabled ==> !ResolveOne(cfg, bp).enabled
    ensures EffectiveProfile(cfg, bp).Some? && !EffectiveProfile(cfg, bp).value.enabled ==>
              !ResolveOne(cfg, bp).enabled
    ensures EffectiveProfile(cfg, bp).None? ==> ResolveOne(cfg, bp).enabled == bp.enabled
  {
  }

  /** The path-level view of a resolved entry: its settings written back as explicit
      overrides, keeping the path's profile reference. */
  function AsOverrides(bp: BackupPath, r: ResolvedBackupPath): BackupPath {
    BackupPath(r.path, bp.profile, Some(r.encrypt), r.backupMethod, r.backupTo, r.interval, r.enabled)
  }

  /** Resolution is a fixed point: writing a resolved entry back as explicit
      overrides and resolving again under the same configuration changes nothing. */
  lemma ResolveIsIdempotent(cfg: Config, bp: BackupPath)
    ensures ResolveOne(cfg, AsOverrides(bp, ResolveOne(cfg, bp))) == ResolveOne(cfg, bp)
  {
    var r := ResolveOne(cfg, bp);
    var bp' := AsOverrides(bp, r);
    assert EffectiveProfile(cfg, bp') == EffectiveProfile(cfg, bp);
  }

  /** Resolving a concatenation is concatenating the resolutions. */
  lemma {:induction false} ResolveAllAppend(cfg: Config, a: seq<BackupPath>, b: seq<BackupPath>)
    ensures ResolveAll(cfg, a + b) == ResolveAll(cfg, a) + ResolveAll(cfg, b)
  {
    if a == [] {
      assert a + b == b;
    } else {
      assert (a + b)[1..] == a[1..] + b;
      ResolveAllAppend(cfg, a[1..], b);
    }
  }

  /**
   * Each entry depends only on its own path, the global table and the profiles:
   * reordering the paths or changing the other entries leaves it unchanged.
   */
  lemma EntryIsLocal(cfg: Config, cfg': Config, i: nat, j: nat)
    requires cfg.global == cfg'.global && cfg.profiles == cfg'.profiles
    requires i < |cfg.backupPaths| && j < |cfg'.backupPaths|
    requires cfg.backupPaths[i] == cfg'.backupPaths[j]
    ensures ResolveBackupPaths(cfg)[i] == ResolveBackupPaths(cfg')[j]
  {
    var bp := cfg.backupPaths[i];
    assert EffectiveProfile(cfg, bp) == EffectiveProfile(cfg', bp);
    ResolvedEqual(cfg, bp, cfg', bp);
  }

  // ---------------------------------------------------------------------------
  // Worked examples
  // ---------------------------------------------------------------------------

  /** A path that names profile "daily" and sets no method of its own inherits the
      profile's method "local". */
  lemma DailyProfileExample()
    ensures
      var daily := Profile(false, Some("local"), Some("/mnt/backup"), Some("1d"), true);
      var bp := BackupPath("/home/me/docs", Some("daily"), None, None, None, None, true);
      var cfg := Config(GlobalConfig(None), map["daily" := daily], [bp]);
      ResolveBackupPaths(cfg) ==
        [ResolvedBackupPath("/home/me/docs", false, Some("local"), Some("/mnt/backup"), Some("1d"), true)]
  {
    var daily := Profile(false, Some("local"), Some("/mnt/backup"), Some("1d"), true);
    var bp := BackupPath("/home/me/docs", Some("daily"), None, None, None, None, true);
    var cfg := Config(GlobalConfig(None), map["daily" := daily], [bp]);
    assert Declared(cfg, bp.profile);
  }

  /** A path that names an undeclared profile "missing" still resolves; it takes the
      global default "weekly" instead, including its disabled flag. */
  lemma MissingProfileExample()
    ensures
      var weekly := Profile(true, Some("git"), Some("git@host:repo"), Some("7d"), false);
      var bp := BackupPath("/etc", Some("missing"), Some(false), None, None, Some("5h"), true);
      var cfg := Config(GlobalConfig(Some("weekly")), map["weekly" := weekly], [bp]);
      ResolveBackupPaths(cfg) ==
        [ResolvedBackupPath("/etc", true, Some("git"), Some("git@host:repo"), Some("5h"), false)]
  {
    var weekly := Profile(true, Some("git"), Some("git@host:repo"), Some("7d"), false);
    var bp := BackupPath("/etc", Some("missing"), Some(false), None, None, Some("5h"), true);
    var cfg := Config(GlobalConfig(Some("weekly")), map["weekly" := weekly], [bp]);
    assert !Declared(cfg, bp.profile);
    assert Declared(cfg, cfg.global.defaultProfile);
  }
}
