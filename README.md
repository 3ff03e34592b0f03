# bacman configuration resolver

A Dafny model of the backup-path resolver of bacman, a backup tool. A user's
configuration has a `[global]` table with an optional `default_profile`, a
`[profiles]` table of named `Profile`s, and an ordered list of `[[backup_paths]]`.
`Config::resolve_backup_paths` turns each `BackupPath` into one
`ResolvedBackupPath`:

1. The effective profile is the path's own `profile` when that name is declared.
   Otherwise it is the global `default_profile` when that name is declared.
   Otherwise there is none. A path that names an undeclared profile therefore
   falls back to the global default.
2. `backup_method`, `backup_to` and `interval` take the path's value when it is
   present and the effective profile's value otherwise.
3. `encrypt` is the path's `encrypt` (absent counts as `false`) OR the profile's.
4. `enabled` is the path's `enabled` AND the profile's, with `true` on the
   profile side when there is no profile.

Files:

- `options.dfy` (module `Options`): Rust's `Option` with the combinators the
  resolver uses (`and_then`, `or_else`, `map_or`, `unwrap_or`) and `HashMap::get`
  on a Dafny `map`.
- `config.dfy` (module `Config`): the records `GlobalConfig`, `Profile`,
  `BackupPath`, `Config` and `ResolvedBackupPath`; the resolver, written with
  the same combinators as the Rust code; and lemmas about it.

The resolver is pure, so the model is functions over datatypes, a
`map<string, Profile>` and a `seq<BackupPath>`. The iterator `map`/`collect` is
the recursive function `ResolveAll`. Its pointwise contract is what the other
properties build on.

Where the design description and the code differ, the model follows the code:

- `Profile.encrypt` is a plain `bool`, not an optional one.
- `backup_method` is a single optional string, not a list.
- `Profile` and `BackupPath` carry an `enabled` flag, which the resolver ANDs.
- `encrypt` is merged by OR, so an explicit `encrypt = false` on a path cannot
  switch off a profile's `true`. Resolved `encrypt` is a `bool`, not an option.
- An explicit profile name that is not declared falls back to the global
  default. The design says its lookup simply yields no profile.

## Model

| member | source | states |
|---|---|---|
| Config.EffectiveProfile | src/modules/config.rs:52-61 | the path's own profile when declared; else the global default when declared; else none |
| Config.ResolveOne | src/modules/config.rs:62-79 | `path` is copied; each option field is the path's value when present, else the effective profile's, else absent; `encrypt` holds iff the path says `Some(true)` or the effective profile encrypts; `enabled` holds iff the path is enabled and there is no effective profile or it is enabled |
| Config.ResolveAll | src/modules/config.rs:48-50 | as many entries as input paths, entry i being the resolution of path i |
| Config.ResolveBackupPaths | src/modules/config.rs:47-82 | total (no precondition); one entry per declared path in order, each with the path's `path` and resolved from that path |
| Config.EffectiveProfileIsDeclared | src/modules/config.rs:52-61 | a selected profile is a declared one, found under the path's own name or the global default name |
| Config.DanglingReferenceFallsBack | src/modules/config.rs:52-61 | a path that names an undeclared profile resolves exactly like the same path with no profile name |
| Config.ResolvedEqual | src/modules/config.rs:62-79 | the resolved entry is determined by the path's own fields and its effective profile |
| Config.NoProfileMirrorsPath | src/modules/config.rs:52-78 | with neither name declared, the entry is the path's own settings, `encrypt` being `path.encrypt == Some(true)` |
| Config.ExplicitOptionsIgnoreProfiles | src/modules/config.rs:66-77 | a present path option gives the same result under any two configurations |
| Config.EncryptIsOr | src/modules/config.rs:64-65 | a profile's `encrypt = true` cannot be switched off by the path; an explicit `true` always encrypts; with no profile and no explicit `true` nothing encrypts |
| Config.EnabledIsAnd | src/modules/config.rs:78 | a disabled path or a disabled effective profile disables the entry; with no profile the path's flag decides |
| Config.ResolveIsIdempotent | src/modules/config.rs:62-79 | writing a resolved entry back as explicit overrides, keeping the profile name, and resolving again yields the same entry |
| Config.ResolveAllAppend | src/modules/config.rs:48-81 | resolving a concatenation is the concatenation of the resolutions |
| Config.EntryIsLocal | src/modules/config.rs:50-80 | an entry depends only on its own path, the global table and the profiles: moving it or changing other paths leaves it unchanged |
| Config.DailyProfileExample | src/modules/config.rs:47-82 | a path naming profile "daily" with no method of its own inherits the method "local" and the profile's other options |
| Config.MissingProfileExample | src/modules/config.rs:47-82 | a path naming the undeclared profile "missing" resolves under the global default, whose `encrypt = true` overrides the path's `false` and whose `enabled = false` disables it |

## Left out

- `deserialise_config` (src/modules/config.rs:97-121): it locates the
  configuration directory, reads `config.toml`, parses TOML through serde and
  panics on failure. All of this is I/O and foreign library code.
- `src/main.rs`: wiring only. It calls a filesystem watcher that is not part of
  this model and prints. The `deserialize_config` and `extract_paths` it calls do
  not exist in `config.rs`, so neither is modelled.
- Validation (referential integrity, permitted method names, interval syntax,
  `backup_to` shape, existence checks, aggregated error messages): the code has
  no validator, so there is nothing to model it against.
- Ownership and cloning of strings (`clone`, `as_ref`): values in Dafny are
  immutable, so copies are equal to the originals.
- `HashMap` hashing and iteration order: the profiles are a Dafny `map`, and the
  resolver only looks names up in it.
