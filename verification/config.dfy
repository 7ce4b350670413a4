/**
 * Process configuration: the project registry built from the decoded
 * configuration list (loadConfig) and the settings read from the
 * environment (getEnv and init).
 */
module Config {

  /** One entry of the configuration file. An absent `restartCommands` or
      `targetQueue` is the empty list or the empty string, as Go decodes it. */
  datatype Project = Project(
    repo: string,
    dir: string,
    upCommands: seq<string>,
    downCommands: seq<string>,
    restartCommands: seq<string>,
    targetQueue: string)

  /** The lookup table from repository name to its project. */
  type Registry = map<string, Project>

  /** `reg` is what loadConfig builds from `config`: its keys are exactly the
      repositories named in the list, and each key maps to the LAST entry of
      the list with that repository (later entries overwrite earlier ones). */
  ghost predicate IsRegistryOf(config: seq<Project>, reg: Registry)
  {
    && reg.Keys == (set p | p in config :: p.repo)
    && forall i :: 0 <= i < |config| && LastFor(config, i) ==> reg[config[i].repo] == config[i]
  }

  /** No entry after index `i` names the same repository as entry `i`. */
  ghost predicate LastFor(config: seq<Project>, i: int)
    requires 0 <= i < |config|
  {
    forall j :: i < j < |config| ==> config[j].repo != config[i].repo
  }

  /** The registry the loop has built after storing the first `n` entries,
      each overwriting whatever an earlier entry stored under its name. */
  ghost function Built(config: seq<Project>, n: nat): Registry
    requires n <= |config|
  {
    if n == 0 then map[] else Built(config, n - 1)[config[n - 1].repo := config[n - 1]]
  }

  /** The keys of the registry built so far are the repositories seen so far. */
  lemma {:induction false} BuiltKeys(config: seq<Project>, n: nat)
    requires n <= |config|
    ensures Built(config, n).Keys == (set p | p in config[..n] :: p.repo)
  {
    if n > 0 {
      BuiltKeys(config, n - 1);
      assert config[..n] == config[..n - 1] + [config[n - 1]];
    }
  }

  /** An entry that no later entry (before `n`) overwrites is what its name maps to. */
  lemma {:induction false} BuiltLastWins(config: seq<Project>, n: nat, i: nat)
    requires i < n <= |config|
    requires forall j :: i < j < n ==> config[j].repo != config[i].repo
    ensures config[i].repo in Built(config, n) && Built(config, n)[config[i].repo] == config[i]
  {
    if i < n - 1 {
      BuiltLastWins(config, n - 1, i);
    }
  }

  /** The whole list's fold is its registry. */
  lemma BuiltIsRegistry(config: seq<Project>)
    ensures IsRegistryOf(config, Built(config, |config|))
  {
    BuiltKeys(config, |config|);
    assert config[..|config|] == config;
    forall i | 0 <= i < |config| && LastFor(config, i)
      ensures Built(config, |config|)[config[i].repo] == config[i]
    {
      BuiltLastWins(config, |config|, i);
    }
  }

  /** The map-building loop of loadConfig. */
  method LoadConfig(config: seq<Project>) returns (reg: Registry)
    ensures reg.Keys == (set p | p in config :: p.repo)
    ensures forall i :: 0 <= i < |config| && LastFor(config, i) ==> reg[config[i].repo] == config[i]
  {
    reg := map[];
    var i := 0;
    while i < |config|
      invariant 0 <= i <= |config|
      invariant reg == Built(config, i)
    {
      var p := config[i];
      reg := reg[p.repo := p];
      i := i + 1;
    }
    BuiltIsRegistry(config);
  }

  /** The index of the last entry at or after `from` naming `repo`, or -1. */
  function LastIndex(config: seq<Project>, repo: string, from: nat): (r: int)
    requires from <= |config|
    ensures -1 <= r < |config|
    ensures r >= 0 ==> from <= r && config[r].repo == repo && LastFor(config, r)
    ensures r < 0 ==> forall j :: from <= j < |config| ==> config[j].repo != repo
    decreases |config| - from
  {
    if from == |config| then -1
    else
      var later := LastIndex(config, repo, from + 1);
      if later >= 0 then later
      else if config[from].repo == repo then from
      else -1
  }

  /** The last-write-wins rule leaves no choice: one list has one registry. */
  lemma RegistryUnique(config: seq<Project>, r1: Registry, r2: Registry)
    requires IsRegistryOf(config, r1) && IsRegistryOf(config, r2)
    ensures r1 == r2
  {
    forall repo | repo in r1
      ensures r1[repo] == r2[repo]
    {
      var p :| p in config && p.repo == repo;
      var k :| 0 <= k < |config| && config[k] == p;
      var l := LastIndex(config, repo, 0);
      assert l >= 0;
    }
  }

  /** With no duplicate repositories, every entry of the list is found under its own name. */
  lemma DistinctReposAllPresent(config: seq<Project>, reg: Registry)
    requires IsRegistryOf(config, reg)
    requires forall i, j :: 0 <= i < j < |config| ==> config[i].repo != config[j].repo
    ensures forall i :: 0 <= i < |config| ==> config[i].repo in reg && reg[config[i].repo] == config[i]
  {
    forall i | 0 <= i < |config|
      ensures config[i].repo in reg && reg[config[i].repo] == config[i]
    {
      assert config[i] in config;
      assert LastFor(config, i);
    }
  }

  /** getEnv: the variable's value when it is set and non-empty, otherwise the
      default. An unset variable reads as the empty string, as os.Getenv does. */
  function GetEnv(env: map<string, string>, key: string, defaultValue: string): (r: string)
    ensures key in env && env[key] != "" ==> r == env[key]
    ensures !(key in env && env[key] != "") ==> r == defaultValue
    ensures r == "" ==> defaultValue == ""
  {
    var value := if key in env then env[key] else "";
    if value != "" then value else defaultValue
  }

  /** The process-wide settings that init reads from the environment. */
  datatype Settings = Settings(
    redisAddr: string,
    redisPassword: string,
    sourceList: string,
    configFile: string,
    defaultTargetQueue: string,
    httpPort: string)

  /** `value` is what getEnv gives for `key`: the variable when it is set and
      non-empty, the default otherwise. */
  ghost predicate FromEnv(env: map<string, string>, key: string, defaultValue: string, value: string)
  {
    value == if key in env && env[key] != "" then env[key] else defaultValue
  }

  /** init: each setting read from its variable, with its built-in default. */
  function Init(env: map<string, string>): (r: Settings)
    ensures FromEnv(env, "REDIS_ADDR", "localhost:6379", r.redisAddr)
    ensures FromEnv(env, "REDIS_PASSWORD", "", r.redisPassword)
    ensures FromEnv(env, "SOURCE_LIST", "service:commands", r.sourceList)
    ensures FromEnv(env, "CONFIG_FILE", "projects.json", r.configFile)
    ensures FromEnv(env, "TARGET_QUEUE", "poppit:notifications", r.defaultTargetQueue)
    ensures FromEnv(env, "PORT", "8080", r.httpPort)
  {
    Settings(
      GetEnv(env, "REDIS_ADDR", "localhost:6379"),
      GetEnv(env, "REDIS_PASSWORD", ""),
      GetEnv(env, "SOURCE_LIST", "service:commands"),
      GetEnv(env, "CONFIG_FILE", "projects.json"),
      GetEnv(env, "TARGET_QUEUE", "poppit:notifications"),
      GetEnv(env, "PORT", "8080"))
  }

  /** With nothing set, every setting takes its built-in default. */
  lemma InitDefaults()
    ensures Init(map[]) == Settings("localhost:6379", "", "service:commands", "projects.json",
                                    "poppit:notifications", "8080")
  {
  }

  /** Whatever the environment says, the default target queue is a non-empty name. */
  lemma DefaultTargetQueueNonEmpty(env: map<string, string>)
    ensures Init(env).defaultTargetQueue != ""
  {
  }
}
