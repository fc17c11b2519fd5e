/**
 * The bot's configuration (`config.py`): the settings read from the environment at start-up and
 * the predicates other components consult. `Environment.Load` builds a `Settings` value from the
 * process environment.
 */
module Config {

  /** Capacity bounds: queue size, played-history size, back-stack size. */
  datatype Limits = Limits(maxQueue: int, maxHistory: int, maxBack: int)

  /** The bounds used when the environment sets none. */
  const DefaultLimits: Limits := Limits(100, 50, 20)

  datatype Settings = Settings(
    token: string,
    commandPrefix: string,
    sshHost: string,
    sshPort: int,
    sshUser: string,
    sshPass: string,
    allowedIds: set<int>,
    limits: Limits,
    extractTimeout: int,
    connectTimeout: int,
    keepaliveInterval: int)

  /** The settings of an empty environment except for the token. */
  function Defaults(token: string): (s: Settings)
    ensures s.token == token && s.limits == DefaultLimits
    ensures s.allowedIds == {} && s.sshPort == 22
  {
    Settings(token, "/", "", 22, "", "", {}, DefaultLimits, 30, 15, 240)
  }

  /** Start-up validation: fails on a missing token; otherwise succeeds when the state file's directory can be created. */
  function Validate(s: Settings, stateDirUsable: bool): (ok: bool)
    ensures s.token == "" ==> !ok
    ensures s.token != "" ==> (ok <==> stateDirUsable)
  {
    if s.token == "" then false else stateDirUsable
  }

  /** Access to the privileged command: everyone when the allow-list is empty, otherwise its members only. */
  predicate IsUserAllowed(s: Settings, userId: int)
    ensures s.allowedIds == {} ==> IsUserAllowed(s, userId)
    ensures s.allowedIds != {} ==> (IsUserAllowed(s, userId) <==> userId in s.allowedIds)
  {
    s.allowedIds == {} || userId in s.allowedIds
  }

  /** The remote feature is usable only when host, user and password are all set. */
  predicate IsSshEnabled(s: Settings)
    ensures IsSshEnabled(s) ==> s.sshHost != "" && s.sshUser != "" && s.sshPass != ""
    ensures s.sshHost == "" || s.sshUser == "" || s.sshPass == "" ==> !IsSshEnabled(s)
  {
    s.sshHost != "" && s.sshUser != "" && s.sshPass != ""
  }

  /** A value of the dictionary `get_ssh_config` returns. */
  datatype SshValue = Str(s: string) | Num(n: int)

  /** The SSH settings as a keyed dictionary; the four keys are always present. */
  function SshConfig(s: Settings): (m: map<string, SshValue>)
    ensures m.Keys == {"host", "port", "username", "password"}
    ensures m["host"] == Str(s.sshHost) && m["port"] == Num(s.sshPort)
    ensures m["username"] == Str(s.sshUser) && m["password"] == Str(s.sshPass)
  {
    map["host" := Str(s.sshHost), "port" := Num(s.sshPort),
        "username" := Str(s.sshUser), "password" := Str(s.sshPass)]
  }

  /**
   * An environment that sets only a token: it validates (given a usable state directory), lets
   * every user in, leaves SSH off, and still yields all four SSH keys; without the token it fails.
   */
  lemma DefaultsBehaviour(token: string, userId: int)
    requires token != ""
    ensures Validate(Defaults(token), true) && !Validate(Defaults(""), true)
    ensures IsUserAllowed(Defaults(token), userId)
    ensures !IsSshEnabled(Defaults(token))
    ensures "host" in SshConfig(Defaults(token)) && "password" in SshConfig(Defaults(token))
  {
  }

  /** The feature is on exactly when the dictionary the remote download reads has non-empty host, username and password. */
  lemma SshEnabledIffConfigComplete(s: Settings)
    ensures var m := SshConfig(s);
      IsSshEnabled(s) <==> m["host"] != Str("") && m["username"] != Str("") && m["password"] != Str("")
  {
  }
}
