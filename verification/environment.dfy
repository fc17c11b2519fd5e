/**
 * How `config.py` builds its settings from the process environment at import time: strings are
 * taken as they are, numbers go through `int`, and the allow-list is a comma-separated list of
 * integers. `Load` yields `None` where an `int` call raises and the import fails.
 */
module Environment {
  import opened Wrappers
  import opened Text
  import opened Decimal
  import opened Config

  /** The process environment. */
  type Vars = map<string, string>

  /** `os.getenv(key, default)`. */
  function Getenv(env: Vars, key: string, default: string): string {
    if key in env then env[key] else default
  }

  /** The variable is set to a non-empty string. */
  predicate IsSet(env: Vars, key: string) {
    key in env && env[key] != ""
  }

  /** `int(os.getenv(key, str(default)))`; `None` where `int` raises. */
  function IntSetting(env: Vars, key: string, default: int): (r: Option<int>)
    ensures key !in env ==> r == Some(default)
    ensures key in env ==> r == ParseInt(Strip(env[key]))
  {
    if key in env then ParseInt(Strip(env[key])) else Some(default)
  }

  /** Every part is an integer literal `int` accepts. */
  predicate AllIntegers(parts: seq<string>) {
    forall i :: 0 <= i < |parts| ==> ParseInt(Strip(parts[i])).Some?
  }

  /** `set(map(int, parts))`; `None` when some part is not an integer. */
  function ParseIds(parts: seq<string>): (r: Option<set<int>>)
    ensures r.Some? <==> AllIntegers(parts)
    decreases |parts|
  {
    if |parts| == 0 then Some({})
    else
      var head := ParseInt(Strip(parts[0]));
      var rest := ParseIds(parts[1..]);
      AllIntegersCons(parts);
      if head.None? || rest.None? then None else Some({head.value} + rest.value)
  }

  /** A list is all integers exactly when its head is and its tail is. */
  lemma AllIntegersCons(parts: seq<string>)
    requires |parts| > 0
    ensures AllIntegers(parts) <==> ParseInt(Strip(parts[0])).Some? && AllIntegers(parts[1..])
  {
    if ParseInt(Strip(parts[0])).Some? && AllIntegers(parts[1..]) {
      forall i | 1 <= i < |parts|
        ensures ParseInt(Strip(parts[i])).Some?
      {
        assert parts[1..][i - 1] == parts[i];
      }
    }
  }

  /** The parsed set holds exactly the values of the parts. */
  lemma {:induction false} ParseIdsMembers(parts: seq<string>, k: int)
    requires ParseIds(parts).Some?
    ensures k in ParseIds(parts).value <==> exists i :: 0 <= i < |parts| && ParseInt(Strip(parts[i])) == Some(k)
    decreases |parts|
  {
    if |parts| > 0 {
      ParseIdsMembers(parts[1..], k);
      if exists i :: 0 <= i < |parts| && ParseInt(Strip(parts[i])) == Some(k) {
        var i :| 0 <= i < |parts| && ParseInt(Strip(parts[i])) == Some(k);
        if i > 0 {
          assert parts[1..][i - 1] == parts[i];
        }
      }
      if k in ParseIds(parts[1..]).value {
        var i :| 0 <= i < |parts| - 1 && ParseInt(Strip(parts[1..][i])) == Some(k);
        assert parts[1..][i] == parts[i + 1];
      }
    }
  }

  /** `ALLOWED_IDS`: the parsed comma-separated list when the variable is set and non-empty, otherwise empty. */
  function AllowedIds(env: Vars): Option<set<int>> {
    if IsSet(env, "ALLOWED_IDS") then ParseIds(Split(env["ALLOWED_IDS"], ',')) else Some({})
  }

  /** The class attributes of `Config`, or `None` when one of the `int` conversions raises. */
  function Load(env: Vars): (r: Option<Settings>)
    ensures AllowedIds(env).None? ==> r.None?
    ensures r.Some? ==> r.value.allowedIds == AllowedIds(env).value
  {
    var port := IntSetting(env, "SSH_PORT", 22);
    var ids := AllowedIds(env);
    var maxQueue := IntSetting(env, "MAX_QUEUE_SIZE", 100);
    var maxHistory := IntSetting(env, "MAX_HISTORY_SIZE", 50);
    var maxBack := IntSetting(env, "MAX_BACK_HISTORY", 20);
    var extract := IntSetting(env, "EXTRACT_TIMEOUT", 30);
    var connect := IntSetting(env, "CONNECT_TIMEOUT", 15);
    var keepalive := IntSetting(env, "KEEPALIVE_INTERVAL", 240);
    if port.None? || ids.None? || maxQueue.None? || maxHistory.None? || maxBack.None?
       || extract.None? || connect.None? || keepalive.None? then None
    else
      Some(Settings(
        Getenv(env, "DISCORD_TOKEN", ""), Getenv(env, "COMMAND_PREFIX", "/"),
        Getenv(env, "SSH_HOST", ""), port.value, Getenv(env, "SSH_USER", ""), Getenv(env, "SSH_PASS", ""),
        ids.value, Limits(maxQueue.value, maxHistory.value, maxBack.value),
        extract.value, connect.value, keepalive.value))
  }

  /** An environment holding only the token gives exactly the documented defaults; an empty one gives them with no token. */
  lemma OnlyTokenGivesDefaults(token: string)
    ensures Load(map["DISCORD_TOKEN" := token]) == Some(Defaults(token))
    ensures Load(map[]) == Some(Defaults(""))
  {
  }

  /** Once the settings load, start-up validation passes exactly when the token is set and the state directory is usable. */
  lemma TokenDecidesStartup(env: Vars, stateDirUsable: bool)
    requires Load(env).Some?
    ensures Validate(Load(env).value, stateDirUsable) <==> IsSet(env, "DISCORD_TOKEN") && stateDirUsable
  {
  }

  /** A numeric setting that `int` rejects stops the import. */
  lemma MalformedNumberStopsStartup(token: string)
    ensures Load(map["DISCORD_TOKEN" := token, "SSH_PORT" := "ssh"]) == None
    ensures Load(map["DISCORD_TOKEN" := token, "MAX_QUEUE_SIZE" := "1e3"]) == None
  {
    assert !IsDigit('s') && !IsDigit('e');
    StripNoSpace("ssh");
    StripNoSpace("1e3");
  }

  /** The decimal forms of the ids. */
  function IdStrings(ids: seq<int>): (r: seq<string>)
    ensures |r| == |ids| && forall i :: 0 <= i < |ids| ==> r[i] == IntToString(ids[i])
  {
    seq(|ids|, i requires 0 <= i < |ids| => IntToString(ids[i]))
  }

  /** `str(k)` holds neither whitespace nor a comma. */
  lemma IntStringIsPlain(k: int)
    ensures forall j :: 0 <= j < |IntToString(k)| ==> !IsSpace(IntToString(k)[j]) && IntToString(k)[j] != ','
  {
    var s := IntToString(k);
    if k < 0 {
      assert s == "-" + NatToString(-k);
      assert forall j :: 1 <= j < |s| ==> s[j] == NatToString(-k)[j - 1];
    }
  }

  /**
   * `ALLOWED_IDS` set to a comma-separated list of ids admits exactly those users; unset or empty,
   * it admits everyone.
   */
  lemma AllowListFromEnvironment(env: Vars, ids: seq<int>, user: int)
    requires |ids| > 0 && "ALLOWED_IDS" in env && env["ALLOWED_IDS"] == Join(IdStrings(ids), ',')
    ensures AllowedIds(env) == Some(set k | k in ids)
    ensures Load(env).Some? ==> (IsUserAllowed(Load(env).value, user) <==> user in ids)
  {
    AllowListParsed(env, ids);
  }

  /** The parsing half of `AllowListFromEnvironment`. */
  lemma AllowListParsed(env: Vars, ids: seq<int>)
    requires |ids| > 0 && "ALLOWED_IDS" in env && env["ALLOWED_IDS"] == Join(IdStrings(ids), ',')
    ensures AllowedIds(env) == Some(set k | k in ids)
  {
    var parts := IdStrings(ids);
    forall i | 0 <= i < |parts|
      ensures ',' !in parts[i] && ParseInt(Strip(parts[i])) == Some(ids[i])
    {
      IntStringIsPlain(ids[i]);
      StripNoSpace(parts[i]);
      IntRoundTrip(ids[i]);
    }
    JoinSplit(parts, ',');
    assert env["ALLOWED_IDS"] != "" by {
      if env["ALLOWED_IDS"] == "" {
        assert false;
      }
    }
    assert Split(env["ALLOWED_IDS"], ',') == parts;
    ParseIdsOfParsed(parts, ids);
  }

  /** Parts that parse one by one to the ids parse together to the set of the ids. */
  lemma {:induction false} ParseIdsOfParsed(parts: seq<string>, ids: seq<int>)
    requires |parts| == |ids|
    requires forall i :: 0 <= i < |parts| ==> ParseInt(Strip(parts[i])) == Some(ids[i])
    ensures ParseIds(parts) == Some(set k | k in ids)
    decreases |parts|
  {
    if |parts| == 0 {
      assert (set k | k in ids) == {};
    } else {
      forall i | 0 <= i < |parts| - 1
        ensures ParseInt(Strip(parts[1..][i])) == Some(ids[1..][i])
      {
        assert parts[1..][i] == parts[i + 1];
      }
      ParseIdsOfParsed(parts[1..], ids[1..]);
      var rest := set k | k in ids[1..];
      assert ParseInt(Strip(parts[0])) == Some(ids[0]);
      assert ParseIds(parts) == Some({ids[0]} + rest);
      ElemsOfCons(ids);
    }
  }

  /** The elements of a non-empty sequence are its head and the elements of its tail. */
  lemma ElemsOfCons(ids: seq<int>)
    requires |ids| > 0
    ensures (set k | k in ids) == {ids[0]} + (set k | k in ids[1..])
  {
    forall k | k in ids
      ensures k == ids[0] || k in ids[1..]
    {
      var i :| 0 <= i < |ids| && ids[i] == k;
      if i > 0 {
        assert ids[1..][i - 1] == k;
      }
    }
  }

  /** Without `ALLOWED_IDS` (or with it empty) every user is admitted. */
  lemma UnsetAllowListAdmitsEveryone(env: Vars, user: int)
    requires !IsSet(env, "ALLOWED_IDS") && Load(env).Some?
    ensures Load(env).value.allowedIds == {}
    ensures IsUserAllowed(Load(env).value, user)
  {
  }

  /** An empty entry in the list, as in `1,,2` or a trailing comma, makes `int('')` raise and stops the import. */
  lemma BlankIdStopsStartup(env: Vars, parts: seq<string>, i: int)
    requires 0 <= i < |parts| && Strip(parts[i]) == ""
    requires forall j :: 0 <= j < |parts| ==> ',' !in parts[j]
    requires "ALLOWED_IDS" in env && env["ALLOWED_IDS"] == Join(parts, ',') && env["ALLOWED_IDS"] != ""
    ensures Load(env) == None
  {
    JoinSplit(parts, ',');
    BlankPartFailsParse(parts, i);
    assert IsSet(env, "ALLOWED_IDS");
    assert AllowedIds(env) == ParseIds(parts);
  }

  /** `int` rejects a blank part, so the whole list fails to parse. */
  lemma BlankPartFailsParse(parts: seq<string>, i: int)
    requires 0 <= i < |parts| && Strip(parts[i]) == ""
    ensures ParseIds(parts).None?
  {
    assert ParseInt(Strip(parts[i])).None?;
  }

  /**
   * The SSH dictionary carries the environment's host, user and password and the port (22 when
   * unset); the feature is on exactly when host, user and password are all set and non-empty.
   */
  lemma SshFromEnvironment(env: Vars)
    requires Load(env).Some?
    ensures var m := SshConfig(Load(env).value);
      && m["host"] == Str(Getenv(env, "SSH_HOST", ""))
      && m["username"] == Str(Getenv(env, "SSH_USER", ""))
      && m["password"] == Str(Getenv(env, "SSH_PASS", ""))
      && m["port"] == Num(IntSetting(env, "SSH_PORT", 22).value)
    ensures IsSshEnabled(Load(env).value) <==> IsSet(env, "SSH_HOST") && IsSet(env, "SSH_USER") && IsSet(env, "SSH_PASS")
  {
  }
}
