/**
 * The environment a bot's child process receives: the supervisor's own
 * environment with PATH guaranteed, overlaid either with the bot's declared
 * variables (later declarations winning) or, when the configuration holds
 * no array of declarations, with BOT_TOKEN and NODE_ENV.
 */
module ChildEnvironment {
  import opened Optional
  import opened BotConfigs

  type Env = map<string, string>

  const DefaultPath: string := "/usr/local/bin:/usr/bin:/bin"

  /** `{ ...process.env, PATH: process.env.PATH || default }`. */
  function BaseEnv(processEnv: Env): (r: Env)
    ensures "PATH" in r && r["PATH"] != ""
    ensures r.Keys == processEnv.Keys + {"PATH"}
    ensures forall k | k in processEnv && k != "PATH" :: r[k] == processEnv[k]
    ensures "PATH" in processEnv && processEnv["PATH"] != "" ==> r["PATH"] == processEnv["PATH"]
  {
    var path := if "PATH" in processEnv && processEnv["PATH"] != "" then processEnv["PATH"] else DefaultPath;
    processEnv["PATH" := path]
  }

  /** A declaration is applied when its key is truthy and its value defined. */
  predicate Applies(v: EnvVar) {
    v.key != "" && v.value.Some?
  }

  predicate Binds(v: EnvVar, k: string) {
    Applies(v) && v.key == k
  }

  /** The value the last applied declaration of key `k` gives it, if any. */
  function LastBinding(vars: seq<EnvVar>, k: string): (r: Option<string>)
    ensures r.Some? ==> exists i | 0 <= i < |vars| ::
      Binds(vars[i], k) && vars[i].value.value == r.value
      && forall j | i < j < |vars| :: !Binds(vars[j], k)
    ensures r.None? ==> forall i | 0 <= i < |vars| :: !Binds(vars[i], k)
    decreases |vars|
  {
    if vars == [] then None
    else
      var last := vars[|vars| - 1];
      if Binds(last, k) then last.value
      else
        var r := LastBinding(vars[..|vars| - 1], k);
        r
  }

  /** `env[v.key] = v.value` for each applied declaration, in order. */
  function Overlay(env: Env, vars: seq<EnvVar>): Env
    decreases |vars|
  {
    if vars == [] then env
    else
      var before := Overlay(env, vars[..|vars| - 1]);
      var v := vars[|vars| - 1];
      if Applies(v) then before[v.key := v.value.value] else before
  }

  /** Overlaying binds exactly the declared keys on top of the base: a key's
      value is its last declaration's, or the base value when none applies. */
  lemma {:induction false} OverlayBinding(env: Env, vars: seq<EnvVar>, k: string)
    ensures k in Overlay(env, vars) <==> LastBinding(vars, k).Some? || k in env
    ensures LastBinding(vars, k).Some? ==> Overlay(env, vars)[k] == LastBinding(vars, k).value
    ensures LastBinding(vars, k).None? && k in env ==> Overlay(env, vars)[k] == env[k]
    decreases |vars|
  {
    if vars != [] {
      OverlayBinding(env, vars[..|vars| - 1], k);
    }
  }

  /** The environment startBot hands to spawn. */
  function ChildEnv(processEnv: Env, bot: BotConfig): Env {
    var base := BaseEnv(processEnv);
    match bot.environmentVariables
    case Declared(vars) => Overlay(base, vars)
    case NotAnArray =>
      var withToken := if bot.token.Some? then base["BOT_TOKEN" := bot.token.value] else base - {"BOT_TOKEN"};
      withToken["NODE_ENV" := "production"]
  }

  /** With declared variables, each key carries its last applied declaration;
      every other variable of the supervisor's environment is inherited, and
      PATH is set, from the supervisor or by default, unless declared. */
  lemma ChildEnvDeclared(processEnv: Env, bot: BotConfig, k: string)
    requires bot.environmentVariables.Declared?
    ensures var vars := bot.environmentVariables.vars;
      && (LastBinding(vars, k).Some? ==> k in ChildEnv(processEnv, bot) && ChildEnv(processEnv, bot)[k] == LastBinding(vars, k).value)
      && (LastBinding(vars, k).None? && k in processEnv && k != "PATH" ==> k in ChildEnv(processEnv, bot) && ChildEnv(processEnv, bot)[k] == processEnv[k])
      && (LastBinding(vars, k).None? && k !in processEnv && k != "PATH" ==> k !in ChildEnv(processEnv, bot))
      && (LastBinding(vars, "PATH").None? ==> "PATH" in ChildEnv(processEnv, bot) && ChildEnv(processEnv, bot)["PATH"] != "")
  {
    OverlayBinding(BaseEnv(processEnv), bot.environmentVariables.vars, k);
    OverlayBinding(BaseEnv(processEnv), bot.environmentVariables.vars, "PATH");
  }

  /** Without declarations, the child gets the bot's token (none at all when
      the token is undefined) and NODE_ENV=production, and inherits the rest. */
  lemma ChildEnvUndeclared(processEnv: Env, bot: BotConfig)
    requires bot.environmentVariables.NotAnArray?
    ensures "BOT_TOKEN" in ChildEnv(processEnv, bot) <==> bot.token.Some?
    ensures bot.token.Some? ==> ChildEnv(processEnv, bot)["BOT_TOKEN"] == bot.token.value
    ensures "NODE_ENV" in ChildEnv(processEnv, bot) && ChildEnv(processEnv, bot)["NODE_ENV"] == "production"
    ensures "PATH" in ChildEnv(processEnv, bot) && ChildEnv(processEnv, bot)["PATH"] != ""
  {
  }

  /** The default declarations of a fresh bot give its child the bot's token
      and production mode whichever branch the start path takes. */
  lemma DefaultEnvironmentAgrees(processEnv: Env, bot: BotConfig)
    requires bot.environmentVariables == Declared(DefaultEnvironment(bot.token))
    requires bot.token.Some?
    ensures ChildEnv(processEnv, bot) == ChildEnv(processEnv, bot.(environmentVariables := NotAnArray))
  {
    var vars := DefaultEnvironment(bot.token);
    var base := BaseEnv(processEnv);
    assert vars[..1] == [vars[0]];
    assert [vars[0]][..0] == [];
    assert Overlay(base, vars[..1]) == base["BOT_TOKEN" := bot.token.value];
    assert Overlay(base, vars) == base["BOT_TOKEN" := bot.token.value]["NODE_ENV" := "production"];
  }

  /** Builds the child's environment as startBot does, one declaration at a time. */
  method BuildChildEnv(processEnv: Env, bot: BotConfig) returns (env: Env)
    ensures env == ChildEnv(processEnv, bot)
  {
    var path := DefaultPath;
    if "PATH" in processEnv && processEnv["PATH"] != "" {
      path := processEnv["PATH"];
    }
    env := processEnv["PATH" := path];
    match bot.environmentVariables {
      case Declared(vars) =>
        for i := 0 to |vars|
          invariant env == Overlay(BaseEnv(processEnv), vars[..i])
        {
          var v := vars[i];
          if v.key != "" && v.value.Some? {
            env := env[v.key := v.value.value];
          }
          assert vars[..i + 1][..i] == vars[..i];
        }
        assert vars[..|vars|] == vars;
      case NotAnArray =>
        if bot.token.Some? {
          env := env["BOT_TOKEN" := bot.token.value];
        } else {
          env := env - {"BOT_TOKEN"};
        }
        env := env["NODE_ENV" := "production"];
    }
  }
}
