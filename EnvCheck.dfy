/** Which external services are configured, read from the process
    environment, and the status message shown for it. */
module EnvCheck {
  import opened Seqs
  import opened Text

  /** The environment, as the variables that are set. */
  type Env = map<string, string>

  datatype EnvStatus = EnvStatus(supabase: bool, anthropic: bool, openai: bool, all: bool)

  /** `!!process.env[name]`: set and not the empty string. */
  predicate IsSet(env: Env, name: string)
  {
    name in env && env[name] != ""
  }

  /** `checkEnvVars`: Supabase needs both its URL and its anonymous key. */
  function CheckEnvVars(env: Env): (r: EnvStatus)
    ensures r.supabase <==> IsSet(env, "NEXT_PUBLIC_SUPABASE_URL") && IsSet(env, "NEXT_PUBLIC_SUPABASE_ANON_KEY")
    ensures r.anthropic <==> IsSet(env, "ANTHROPIC_API_KEY")
    ensures r.openai <==> IsSet(env, "OPENAI_API_KEY")
    ensures r.all <==> r.supabase && r.anthropic && r.openai
  {
    var supabase := IsSet(env, "NEXT_PUBLIC_SUPABASE_URL") && IsSet(env, "NEXT_PUBLIC_SUPABASE_ANON_KEY");
    var anthropic := IsSet(env, "ANTHROPIC_API_KEY");
    var openai := IsSet(env, "OPENAI_API_KEY");
    EnvStatus(supabase, anthropic, openai, supabase && anthropic && openai)
  }

  const AllConfiguredMessage := "\U{1F389} All API keys configured! Real agent functionality is active."
  const DemoPrefix := "\U{26A0}\U{FE0F} Demo mode active. Missing: "
  const DemoSuffix := ". Visit the setup guide to configure."

  /** The services in the order they are checked. */
  const ServiceNames: seq<string> := ["Supabase", "Anthropic", "OpenAI"]

  /** The names of the services whose flag is false, in the fixed order. */
  function Missing(status: EnvStatus): (r: seq<string>)
    ensures |r| <= 3
  {
    (if !status.supabase then ["Supabase"] else [])
    + (if !status.anthropic then ["Anthropic"] else [])
    + (if !status.openai then ["OpenAI"] else [])
  }

  /** The message `getEnvMessage` returns for a status. */
  function EnvMessage(status: EnvStatus): (r: string)
    ensures status.all ==> r == AllConfiguredMessage
    ensures !status.all ==> |DemoPrefix| + |DemoSuffix| <= |r| && r[..|DemoPrefix|] == DemoPrefix
  {
    if status.all then AllConfiguredMessage
    else DemoPrefix + Join(Missing(status), ", ") + DemoSuffix
  }

  /** `getEnvMessage`: the `missing` list is built by one `push` per
      service that is not configured. */
  method GetEnvMessage(status: EnvStatus) returns (message: string)
    ensures message == EnvMessage(status)
  {
    if status.all {
      return AllConfiguredMessage;
    }
    var missing: seq<string> := [];
    if !status.supabase {
      missing := missing + ["Supabase"];
    }
    if !status.anthropic {
      missing := missing + ["Anthropic"];
    }
    assert missing == (if !status.supabase then ["Supabase"] else []) + (if !status.anthropic then ["Anthropic"] else []);
    if !status.openai {
      missing := missing + ["OpenAI"];
    }
    assert missing == Missing(status);
    message := DemoPrefix + Join(missing, ", ") + DemoSuffix;
  }

  /** The missing list names exactly the unconfigured services, each once,
      in the order Supabase, Anthropic, OpenAI. */
  lemma MissingNames(status: EnvStatus)
    ensures "Supabase" in Missing(status) <==> !status.supabase
    ensures "Anthropic" in Missing(status) <==> !status.anthropic
    ensures "OpenAI" in Missing(status) <==> !status.openai
    ensures forall name :: name in Missing(status) ==> name in ServiceNames
    ensures |Missing(status)| == (if status.supabase then 0 else 1) + (if status.anthropic then 0 else 1)
                                 + (if status.openai then 0 else 1)
    ensures forall i, j :: 0 <= i < j < |Missing(status)| ==> Missing(status)[i] != Missing(status)[j]
  {
  }

  /** The missing names keep the order of `ServiceNames`. */
  lemma MissingInOrder(status: EnvStatus)
    ensures IsSubsequence(Missing(status), ServiceNames)
  {
    var a := if !status.anthropic then ["Anthropic"] else [];
    var o := if !status.openai then ["OpenAI"] else [];
    assert IsSubsequence(o, ServiceNames[2..]);
    assert IsSubsequence(a + o, ServiceNames[1..]) by {
      if a != [] {
        assert (a + o)[1..] == o;
      }
    }
    if !status.supabase {
      assert Missing(status)[1..] == a + o;
    }
  }

  /** The all-configured message is given exactly when `all` holds: every
      demo message is longer than it. */
  lemma AllConfiguredIff(status: EnvStatus)
    ensures EnvMessage(status) == AllConfiguredMessage <==> status.all
  {
    if !status.all {
      var m := EnvMessage(status);
      assert |m| >= |DemoPrefix| + |DemoSuffix|;
      assert |DemoPrefix| + |DemoSuffix| > |AllConfiguredMessage|;
    }
  }

  /** When `all` is false the message is the prefix, the missing names
      joined by ", ", and the suffix; a status that says not all although
      every flag is true lists no name. */
  lemma DemoMessage(status: EnvStatus)
    requires !status.all
    ensures EnvMessage(status) == DemoPrefix + Join(Missing(status), ", ") + DemoSuffix
    ensures status.supabase && status.anthropic && status.openai ==> EnvMessage(status) == DemoPrefix + DemoSuffix
  {
  }

  /** The flags read from the environment are consistent, so the
      all-configured message appears exactly when all four variables are
      set. */
  lemma ConfiguredEnvironment(env: Env)
    ensures EnvMessage(CheckEnvVars(env)) == AllConfiguredMessage <==>
      IsSet(env, "NEXT_PUBLIC_SUPABASE_URL") && IsSet(env, "NEXT_PUBLIC_SUPABASE_ANON_KEY")
      && IsSet(env, "ANTHROPIC_API_KEY") && IsSet(env, "OPENAI_API_KEY")
  {
    AllConfiguredIff(CheckEnvVars(env));
  }
}
