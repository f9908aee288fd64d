/** The start-up of both agent variants (agent/dist/agent.js and
    agent/src/agent.ts): settings come from the environment, an unset or
    empty setting falls back to its default, and a missing private key or
    contract address stops the process with exit status 1 before any
    provider, contract or back-end call is made. */
module AgentConfig {

  /** The process environment. */
  type Env = map<string, string>

  const DefaultRpcUrl: string := "http://localhost:8545"
  const DefaultBackendUrl: string := "http://localhost:8000"

  datatype Config = Config(rpcUrl: string, privateKey: string, tipPoolAddress: string, backendUrl: string)

  datatype Startup =
    | Exit(code: nat, message: string)   // console.error(message); process.exit(code)
    | Ready(config: Config)

  /** `process.env[name] || fallback`: the empty string counts as unset. */
  function Setting(env: Env, name: string, fallback: string): (s: string)
    ensures name in env && env[name] != "" ==> s == env[name]
    ensures name !in env || env[name] == "" ==> s == fallback
  {
    if name in env && env[name] != "" then env[name] else fallback
  }

  /** The checks at the top of `main`, in their order. */
  function Start(env: Env): (r: Startup)
    ensures r.Exit? <==> Setting(env, "AGENT_PRIVATE_KEY", "") == "" || Setting(env, "TIPPOOL_ADDRESS", "") == ""
    ensures r.Exit? ==> r.code == 1
    ensures r.Exit? && Setting(env, "AGENT_PRIVATE_KEY", "") == "" ==> r.message == "Set AGENT_PRIVATE_KEY in .env"
    ensures r.Exit? && Setting(env, "AGENT_PRIVATE_KEY", "") != "" ==> r.message == "Set TIPPOOL_ADDRESS in .env"
    ensures r.Ready? ==>
              && r.config.privateKey == env["AGENT_PRIVATE_KEY"]
              && r.config.tipPoolAddress == env["TIPPOOL_ADDRESS"]
              && r.config.rpcUrl == Setting(env, "CRONOS_RPC_URL", DefaultRpcUrl)
              && r.config.backendUrl == Setting(env, "BACKEND_URL", DefaultBackendUrl)
  {
    var key := Setting(env, "AGENT_PRIVATE_KEY", "");
    var address := Setting(env, "TIPPOOL_ADDRESS", "");
    if key == "" then Exit(1, "Set AGENT_PRIVATE_KEY in .env")
    else if address == "" then Exit(1, "Set TIPPOOL_ADDRESS in .env")
    else Ready(Config(Setting(env, "CRONOS_RPC_URL", DefaultRpcUrl), key, address,
                      Setting(env, "BACKEND_URL", DefaultBackendUrl)))
  }

  /** Without an RPC URL or back-end URL the agent talks to the local
      node and the local back end. */
  lemma DefaultsApply(env: Env)
    requires Start(env).Ready?
    requires "CRONOS_RPC_URL" !in env && "BACKEND_URL" !in env
    ensures Start(env).config.rpcUrl == "http://localhost:8545"
    ensures Start(env).config.backendUrl == "http://localhost:8000"
  {
  }
}
