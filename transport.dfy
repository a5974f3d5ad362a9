/**
 * Transport selection for the tool-protocol session: an HTTP endpoint when
 * the configured server URL starts with "http", otherwise a local process
 * spoken to over stdio.
 */
module Transport {
  import opened Wrappers

  /** The process environment, from variable name to value. */
  type Env = map<string, string>

  const ServerUrlVar := "MCP_SERVER_URL"
  const DefaultServerUrl := "http://localhost:8000/mcp"
  const StdioCommandVar := "MCP_STDIO_COMMAND"
  const DefaultStdioCommand := "mcp-flight-search"
  const GmailCommandVar := "MCP_STDIO_GMAIL_COMMAND"
  const DefaultGmailCommand := "mcp-gmail-tool"
  const SerpApiKeyVar := "SERP_API_KEY"
  const HttpScheme := "http"
  const StdioArgs: seq<string> := ["--connection_type", "stdio"]

  /**
   * Parameters of a session transport. A stdio environment maps each variable
   * to its value or to `None` when it is unset; `env == None` means no
   * environment was passed at all.
   */
  datatype TransportParams =
    | Http(baseUrl: string)
    | Stdio(command: string, args: seq<string>, env: Option<map<string, Option<string>>>)

  /** `os.getenv(name)` */
  function GetEnv(env: Env, name: string): Option<string> {
    if name in env then Some(env[name]) else None
  }

  /** `os.getenv(name, default)` */
  function GetEnvOr(env: Env, name: string, default: string): string {
    if name in env then env[name] else default
  }

  predicate StartsWith(s: string, prefix: string) {
    |prefix| <= |s| && s[..|prefix|] == prefix
  }

  /** The configured server URL, with its built-in default. */
  function ServerUrl(env: Env): string {
    GetEnvOr(env, ServerUrlVar, DefaultServerUrl)
  }

  /** The test `url and url.startswith("http")`. */
  predicate SelectsHttp(url: string) {
    url != "" && StartsWith(url, HttpScheme)
  }

  /** The transport `categorize_email` opens its session over. */
  function CategorizeTransport(env: Env): (t: TransportParams)
    ensures t.Http? <==> SelectsHttp(ServerUrl(env))
    ensures t.Http? ==> t.baseUrl == ServerUrl(env)
    ensures t.Stdio? ==> t.command == GetEnvOr(env, StdioCommandVar, DefaultStdioCommand)
    ensures t.Stdio? ==> t.args == StdioArgs
    ensures t.Stdio? ==> t.env == Some(map[SerpApiKeyVar := GetEnv(env, SerpApiKeyVar)])
  {
    var url := ServerUrl(env);
    if SelectsHttp(url) then Http(url)
    else Stdio(GetEnvOr(env, StdioCommandVar, DefaultStdioCommand), StdioArgs,
               Some(map[SerpApiKeyVar := GetEnv(env, SerpApiKeyVar)]))
  }

  /** The transport `filter_emails` opens its session over. */
  function FilterTransport(env: Env): (t: TransportParams)
    ensures t.Http? <==> SelectsHttp(ServerUrl(env))
    ensures t.Http? ==> t.baseUrl == ServerUrl(env)
    ensures t.Stdio? ==> t.command == GetEnvOr(env, GmailCommandVar, DefaultGmailCommand)
    ensures t.Stdio? ==> t.args == StdioArgs && t.env == None
  {
    var url := ServerUrl(env);
    if SelectsHttp(url) then Http(url)
    else Stdio(GetEnvOr(env, GmailCommandVar, DefaultGmailCommand), StdioArgs, None)
  }

  /**
   * The two entry points always agree on the kind of transport and on the
   * HTTP endpoint; over stdio they differ only in the command and in the
   * environment handed to the process.
   */
  lemma SelectorsAgree(env: Env)
    ensures CategorizeTransport(env).Http? <==> FilterTransport(env).Http?
    ensures CategorizeTransport(env).Http? ==> CategorizeTransport(env) == FilterTransport(env)
    ensures CategorizeTransport(env).Stdio? ==> CategorizeTransport(env).args == FilterTransport(env).args
  {
  }

  /** The non-empty test is implied by the scheme test. */
  lemma HttpExactlyOnScheme(url: string)
    ensures SelectsHttp(url) <==> StartsWith(url, HttpScheme)
  {
  }

  /** With MCP_SERVER_URL unset, the default endpoint is used over HTTP. */
  lemma DefaultIsHttp(env: Env)
    requires ServerUrlVar !in env
    ensures CategorizeTransport(env) == Http(DefaultServerUrl)
    ensures FilterTransport(env) == Http(DefaultServerUrl)
  {
  }

  /** An explicitly empty MCP_SERVER_URL selects the local process. */
  lemma EmptyUrlIsStdio(env: Env)
    requires ServerUrlVar in env && env[ServerUrlVar] == ""
    ensures CategorizeTransport(env).Stdio? && FilterTransport(env).Stdio?
  {
  }
}
