/**
 * The bot's configuration: integer settings read from the process
 * environment (passed in here as a map from variable name to value), the
 * bot token, and the user-facing texts the relay sends or compares against.
 */
module Config {
  import opened Wrappers
  import opened Builtins

  /** The environment the settings are read from. */
  type Env = map<string, string>

  /** `_env_int`'s ValueError: the variable is set to something that is not an integer. */
  datatype EnvError = NotAnInteger(name: string, value: string)
  {
    /** The message of the ValueError. */
    function Describe(): string {
      "Environment variable " + name + " must be an integer, got: " + value
    }
  }

  /**
   * `_env_int(name, default)`: the default when the variable is unset or
   * empty, otherwise the integer it spells, otherwise an error naming it.
   */
  function EnvInt(env: Env, name: string, default: int): (r: Result<int, EnvError>)
    ensures (name !in env || env[name] == "") ==> r == Ok(default)
    ensures name in env && env[name] != "" && ParseInt(env[name]).Some? ==> r == Ok(ParseInt(env[name]).value)
    ensures r.Err? ==> name in env && r.error.name == name && r.error.value == env[name]
    ensures r == Ok(default) && name in env && env[name] != "" ==> ParseInt(env[name]) == Some(default)
  {
    if name !in env || env[name] == "" then Ok(default)
    else match ParseInt(env[name])
      case Some(n) => Ok(n)
      case None => Err(NotAnInteger(name, env[name]))
  }

  /** An unset or empty variable yields the default. */
  lemma EnvIntDefault(env: Env, name: string, default: int)
    requires name !in env || env[name] == ""
    ensures EnvInt(env, name, default) == Ok(default)
  {
  }

  /** A variable holding the decimal rendering of `n` yields `n`. */
  lemma EnvIntRendered(env: Env, name: string, n: int, default: int)
    requires name in env && env[name] == IntToString(n)
    ensures EnvInt(env, name, default) == Ok(n)
  {
    ParseIntRoundTrip(n);
  }

  /** A set, non-integer variable is an error naming it; the default is never substituted. */
  lemma EnvIntRejects(env: Env, name: string, default: int)
    requires name in env && env[name] != "" && ParseInt(env[name]).None?
    ensures EnvInt(env, name, default) == Err(NotAnInteger(name, env[name]))
    ensures EnvInt(env, name, default).error.Describe()
      == "Environment variable " + name + " must be an integer, got: " + env[name]
  {
  }

  /** `os.getenv(name, default)`: only an unset variable falls back to the default. */
  function GetEnv(env: Env, name: string, default: string): (r: string)
    ensures name in env ==> r == env[name]
    ensures name !in env ==> r == default
  {
    if name in env then env[name] else default
  }

  const DefaultBotToken: string := "–¢–í–û–ô_–¢–û–ö–ï–ù"
  const DefaultAdminChatId: int := -1002404070892
  const DefaultTopicMaterial: int := 12
  const DefaultTopicQuestion: int := 10

  /** The module-level settings the relay depends on. */
  datatype Settings = Settings(botToken: string, adminChatId: int, topicMaterial: int, topicQuestion: int)

  /**
   * The settings as the module computes them at import, in its order: the
   * first malformed integer variable aborts the import with its error.
   */
  function LoadSettings(env: Env): (r: Result<Settings, EnvError>)
    ensures r.Ok? ==> r.value.botToken == GetEnv(env, "BOT_TOKEN", DefaultBotToken)
    ensures r.Ok? ==> EnvInt(env, "ADMIN_CHAT_ID", DefaultAdminChatId) == Ok(r.value.adminChatId)
    ensures r.Ok? ==> EnvInt(env, "TOPIC_MATERIAL", DefaultTopicMaterial) == Ok(r.value.topicMaterial)
    ensures r.Ok? ==> EnvInt(env, "TOPIC_QUESTION", DefaultTopicQuestion) == Ok(r.value.topicQuestion)
    ensures r.Err? ==> r.error.name in {"ADMIN_CHAT_ID", "TOPIC_MATERIAL", "TOPIC_QUESTION"}
    ensures
      var admin := EnvInt(env, "ADMIN_CHAT_ID", DefaultAdminChatId);
      var material := EnvInt(env, "TOPIC_MATERIAL", DefaultTopicMaterial);
      var question := EnvInt(env, "TOPIC_QUESTION", DefaultTopicQuestion);
      && (r.Ok? <==> admin.Ok? && material.Ok? && question.Ok?)
      && (admin.Err? ==> r == Err(admin.error))
      && (admin.Ok? && material.Err? ==> r == Err(material.error))
      && (admin.Ok? && material.Ok? && question.Err? ==> r == Err(question.error))
  {
    var token := GetEnv(env, "BOT_TOKEN", DefaultBotToken);
    match EnvInt(env, "ADMIN_CHAT_ID", DefaultAdminChatId)
    case Err(e) => Err(e)
    case Ok(admin) =>
      match EnvInt(env, "TOPIC_MATERIAL", DefaultTopicMaterial)
      case Err(e) => Err(e)
      case Ok(material) =>
        match EnvInt(env, "TOPIC_QUESTION", DefaultTopicQuestion)
        case Err(e) => Err(e)
        case Ok(question) => Ok(Settings(token, admin, material, question))
  }

  /** With nothing set, every setting takes its default. */
  lemma LoadSettingsDefaults()
    ensures LoadSettings(map[]) == Ok(Settings(DefaultBotToken, -1002404070892, 12, 10))
  {
  }

  /**
   * Whatever else the environment holds, integer variables that are unset
   * or empty take their defaults, and the token is read as it is.
   */
  lemma LoadSettingsUnsetDefaults(env: Env)
    requires "ADMIN_CHAT_ID" !in env || env["ADMIN_CHAT_ID"] == ""
    requires "TOPIC_MATERIAL" !in env || env["TOPIC_MATERIAL"] == ""
    requires "TOPIC_QUESTION" !in env || env["TOPIC_QUESTION"] == ""
    ensures LoadSettings(env) == Ok(Settings(GetEnv(env, "BOT_TOKEN", DefaultBotToken), -1002404070892, 12, 10))
  {
    EnvIntDefault(env, "ADMIN_CHAT_ID", DefaultAdminChatId);
    EnvIntDefault(env, "TOPIC_MATERIAL", DefaultTopicMaterial);
    EnvIntDefault(env, "TOPIC_QUESTION", DefaultTopicQuestion);
  }

  /** Integer variables holding decimal renderings load as those integers. */
  lemma LoadSettingsRendered(env: Env, admin: int, material: int, question: int)
    requires "ADMIN_CHAT_ID" in env && env["ADMIN_CHAT_ID"] == IntToString(admin)
    requires "TOPIC_MATERIAL" in env && env["TOPIC_MATERIAL"] == IntToString(material)
    requires "TOPIC_QUESTION" in env && env["TOPIC_QUESTION"] == IntToString(question)
    ensures LoadSettings(env) == Ok(Settings(GetEnv(env, "BOT_TOKEN", DefaultBotToken), admin, material, question))
  {
    EnvIntRendered(env, "ADMIN_CHAT_ID", admin, DefaultAdminChatId);
    EnvIntRendered(env, "TOPIC_MATERIAL", material, DefaultTopicMaterial);
    EnvIntRendered(env, "TOPIC_QUESTION", question, DefaultTopicQuestion);
  }

  /** A malformed ADMIN_CHAT_ID is reported whatever the topic variables hold. */
  lemma LoadSettingsAdminFirst(env: Env)
    requires "ADMIN_CHAT_ID" in env && env["ADMIN_CHAT_ID"] != ""
    requires ParseInt(env["ADMIN_CHAT_ID"]).None?
    ensures LoadSettings(env) == Err(NotAnInteger("ADMIN_CHAT_ID", env["ADMIN_CHAT_ID"]))
  {
  }

  /**
   * The texts of the `Texts` and `Buttons` records that the relay sends or
   * compares against. Their values are configuration, not behaviour.
   */
  datatype Texts = Texts(
    sendMaterial: string,
    askQuestion: string,
    backButton: string,
    adminReplyPrefix: string,
    materialSent: string,
    questionSent: string,
    unsupportedContent: string,
    deliveryError: string)
}
