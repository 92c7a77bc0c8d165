/**
 * The provider switch (`utils/api_client.py`): which language-model
 * backend the application talks to, from the environment and the
 * settings file. `utils/ollama_client.py` carries a private copy of the
 * same function with the same body.
 */
module ApiClient {
  import opened Wrappers
  import opened PyStr
  import opened Values
  import AppSettingsFile

  const DefaultApiProvider: string := "together"

  /**
   * The provider the settings file names, as the `try` block computes it:
   * `.lower()` of a stored string; anything else raises inside the `try`,
   * which leaves the provider at the default.
   */
  function SettingsProvider(file: AppSettingsFile.SettingsFile): string {
    match AppSettingsFile.GetSetting(file, "api_provider", Str(DefaultApiProvider))
    case Str(s) => Lower(s)
    case _ => DefaultApiProvider
  }

  /**
   * `get_api_provider`: `env` is `SPRING_TEST_API_PROVIDER` if set,
   * `settingsModule` whether `utils.settings` can be found. The settings
   * file is only consulted when the environment gives the default, and
   * an unknown name falls back to the default.
   */
  function ApiProvider(env: Option<string>, settingsModule: bool, file: AppSettingsFile.SettingsFile): (r: string)
    ensures r == "together" || r == "ollama"
  {
    ChooseProvider(env, settingsModule, SettingsProvider(file))
  }

  /** The body of `get_api_provider`, given what the settings file would name. */
  function ChooseProvider(env: Option<string>, settingsModule: bool, stored: string): (r: string)
    ensures r == "together" || r == "ollama"
  {
    var provider := Lower(env.GetOr(DefaultApiProvider));
    var provider := if provider == DefaultApiProvider && settingsModule then stored else provider;
    if provider == "together" || provider == "ollama" then provider else DefaultApiProvider
  }

  lemma ChooseOllama(env: Option<string>, settingsModule: bool, stored: string)
    ensures ChooseProvider(env, settingsModule, stored) == "ollama" <==>
      (env.Some? && Lower(env.value) == "ollama") ||
      ((env.None? || Lower(env.value) == DefaultApiProvider) && settingsModule && stored == "ollama")
  {
    LowerOfLowercase(DefaultApiProvider);
  }

  /** A missing settings file names no provider, so the default stands. */
  lemma MissingFileProvider()
    ensures SettingsProvider(AppSettingsFile.Missing) == DefaultApiProvider
  {
    var v := AppSettingsFile.GetSetting(AppSettingsFile.Missing, "api_provider", Str(DefaultApiProvider));
    AppSettingsFile.DefaultProviderEntry();
    assert v == Str(DefaultApiProvider);
    LowerDefault();
  }

  lemma LowerDefault()
    ensures Lower(DefaultApiProvider) == DefaultApiProvider
  {
    LowerOfLowercase(DefaultApiProvider);
  }

  lemma LowerOfLowercase(s: string)
    requires forall i :: 0 <= i < |s| ==> !('A' <= s[i] <= 'Z')
    ensures Lower(s) == s
  {
  }

  /**
   * The provider is Ollama exactly when the environment says so in any
   * case, or the environment is silent or says "together", the settings
   * module exists and the file names Ollama in any case.
   */
  lemma ApiProviderIsOllama(env: Option<string>, settingsModule: bool, file: AppSettingsFile.SettingsFile)
    ensures ApiProvider(env, settingsModule, file) == "ollama" <==>
      (env.Some? && Lower(env.value) == "ollama") ||
      ((env.None? || Lower(env.value) == DefaultApiProvider) && settingsModule && SettingsProvider(file) == "ollama")
  {
    ChooseOllama(env, settingsModule, SettingsProvider(file));
  }

  /** An environment value other than "together" decides alone: the settings file is not read. */
  lemma EnvironmentDecides(env: string, settingsModule: bool, file: AppSettingsFile.SettingsFile, file': AppSettingsFile.SettingsFile)
    requires Lower(env) != DefaultApiProvider
    ensures ApiProvider(Some(env), settingsModule, file) == ApiProvider(Some(env), false, file')
    ensures ApiProvider(Some(env), settingsModule, file) == if Lower(env) == "ollama" then "ollama" else "together"
  {
  }

  /** With no environment value and no settings file, the provider is the default. */
  lemma DefaultProvider(settingsModule: bool)
    ensures ApiProvider(None, settingsModule, AppSettingsFile.Missing) == "together"
  {
    MissingFileProvider();
    ChooseDefault(settingsModule);
  }

  lemma ChooseDefault(settingsModule: bool)
    ensures ChooseProvider(None, settingsModule, DefaultApiProvider) == DefaultApiProvider
  {
    LowerDefault();
  }

  /** The client class `create_api_client` instantiates. */
  datatype ClientKind = TogetherClient | OllamaClient

  /** `create_api_client`: the Ollama client exactly for the "ollama" provider. */
  function CreateApiClient(env: Option<string>, settingsModule: bool, file: AppSettingsFile.SettingsFile): (c: ClientKind)
    ensures c == OllamaClient <==> ApiProvider(env, settingsModule, file) == "ollama"
  {
    if ApiProvider(env, settingsModule, file) == "ollama" then OllamaClient else TogetherClient
  }
}
