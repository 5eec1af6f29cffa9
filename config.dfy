/**
 * `src/config.rs`: the key comes from the `API_KEY` environment variable
 * (read after `.env` is loaded), the URL is a constant. The lookup's
 * outcome is the input: `None` when the variable is unset or not Unicode.
 */
module Config {
  import opened Wrappers
  import opened Errors

  const ApiAddress := "https://vapi2.netactuate.com/api/"

  datatype Settings = Settings(apiKey: string, apiUrl: string)

  /** `set_key`: a set, non-empty variable is the key; otherwise one of two errors. */
  function SetKey(env: Option<string>): (r: Result<string, NaApiError>)
    ensures r.Ok? <==> env.Some? && env.value != ""
    ensures r.Ok? ==> r.value == env.value
    ensures env.None? ==> r == Err(APIKeyInvalid("API_KEY not set in ENV"))
    ensures env == Some("") ==> r == Err(APIKeyInvalid("API_KEY is set but empty!"))
  {
    match env
    case None => Err(APIKeyInvalid("API_KEY not set in ENV"))
    case Some(key) =>
      if key == "" then Err(APIKeyInvalid("API_KEY is set but empty!")) else Ok(key)
  }

  /** `Settings::new`: the key's error is passed on; otherwise the key and the fixed URL. */
  function NewSettings(env: Option<string>): (r: Result<Settings, NaApiError>)
    ensures r.Ok? <==> SetKey(env).Ok?
    ensures r.Ok? ==> r.value.apiKey == env.value && r.value.apiUrl == ApiAddress
    ensures r.Err? ==> r.error == SetKey(env).error && r.error.APIKeyInvalid?
  {
    match SetKey(env)
    case Err(e) => Err(e)
    case Ok(key) => Ok(Settings(key, ApiAddress))
  }

  /** The two error cases carry different messages, so a caller can tell them apart. */
  lemma SetKeyErrorsDistinct()
    ensures SetKey(None) != SetKey(Some(""))
  {
  }
}
