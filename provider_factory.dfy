/** How the worker chooses its text-generation provider from two environment variables. */
module ProviderFactory {
  import opened Wrappers
  import opened Text

  datatype Provider = GeminiProvider(apiKey: string)

  const DefaultProviderName := "mistral"

  /** `AI_PROVIDER` lower-cased, or "mistral" when it is unset or empty. */
  function ProviderName(aiProvider: Option<string>): (r: string)
    ensures aiProvider.None? || aiProvider.value == "" ==> r == DefaultProviderName
    ensures aiProvider.Some? && aiProvider.value != "" ==> r == Lower(aiProvider.value)
  {
    if aiProvider.Some? && Lower(aiProvider.value) != "" then Lower(aiProvider.value) else DefaultProviderName
  }

  /** `getAIProvider()`: the Gemini provider when it is asked for and its key is set, and
      otherwise the message of the error it throws. */
  function GetAIProvider(aiProvider: Option<string>, geminiApiKey: Option<string>): (r: Result<Provider, string>)
    ensures r.Success? <==> ProviderName(aiProvider) == "gemini" && geminiApiKey.Some? && geminiApiKey.value != ""
    ensures r.Success? ==> r.value == GeminiProvider(geminiApiKey.value)
    ensures ProviderName(aiProvider) == "gemini" && !r.Success? ==> r.error == "GEMINI_API_KEY is missing"
    ensures ProviderName(aiProvider) != "gemini" ==> r.error == "Unsupported AI Provider: " + ProviderName(aiProvider)
  {
    var name := ProviderName(aiProvider);
    if name == "gemini" then
      if geminiApiKey.Some? && geminiApiKey.value != "" then Success(GeminiProvider(geminiApiKey.value))
      else Failure("GEMINI_API_KEY is missing")
    else Failure("Unsupported AI Provider: " + name)
  }

  /** The name is matched without regard to ASCII case. */
  lemma ProviderNameIgnoresCase(a: string, b: string)
    requires Lower(a) == Lower(b)
    ensures ProviderName(Some(a)) == ProviderName(Some(b))
  {
    if a == "" || b == "" {
      assert |a| == |Lower(a)| == |Lower(b)| == |b|;
    }
  }

  /** With `AI_PROVIDER` unset the default is a provider that no branch builds any more, so
      the factory always throws. */
  lemma DefaultIsUnsupported(geminiApiKey: Option<string>)
    ensures GetAIProvider(None, geminiApiKey) == Failure("Unsupported AI Provider: mistral")
  {
    assert DefaultProviderName[0] != "gemini"[0];
    assert "Unsupported AI Provider: " + DefaultProviderName == "Unsupported AI Provider: mistral";
  }
}
