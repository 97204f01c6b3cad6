/**
 * The credential form: three text fields checked by fixed rules before they are handed on, or
 * replaced wholesale by the demo placeholders.
 */
module ApiConfig {
  import opened Common
  import opened Js

  /** What the form hands to its `onComplete`. */
  datatype Credentials = Credentials(openaiKey: string, pineconeKey: string, pineconeHost: string, demoMode: bool)

  const OpenAiRequired: string := "OpenAI API key is required"
  const OpenAiPrefix: string := "OpenAI API key should start with 'sk-'"
  const PineconeRequired: string := "Pinecone API key is required"
  const HostRequired: string := "Pinecone host URL is required"
  const HostHttps: string := "Pinecone host should be a valid HTTPS URL"

  /** The placeholder `handleSkip` puts in every field. */
  const DemoValue: string := "demo-mode"

  /** The three fields pass: an OpenAI key starting "sk-", a Pinecone key, an https host. */
  predicate Acceptable(openaiKey: string, pineconeKey: string, pineconeHost: string) {
    StartsWith(openaiKey, "sk-") && pineconeKey != "" && StartsWith(pineconeHost, "https://")
  }

  class ConfigForm {
    var openaiKey: string
    var pineconeKey: string
    var pineconeHost: string
    var errors: map<string, string>

    constructor ()
      ensures openaiKey == "" && pineconeKey == "" && pineconeHost == "" && errors == map[]
    {
      openaiKey, pineconeKey, pineconeHost, errors := "", "", "", map[];
    }

    /** The three inputs' `onChange`. */
    method Enter(openai: string, pinecone: string, host: string)
      modifies this`openaiKey, this`pineconeKey, this`pineconeHost
      ensures openaiKey == openai && pineconeKey == pinecone && pineconeHost == host
    {
      openaiKey, pineconeKey, pineconeHost := openai, pinecone, host;
    }

    /**
     * `validateConfig`: a fresh error map replaces the old one, with an entry for each failing
     * field under "openai", "pinecone" or "host"; the result says whether it is empty.
     */
    method ValidateConfig() returns (ok: bool)
      modifies this`errors
      ensures errors.Keys <= {"openai", "pinecone", "host"}
      ensures "openai" in errors <==> !StartsWith(openaiKey, "sk-")
      ensures "openai" in errors ==> errors["openai"] == (if openaiKey == "" then OpenAiRequired else OpenAiPrefix)
      ensures "pinecone" in errors <==> pineconeKey == ""
      ensures "pinecone" in errors ==> errors["pinecone"] == PineconeRequired
      ensures "host" in errors <==> !StartsWith(pineconeHost, "https://")
      ensures "host" in errors ==> errors["host"] == (if pineconeHost == "" then HostRequired else HostHttps)
      ensures ok <==> errors == map[]
      ensures ok <==> Acceptable(openaiKey, pineconeKey, pineconeHost)
    {
      var newErrors: map<string, string> := map[];
      if openaiKey == "" {
        newErrors := newErrors["openai" := OpenAiRequired];
      } else if !StartsWith(openaiKey, "sk-") {
        newErrors := newErrors["openai" := OpenAiPrefix];
      }
      if pineconeKey == "" {
        newErrors := newErrors["pinecone" := PineconeRequired];
      }
      if pineconeHost == "" {
        newErrors := newErrors["host" := HostRequired];
      } else if !StartsWith(pineconeHost, "https://") {
        newErrors := newErrors["host" := HostHttps];
      }
      errors := newErrors;
      ok := |newErrors.Keys| == 0;
      if !ok {
        assert exists k :: k in newErrors.Keys;
      }
    }

    /** `handleContinue`: the three values, and only when they pass. */
    method Continue() returns (emitted: Option<Credentials>)
      modifies this`errors
      ensures emitted.Some? <==> Acceptable(openaiKey, pineconeKey, pineconeHost)
      ensures emitted.Some? ==> emitted.value == Credentials(openaiKey, pineconeKey, pineconeHost, false)
      ensures emitted.Some? <==> errors == map[]
    {
      var ok := ValidateConfig();
      emitted := if ok then Some(Credentials(openaiKey, pineconeKey, pineconeHost, false)) else None;
    }
  }

  /** `handleSkip`: demo mode, with the placeholder in every field. */
  function Skip(): (c: Credentials)
    ensures c.demoMode && c.openaiKey == c.pineconeKey == c.pineconeHost == DemoValue
  {
    Credentials(DemoValue, DemoValue, DemoValue, true)
  }

  /** What skipping emits would not pass the form's own rules: demo mode bypasses them. */
  lemma SkipWouldFail()
    ensures !Acceptable(Skip().openaiKey, Skip().pineconeKey, Skip().pineconeHost)
  {
    assert Skip().openaiKey[0] != "sk-"[0];
  }
}
