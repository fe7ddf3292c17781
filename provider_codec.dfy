/**
 * The provider codec: the two lookup chains that translate between the external
 * provider enumeration (GenerativeProviderKey) and the lower-case slug stored on each
 * generative-model record (the OpenInference semantic-convention provider value).
 */
module ProviderCodec {
  import opened Wrappers

  /**
   * The closed set of external provider keys. Two keys are equal exactly when their
   * symbolic names are equal, which is what datatype equality gives. The display labels
   * ("OpenAI", "Azure OpenAI", ...) play no part in filtering and are not modelled.
   * The enumeration has seven members; there is no OLLAMA key.
   */
  datatype ProviderKey = OpenAI | Anthropic | AzureOpenAI | Google | DeepSeek | Xai | Aws

  // The stored slugs (OpenInferenceLLMProviderValues). Azure is stored as "azure",
  // not as a case variant of its key, so the mapping is an explicit table.
  const OpenAISlug: string := "openai"
  const AnthropicSlug: string := "anthropic"
  const AzureSlug: string := "azure"
  const GoogleSlug: string := "google"
  const AwsSlug: string := "aws"
  const DeepSeekSlug: string := "deepseek"
  const XaiSlug: string := "xai"

  /** Every slug the codec recognises, and nothing else. */
  const Slugs: set<string> :=
    {OpenAISlug, AnthropicSlug, AzureSlug, GoogleSlug, AwsSlug, DeepSeekSlug, XaiSlug}

  /** A non-empty string of lower-case ASCII letters. */
  predicate IsLowerWord(s: string) {
    |s| > 0 && forall i :: 0 <= i < |s| ==> 'a' <= s[i] <= 'z'
  }

  /** A non-empty string of upper-case ASCII letters and underscores. */
  predicate IsUpperIdentifier(s: string) {
    |s| > 0 && forall i :: 0 <= i < |s| ==> 'A' <= s[i] <= 'Z' || s[i] == '_'
  }

  /**
   * The symbolic name of a key, the form in which a key is serialized in a response
   * and compared for equality.
   */
  function Name(k: ProviderKey): (name: string)
    ensures IsUpperIdentifier(name)
  {
    match k
    case OpenAI => "OPENAI"
    case Anthropic => "ANTHROPIC"
    case AzureOpenAI => "AZURE_OPENAI"
    case Google => "GOOGLE"
    case DeepSeek => "DEEPSEEK"
    case Xai => "XAI"
    case Aws => "AWS"
  }

  /** Keys are compared by name: two keys have the same name only if they are the same key. */
  lemma NameInjective(j: ProviderKey, k: ProviderKey)
    ensures Name(j) == Name(k) <==> j == k
  {
  }

  /**
   * Key to stored slug. The Python converter tests the keys one after another and ends with a
   * `None` return that no member of the closed enumeration reaches, so the function is total.
   */
  function Encode(k: ProviderKey): (slug: string)
    ensures slug in Slugs
    ensures IsLowerWord(slug)
  {
    match k
    case OpenAI => OpenAISlug
    case Anthropic => AnthropicSlug
    case AzureOpenAI => AzureSlug
    case Google => GoogleSlug
    case DeepSeek => DeepSeekSlug
    case Xai => XaiSlug
    case Aws => AwsSlug
  }

  /**
   * Stored slug to key, by exact, case-sensitive comparison; `None` for every other
   * string, the empty string and upper-case spellings included.
   */
  function Decode(s: string): (key: Option<ProviderKey>)
    ensures key.Some? <==> s in Slugs
  {
    if s == OpenAISlug then Some(OpenAI)
    else if s == AnthropicSlug then Some(Anthropic)
    else if s == AzureSlug then Some(AzureOpenAI)
    else if s == GoogleSlug then Some(Google)
    else if s == DeepSeekSlug then Some(DeepSeek)
    else if s == XaiSlug then Some(Xai)
    else if s == AwsSlug then Some(Aws)
    else None
  }

  /** Distinct keys are stored under distinct slugs. */
  lemma EncodeInjective(j: ProviderKey, k: ProviderKey)
    ensures Encode(j) == Encode(k) <==> j == k
  {
  }

  /** Azure's key is stored as "azure", which is not its name in lower case. */
  lemma AzureIsNotACaseTransform()
    ensures Encode(AzureOpenAI) == "azure"
    ensures Name(AzureOpenAI) == "AZURE_OPENAI"
  {
  }

  /** Round trip: every key decodes back from its own slug. */
  lemma DecodeEncode(k: ProviderKey)
    ensures Decode(Encode(k)) == Some(k)
  {
  }

  /** Converse round trip: a string that decodes at all is exactly the slug of the key it decodes to. */
  lemma EncodeDecode(s: string, k: ProviderKey)
    ensures Decode(s) == Some(k) <==> Encode(k) == s
  {
    if Encode(k) == s {
      DecodeEncode(k);
    }
  }

  /** A string decodes exactly when it is the slug of some key. */
  lemma DecodeDefinedOnImage(s: string)
    ensures Decode(s).Some? <==> exists k :: Encode(k) == s
  {
    if Decode(s).Some? {
      EncodeDecode(s, Decode(s).value);
    }
  }

  /** No upper-case identifier decodes; in particular no key's own symbolic name does. */
  lemma UpperCaseNeverDecodes(s: string)
    ensures IsUpperIdentifier(s) ==> Decode(s) == None
  {
    if Decode(s).Some? {
      EncodeDecode(s, Decode(s).value);
      assert IsLowerWord(s);
      assert 'a' <= s[0] <= 'z';
    }
  }

  /** The strings the record filter meets in practice and must reject. */
  lemma MalformedSlugsDoNotDecode()
    ensures Decode("") == None
    ensures Decode("OPENAI") == None
    ensures Decode("AZURE_OPENAI") == None
    ensures Decode("azure_openai") == None
    ensures Decode("INVALID_PROVIDER") == None
    ensures Decode("ollama") == None
  {
  }
}
