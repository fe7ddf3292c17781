/**
 * The concrete data the repository checks the query against: the four sample rows of
 * the filter-verification script and the records its unit tests store, with the
 * outcomes the model gives for them.
 */
module Scenarios {
  import opened Wrappers
  import opened ProviderCodec
  import opened PlaygroundModels

  /** The names in a response, compared as a set as the script does. */
  function Names(ms: seq<PlaygroundModel>): set<string> {
    set m | m in ms :: m.name
  }

  /** The script's sample rows: all custom, none deleted, lower-case slugs. */
  const SampleRecords: seq<ModelRecord> := [
    ModelRecord("gpt-4o-custom", "openai", false, false),
    ModelRecord("gpt-4-turbo-custom", "openai", false, false),
    ModelRecord("claude-3-5-sonnet-custom", "anthropic", false, false),
    ModelRecord("deepseek-coder", "deepseek", false, false)
  ]

  lemma SampleOpenAI()
    ensures Listed(SampleRecords, Some(OpenAI)) ==
      [PlaygroundModel("gpt-4o-custom", OpenAI), PlaygroundModel("gpt-4-turbo-custom", OpenAI)]
    ensures Names(Listed(SampleRecords, Some(OpenAI))) == {"gpt-4o-custom", "gpt-4-turbo-custom"}
  {
  }

  lemma SampleAnthropic()
    ensures Listed(SampleRecords, Some(Anthropic)) ==
      [PlaygroundModel("claude-3-5-sonnet-custom", Anthropic)]
    ensures Names(Listed(SampleRecords, Some(Anthropic))) == {"claude-3-5-sonnet-custom"}
  {
  }

  lemma SampleDeepSeek()
    ensures Listed(SampleRecords, Some(DeepSeek)) == [PlaygroundModel("deepseek-coder", DeepSeek)]
    ensures Names(Listed(SampleRecords, Some(DeepSeek))) == {"deepseek-coder"}
  {
  }

  /**
   * The unit-test fixture as written: three custom records, one built-in and one
   * soft-deleted, all storing the provider in upper case ("OPENAI", "ANTHROPIC").
   */
  const FixtureAsWritten: seq<ModelRecord> := [
    ModelRecord("gpt-4o-custom", "OPENAI", false, false),
    ModelRecord("gpt-4-turbo-custom", "OPENAI", false, false),
    ModelRecord("claude-3-5-sonnet-custom", "ANTHROPIC", false, false),
    ModelRecord("gpt-4-builtin", "OPENAI", true, false),
    ModelRecord("gpt-4-deleted", "OPENAI", false, true)
  ]

  /**
   * Under the exact, case-sensitive codec the upper-case fixture lists nothing: no
   * stored provider decodes, and no selector's slug equals an upper-case value. The
   * tests expect three entries without a selector, two with OPENAI and one with ANTHROPIC.
   */
  lemma FixtureAsWrittenListsNothing(selector: Option<ProviderKey>)
    ensures Listed(FixtureAsWritten, selector) == []
  {
    forall r | r in FixtureAsWritten
      ensures Decode(r.provider) == None
    {
      UpperCaseNeverDecodes(r.provider);
    }
    UndecodableRecordsListNothing(FixtureAsWritten, selector);
  }

  /**
   * The same fixture storing the lower-case slugs the codec recognises: the three
   * custom records followed by the built-in and the soft-deleted one.
   */
  const Fixture: seq<ModelRecord> := FixtureCustom + FixtureRetired

  const FixtureCustom: seq<ModelRecord> := [
    ModelRecord("gpt-4o-custom", "openai", false, false),
    ModelRecord("gpt-4-turbo-custom", "openai", false, false),
    ModelRecord("claude-3-5-sonnet-custom", "anthropic", false, false)
  ]

  const FixtureRetired: seq<ModelRecord> := [
    ModelRecord("gpt-4-builtin", "openai", true, false),
    ModelRecord("gpt-4-deleted", "openai", false, true)
  ]

  /** The built-in and the soft-deleted fixture records never affect the response. */
  lemma FixtureRetiredIgnored(selector: Option<ProviderKey>)
    ensures Listed(Fixture, selector) == Listed(FixtureCustom, selector)
  {
    ListedAppend(FixtureCustom, FixtureRetired, selector);
    NoEligibleRecordsListNothing(FixtureRetired, selector);
  }

  /** The three custom fixture records all decode, so all three are listed, in order. */
  lemma FixtureCustomListed()
    ensures Listed(FixtureCustom, None) == [
      PlaygroundModel("gpt-4o-custom", OpenAI),
      PlaygroundModel("gpt-4-turbo-custom", OpenAI),
      PlaygroundModel("claude-3-5-sonnet-custom", Anthropic)]
  {
    assert Query(FixtureCustom, None) == FixtureCustom;
    assert Resolve(FixtureCustom[0]) == Some(PlaygroundModel("gpt-4o-custom", OpenAI));
    assert Resolve(FixtureCustom[1]) == Some(PlaygroundModel("gpt-4-turbo-custom", OpenAI));
    assert Resolve(FixtureCustom[2]) == Some(PlaygroundModel("claude-3-5-sonnet-custom", Anthropic));
    assert Resolved(FixtureCustom[2..]) == [PlaygroundModel("claude-3-5-sonnet-custom", Anthropic)];
  }

  /** Without a selector: exactly the three custom, live records; never the built-in or deleted one. */
  lemma FixtureReturnsOnlyCustomModels()
    ensures Listed(Fixture, None) == [
      PlaygroundModel("gpt-4o-custom", OpenAI),
      PlaygroundModel("gpt-4-turbo-custom", OpenAI),
      PlaygroundModel("claude-3-5-sonnet-custom", Anthropic)]
    ensures forall m :: m in Listed(Fixture, None) ==> m.name != "gpt-4-builtin"
    ensures forall m :: m in Listed(Fixture, None) ==> m.name != "gpt-4-deleted"
  {
    FixtureRetiredIgnored(None);
    FixtureCustomListed();
    RetiredNamesAreNotCustomNames();
  }

  /** The built-in and deleted records' names differ from every custom record's name. */
  lemma RetiredNamesAreNotCustomNames()
    ensures forall r, c :: r in FixtureRetired && c in FixtureCustom ==> r.name != c.name
  {
  }

  /** Selector OPENAI: the two OpenAI custom records, every key OPENAI. */
  lemma FixtureFilterByOpenAI()
    ensures Listed(Fixture, Some(OpenAI)) ==
      [PlaygroundModel("gpt-4o-custom", OpenAI), PlaygroundModel("gpt-4-turbo-custom", OpenAI)]
    ensures forall m :: m in Listed(Fixture, Some(OpenAI)) ==> Name(m.providerKey) == "OPENAI"
  {
    FixtureRetiredIgnored(Some(OpenAI));
  }

  /** Selector ANTHROPIC: the one Anthropic custom record, with key ANTHROPIC. */
  lemma FixtureFilterByAnthropic()
    ensures Listed(Fixture, Some(Anthropic)) == [PlaygroundModel("claude-3-5-sonnet-custom", Anthropic)]
    ensures forall m :: m in Listed(Fixture, Some(Anthropic)) ==> Name(m.providerKey) == "ANTHROPIC"
  {
    FixtureRetiredIgnored(Some(Anthropic));
  }

  /** An empty store lists nothing. */
  lemma EmptyStoreListsNothing(selector: Option<ProviderKey>)
    ensures Listed([], selector) == []
  {
  }

  /** A custom record with an empty provider is dropped silently. */
  lemma EmptyProviderExcluded(selector: Option<ProviderKey>)
    ensures Listed([ModelRecord("no-provider-model", "", false, false)], selector) == []
  {
  }

  /** A custom record with an unrecognised provider is dropped silently. */
  lemma InvalidProviderExcluded(selector: Option<ProviderKey>)
    ensures Listed([ModelRecord("invalid-provider-model", "INVALID_PROVIDER", false, false)], selector) == []
  {
  }

  /** The provider keys the field-structure test accepts, OLLAMA among them. */
  const ValidProviders: seq<string> :=
    ["OPENAI", "ANTHROPIC", "AZURE_OPENAI", "GOOGLE", "AWS", "DEEPSEEK", "XAI", "OLLAMA"]

  /**
   * Every key serializes to one of the accepted names, so every listed entry's key does:
   * the closed key type alone gives the fact. OLLAMA is accepted by the test but is no
   * key of the enumeration, so it is never listed.
   */
  lemma KeyNamesAreValid(k: ProviderKey)
    ensures Name(k) in ValidProviders
    ensures Name(k) != "OLLAMA"
  {
  }
}
