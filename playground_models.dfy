/**
 * The playground-models query: select the eligible custom model records (optionally
 * restricted to one provider), decode each record's stored provider, silently drop the
 * records that do not decode, and project the rest to (name, providerKey).
 */
module PlaygroundModels {
  import opened Wrappers
  import opened ProviderCodec

  /**
   * A stored generative-model record, reduced to the columns the query reads.
   * `deleted` stands for "deleted_at is not null". The provider column is free text:
   * it may be empty or hold a value the codec does not recognise.
   */
  datatype ModelRecord = ModelRecord(name: string, provider: string, isBuiltIn: bool, deleted: bool)

  /** One entry of the response. */
  datatype PlaygroundModel = PlaygroundModel(name: string, providerKey: ProviderKey)

  /** Only user-created records that have not been soft-deleted may be exposed. */
  predicate Eligible(r: ModelRecord) {
    !r.isBuiltIn && !r.deleted
  }

  /**
   * The storage predicate: eligibility and, when a selector is given, exact equality of
   * the stored provider with the selector's slug.
   */
  predicate MatchesQuery(r: ModelRecord, selector: Option<ProviderKey>)
    ensures MatchesQuery(r, selector) ==> Eligible(r)
    ensures MatchesQuery(r, selector) && selector.Some? ==> Decode(r.provider) == selector
  {
    Eligible(r) && (selector.None? || r.provider == Encode(selector.value))
  }

  /** The storage read: the records satisfying the query predicate, in storage order. */
  function Query(records: seq<ModelRecord>, selector: Option<ProviderKey>): (rows: seq<ModelRecord>)
    ensures |rows| <= |records|
  {
    if records == [] then []
    else
      (if MatchesQuery(records[0], selector) then [records[0]] else []) + Query(records[1..], selector)
  }

  /** The rows read are exactly the records that satisfy the query predicate. */
  lemma {:induction false} QueryMembership(records: seq<ModelRecord>, selector: Option<ProviderKey>, r: ModelRecord)
    ensures r in Query(records, selector) <==> r in records && MatchesQuery(r, selector)
  {
    if records != [] {
      QueryMembership(records[1..], selector, r);
      assert r in records <==> r == records[0] || r in records[1..];
    }
  }

  /** One row's response entry, or None when its stored provider does not decode. */
  function Resolve(r: ModelRecord): (m: Option<PlaygroundModel>)
    ensures m.Some? <==> r.provider in Slugs
    ensures m.Some? ==> m.value.name == r.name && Encode(m.value.providerKey) == r.provider
  {
    match Decode(r.provider)
    case None => None
    case Some(k) => EncodeDecode(r.provider, k); Some(PlaygroundModel(r.name, k))
  }

  /** The entries of the rows that decode, in row order; the other rows are dropped. */
  function Resolved(rows: seq<ModelRecord>): (results: seq<PlaygroundModel>)
    ensures |results| <= |rows|
  {
    if rows == [] then []
    else (match Resolve(rows[0]) case None => [] case Some(m) => [m]) + Resolved(rows[1..])
  }

  /** An entry is produced exactly when some row resolves to it. */
  lemma {:induction false} ResolvedMembership(rows: seq<ModelRecord>, m: PlaygroundModel)
    ensures m in Resolved(rows) <==> exists r :: r in rows && Resolve(r) == Some(m)
  {
    if rows != [] {
      ResolvedMembership(rows[1..], m);
      assert forall r :: r in rows <==> r == rows[0] || r in rows[1..];
    }
  }

  /** The whole query: the response for `records` in storage and the optional selector. */
  function Listed(records: seq<ModelRecord>, selector: Option<ProviderKey>): (results: seq<PlaygroundModel>)
    ensures |results| <= |records|
  {
    Resolved(Query(records, selector))
  }

  /** Resolving a concatenation of rows concatenates the results: the row order is kept. */
  lemma {:induction false} ResolvedAppend(a: seq<ModelRecord>, b: seq<ModelRecord>)
    ensures Resolved(a + b) == Resolved(a) + Resolved(b)
  {
    if a == [] {
      assert a + b == b;
    } else {
      assert (a + b)[1..] == a[1..] + b;
      ResolvedAppend(a[1..], b);
    }
  }

  /** The storage read keeps the order of storage. */
  lemma {:induction false} QueryAppend(a: seq<ModelRecord>, b: seq<ModelRecord>, selector: Option<ProviderKey>)
    ensures Query(a + b, selector) == Query(a, selector) + Query(b, selector)
  {
    if a == [] {
      assert a + b == b;
    } else {
      var head := if MatchesQuery(a[0], selector) then [a[0]] else [];
      assert (a + b)[0] == a[0];
      assert (a + b)[1..] == a[1..] + b;
      QueryAppend(a[1..], b, selector);
      calc {
        Query(a + b, selector);
        head + Query(a[1..] + b, selector);
        head + (Query(a[1..], selector) + Query(b, selector));
        (head + Query(a[1..], selector)) + Query(b, selector);
      }
    }
  }

  /** The accumulating loop over the query's rows that builds the response. */
  method ConvertRows(rows: seq<ModelRecord>) returns (results: seq<PlaygroundModel>)
    ensures results == Resolved(rows)
  {
    results := [];
    for i := 0 to |rows|
      invariant results == Resolved(rows[..i])
    {
      var key := Decode(rows[i].provider);
      ghost var step := if key.Some? then [PlaygroundModel(rows[i].name, key.value)] else [];
      assert Resolved([rows[i]]) == step by {
        assert [rows[i]][1..] == [];
      }
      assert rows[..i + 1] == rows[..i] + [rows[i]];
      ResolvedAppend(rows[..i], [rows[i]]);
      if key.Some? {
        results := results + [PlaygroundModel(rows[i].name, key.value)];
      }
    }
    assert rows[..|rows|] == rows;
  }

  /** The query step: read the matching rows, then convert them. */
  method ListPlaygroundModels(records: seq<ModelRecord>, selector: Option<ProviderKey>)
    returns (results: seq<PlaygroundModel>)
    ensures results == Listed(records, selector)
  {
    var rows := Query(records, selector);
    results := ConvertRows(rows);
  }

  /** The response never holds more entries than there are matching rows, nor those more than records. */
  lemma ListedBounds(records: seq<ModelRecord>, selector: Option<ProviderKey>)
    ensures |Listed(records, selector)| <= |Query(records, selector)| <= |records|
  {
  }

  /**
   * Exactly which entries are listed: (n, k) is in the response iff the selector admits
   * k and some eligible record named n stores exactly the slug of k.
   */
  lemma ListedMembership(records: seq<ModelRecord>, selector: Option<ProviderKey>, m: PlaygroundModel)
    ensures m in Listed(records, selector) <==>
      (selector.None? || selector.value == m.providerKey) &&
      exists r :: r in records && Eligible(r) && r.name == m.name && r.provider == Encode(m.providerKey)
  {
    var rows := Query(records, selector);
    ResolvedMembership(rows, m);
    if m in Listed(records, selector) {
      var r :| r in rows && Resolve(r) == Some(m);
      QueryMembership(records, selector, r);
      if selector.Some? {
        EncodeInjective(selector.value, m.providerKey);
      }
    }
    if (selector.None? || selector.value == m.providerKey) &&
      exists r :: r in records && Eligible(r) && r.name == m.name && r.provider == Encode(m.providerKey)
    {
      var r :| r in records && Eligible(r) && r.name == m.name && r.provider == Encode(m.providerKey);
      DecodeEncode(m.providerKey);
      QueryMembership(records, selector, r);
      assert r in rows && Resolve(r) == Some(m);
    }
  }

  /** With a selector, every listed entry carries that selector as its key. */
  lemma SelectorRespected(records: seq<ModelRecord>, k: ProviderKey, m: PlaygroundModel)
    requires m in Listed(records, Some(k))
    ensures m.providerKey == k
  {
    ListedMembership(records, Some(k), m);
  }

  /** The response is built record by record, in storage order. */
  lemma ListedAppend(a: seq<ModelRecord>, b: seq<ModelRecord>, selector: Option<ProviderKey>)
    ensures Listed(a + b, selector) == Listed(a, selector) + Listed(b, selector)
  {
    QueryAppend(a, b, selector);
    ResolvedAppend(Query(a, selector), Query(b, selector));
  }

  /** What a single record contributes to the response. */
  lemma ListedSingleton(r: ModelRecord, selector: Option<ProviderKey>)
    ensures Listed([r], selector) ==
      if MatchesQuery(r, selector) && Decode(r.provider).Some?
      then [PlaygroundModel(r.name, Decode(r.provider).value)]
      else []
  {
    assert [r][1..] == [];
  }

  /**
   * A built-in, soft-deleted, non-matching or undecodable record contributes nothing:
   * removing it from storage leaves the response unchanged.
   */
  lemma ExcludedRecordContributesNothing(
    a: seq<ModelRecord>, r: ModelRecord, b: seq<ModelRecord>, selector: Option<ProviderKey>)
    requires r.isBuiltIn || r.deleted || Decode(r.provider) == None ||
             (selector.Some? && r.provider != Encode(selector.value))
    ensures Listed(a + [r] + b, selector) == Listed(a + b, selector)
  {
    ListedSingleton(r, selector);
    assert !MatchesQuery(r, selector) || Decode(r.provider).None?;
    assert Listed([r], selector) == [];
    ListedAppend(a + [r], b, selector);
    ListedAppend(a, [r], selector);
    assert Listed(a + [r], selector) == Listed(a, selector);
    ListedAppend(a, b, selector);
  }

  /** With no eligible record in storage the response is empty, without error. */
  lemma {:induction false} NoEligibleRecordsListNothing(records: seq<ModelRecord>, selector: Option<ProviderKey>)
    requires forall r :: r in records ==> !Eligible(r)
    ensures Listed(records, selector) == []
  {
    if records != [] {
      assert records[0] in records;
      assert forall r :: r in records[1..] ==> r in records;
      NoEligibleRecordsListNothing(records[1..], selector);
      assert Query(records, selector) == Query(records[1..], selector);
    }
  }

  /** Records none of whose providers decode list nothing, whatever the selector. */
  lemma {:induction false} UndecodableRecordsListNothing(records: seq<ModelRecord>, selector: Option<ProviderKey>)
    requires forall r :: r in records ==> Decode(r.provider) == None
    ensures Listed(records, selector) == []
  {
    if records != [] {
      assert records[0] in records;
      assert forall r :: r in records[1..] ==> r in records;
      UndecodableRecordsListNothing(records[1..], selector);
      assert records == [records[0]] + records[1..];
      ListedAppend([records[0]], records[1..], selector);
      ListedSingleton(records[0], selector);
    }
  }
}
