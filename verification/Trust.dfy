/** The oracle trust store: the JSON trust file and the key set it loads into. */
module Trust {
  import opened Wrappers
  import opened Strings
  import opened Json
  import opened Host

  /** Approved source types. None of the forbidden detector sources is among them, so the
      source's second test (`lower() not in _FORBIDDEN_SOURCES`) never decides anything. */
  predicate ApprovedSource(s: string) {
    s in {"independent_sink", "kubernetes_audit", "host_audit", "independent_runtime_monitor",
          "external_attestation", "verified_contract_registry"}
  }

  const REGISTRY := "verified_contract_registry"

  datatype TrustedKey = TrustedKey(
    keyId: string, sourceId: string, sourceType: string, publicKey: string, independent: bool)

  datatype TrustSet = TrustSet(
    keys: map<string, TrustedKey>, revoked: set<string>,
    storeId: string, generation: int, configSha256: string)
  {
    /** What a loaded key set guarantees. */
    ghost predicate Valid() {
      && (forall k :: k in keys ==> k != [] && keys[k].keyId == k && ApprovedSource(keys[k].sourceType))
      && keys.Keys !! revoked
    }
  }

  predicate NonemptyText(j: Json) { j.Str? && j.s != [] }

  /** The header of a trust file. */
  predicate ValidHeader(raw: Json) {
    && raw.Obj?
    && raw.fields.Keys == {"schema_version", "trust_store_id", "generation", "keys", "revoked_key_ids"}
    && raw.fields["schema_version"] == Str("1.0")
    && raw.fields["trust_store_id"].Str? && !Blank(raw.fields["trust_store_id"].s)
    && raw.fields["generation"].Int? && raw.fields["generation"].n >= 1
    && raw.fields["keys"].Arr?
    && ValidRevokedList(raw.fields["revoked_key_ids"])
  }

  predicate ValidRevokedList(r: Json) {
    && r.Arr?
    && (forall i :: 0 <= i < |r.items| ==> r.items[i].Str? && !Blank(r.items[i].s))
    && (forall i, j :: 0 <= i < j < |r.items| ==> r.items[i] != r.items[j])
  }

  function RevokedIds(r: Json): set<string>
    requires ValidRevokedList(r)
  {
    set i | 0 <= i < |r.items| :: r.items[i].s
  }

  /** One entry of `keys`, or None when it is rejected. */
  function ReadKey(h: Host, item: Json): Option<TrustedKey> {
    if !item.Obj?
      || item.fields.Keys != {"key_id", "source_id", "source_type", "public_key_pem", "independent_of_phantom"}
    then None
    else
      var f := item.fields;
      if !f["source_type"].Str? || !ApprovedSource(f["source_type"].s) then None
      else if !f["public_key_pem"].Str? || Contains(f["public_key_pem"].s, "PRIVATE KEY") then None
      else if h.loadPublicKey(f["public_key_pem"].s).None? then None
      else if !NonemptyText(f["key_id"]) || !NonemptyText(f["source_id"]) || !f["independent_of_phantom"].Bool?
        then None
      else Some(TrustedKey(f["key_id"].s, f["source_id"].s, f["source_type"].s,
                           h.loadPublicKey(f["public_key_pem"].s).value, f["independent_of_phantom"].b))
  }

  lemma ReadKeySound(h: Host, item: Json)
    requires ReadKey(h, item).Some?
    ensures var key := ReadKey(h, item).value; key.keyId != [] && ApprovedSource(key.sourceType)
  {}

  /** When the entries of a trust file are accepted: all readable, no key listed twice, none revoked. */
  predicate AcceptableEntries(entries: seq<Option<TrustedKey>>, revoked: set<string>) {
    && (forall i :: 0 <= i < |entries| ==> entries[i].Some?)
    && (forall i, j :: 0 <= i < j < |entries| ==> entries[i].value.keyId != entries[j].value.keyId)
    && (forall i :: 0 <= i < |entries| ==> entries[i].value.keyId !in revoked)
  }

  predicate AllRead(entries: seq<Option<TrustedKey>>) {
    forall i :: 0 <= i < |entries| ==> entries[i].Some?
  }

  predicate Listed(entries: seq<Option<TrustedKey>>, keyId: string)
    requires AllRead(entries)
  {
    exists i :: 0 <= i < |entries| && entries[i].value.keyId == keyId
  }

  /** The accepted entries, by key id. */
  function KeyTable(entries: seq<Option<TrustedKey>>): map<string, TrustedKey>
    requires AllRead(entries)
  {
    if entries == [] then map[]
    else
      var n := |entries| - 1;
      KeyTable(entries[..n])[entries[n].value.keyId := entries[n].value]
  }

  lemma {:induction false} TableIds(entries: seq<Option<TrustedKey>>, k: string)
    requires AllRead(entries)
    ensures k in KeyTable(entries) <==> Listed(entries, k)
    ensures k in KeyTable(entries) ==> KeyTable(entries)[k].keyId == k && Some(KeyTable(entries)[k]) in entries
  {
    if entries != [] {
      var n := |entries| - 1;
      TableIds(entries[..n], k);
      if Listed(entries[..n], k) {
        var i :| 0 <= i < n && entries[..n][i].value.keyId == k;
        assert entries[i].value.keyId == k;
      }
      if Listed(entries, k) && entries[n].value.keyId != k {
        var i :| 0 <= i < |entries| && entries[i].value.keyId == k;
        assert entries[..n][i].value.keyId == k;
      }
    }
  }

  lemma TableNext(before: seq<Option<TrustedKey>>, e: Option<TrustedKey>)
    requires AllRead(before) && e.Some?
    ensures AllRead(before + [e]) && KeyTable(before + [e]) == KeyTable(before)[e.value.keyId := e.value]
  {
    assert (before + [e])[..|before|] == before;
  }

  /** Reading one more entry: it must be readable and its id new to the table. */
  lemma OneMoreEntry(before: seq<Option<TrustedKey>>, e: Option<TrustedKey>)
    requires AcceptableEntries(before, {})
    ensures AcceptableEntries(before + [e], {}) <==> e.Some? && e.value.keyId !in KeyTable(before)
    ensures e.Some? ==> AllRead(before + [e]) && KeyTable(before + [e]) == KeyTable(before)[e.value.keyId := e.value]
  {
    hide KeyTable;
    var after := before + [e];
    assert after[|before|] == e;
    if e.Some? {
      TableNext(before, e);
      TableIds(before, e.value.keyId);
      if Listed(before, e.value.keyId) {
        var i :| 0 <= i < |before| && before[i].value.keyId == e.value.keyId;
        assert after[i] == before[i];
      }
    }
  }

  lemma NotAcceptable(entries: seq<Option<TrustedKey>>, i: nat, revoked: set<string>)
    requires i <= |entries| && !AcceptableEntries(entries[..i], {})
    ensures !AcceptableEntries(entries, revoked)
  {}

  /** The loop of `load_trusted_oracle_keys`: fills the key dictionary entry by entry, then
      compares it with the revocation list. */
  method FillKeyTable(entries: seq<Option<TrustedKey>>, revoked: set<string>) returns (r: Option<map<string,
      TrustedKey>>)
    ensures r.Some? <==> AcceptableEntries(entries, revoked)
    ensures r.Some? ==> r.value == KeyTable(entries)
  {
    var result: map<string, TrustedKey> := map[];
    for i := 0 to |entries|
      invariant AcceptableEntries(entries[..i], {})
      invariant result == KeyTable(entries[..i])
    {
      OneMoreEntry(entries[..i], entries[i]);
      assert entries[..i + 1] == entries[..i] + [entries[i]];
      if entries[i].None? || entries[i].value.keyId in result {
        NotAcceptable(entries, i + 1, revoked);
        return None;
      }
      result := result[entries[i].value.keyId := entries[i].value];
    }
    assert entries[..|entries|] == entries;
    if result.Keys * revoked != {} {
      ghost var k :| k in result.Keys * revoked;
      TableIds(entries, k);
      return None;
    }
    forall i | 0 <= i < |entries| ensures entries[i].value.keyId !in revoked {
      TableIds(entries, entries[i].value.keyId);
    }
    return Some(result);
  }

  function Entries(h: Host, raw: Json): (e: seq<Option<TrustedKey>>)
    requires ValidHeader(raw)
  {
    var items := raw.fields["keys"].items;
    seq(|items|, i requires 0 <= i < |items| => ReadKey(h, items[i]))
  }

  predicate AcceptableTrustFile(h: Host, raw: Json) {
    ValidHeader(raw) && AcceptableEntries(Entries(h, raw), RevokedIds(raw.fields["revoked_key_ids"]))
  }

  function TrustSetOf(h: Host, raw: Json): TrustSet
    requires AcceptableTrustFile(h, raw)
  {
    TrustSet(KeyTable(Entries(h, raw)), RevokedIds(raw.fields["revoked_key_ids"]),
             raw.fields["trust_store_id"].s, raw.fields["generation"].n, h.CanonicalSha256(raw))
  }

  /** `load_trusted_oracle_keys` */
  method LoadTrustedOracleKeys(h: Host, raw: Json) returns (r: Option<TrustSet>)
    ensures r.Some? <==> AcceptableTrustFile(h, raw)
    ensures r.Some? ==> r.value == TrustSetOf(h, raw) && r.value.Valid()
  {
    if !ValidHeader(raw) { return None; }
    var keys := FillKeyTable(Entries(h, raw), RevokedIds(raw.fields["revoked_key_ids"]));
    if keys.None? { return None; }
    LoadedTrustIsValid(h, raw);
    return Some(TrustSet(keys.value, RevokedIds(raw.fields["revoked_key_ids"]), raw.fields["trust_store_id"].s,
                         raw.fields["generation"].n, h.CanonicalSha256(raw)));
  }

  lemma LoadedKey(entries: seq<Option<TrustedKey>>, revoked: set<string>, k: string)
    requires AcceptableEntries(entries, revoked) && k in KeyTable(entries)
    ensures KeyTable(entries)[k].keyId == k && Some(KeyTable(entries)[k]) in entries && k !in revoked
  {
    TableIds(entries, k);
  }

  lemma EntryApproved(h: Host, raw: Json, e: Option<TrustedKey>)
    requires ValidHeader(raw) && e in Entries(h, raw) && e.Some?
    ensures e.value.keyId != [] && ApprovedSource(e.value.sourceType)
  {
    var i :| 0 <= i < |Entries(h, raw)| && Entries(h, raw)[i] == e;
    ReadKeySound(h, raw.fields["keys"].items[i]);
  }

  /** A loaded key set binds every id to a nonempty approved key of that id, and none is revoked. */
  lemma LoadedTrustIsValid(h: Host, raw: Json)
    requires AcceptableTrustFile(h, raw)
    ensures TrustSetOf(h, raw).Valid()
  {
    var entries, revoked := Entries(h, raw), RevokedIds(raw.fields["revoked_key_ids"]);
    forall k | k in KeyTable(entries)
      ensures k !in revoked && KeyTable(entries)[k].keyId == k != [] && ApprovedSource(KeyTable(entries)[k].sourceType)
    {
      LoadedKey(entries, revoked, k);
      EntryApproved(h, raw, Some(KeyTable(entries)[k]));
    }
  }

  /** The configuration hash identifies the configuration: equal hashes load equal key sets. */
  lemma SameHashSameTrust(h: Host, a: Json, b: Json)
    requires h.Lawful() && AcceptableTrustFile(h, a) && AcceptableTrustFile(h, b)
    requires TrustSetOf(h, a).configSha256 == TrustSetOf(h, b).configSha256
    ensures a == b && TrustSetOf(h, a) == TrustSetOf(h, b)
  {
    EncodeInjective(a, b);
  }
}
