/** The single trust row: configurations are applied in generations, and a revocation is for ever. */
module TrustState {
  import opened Wrappers
  import opened Trust

  datatype TrustRow = TrustRow(
    storeId: string, generation: int, configSha256: string, active: set<string>, revoked: set<string>)

  datatype TrustError =
    | NoMetadata | RevokedActive | OtherStore | Rollback | ChangedInPlace | RemovedUnrevoked | Reactivated

  /** The row a configuration leaves behind and the revoked ids it reports. */
  datatype Applied = Applied(row: TrustRow, revoked: set<string>)

  predicate HasMetadata(t: TrustSet) {
    t.storeId != [] && |t.configSha256| >= 7 && t.configSha256[..7] == "sha256:"
  }

  /** The transaction of `apply_trust_configuration`. */
  function Apply(prior: Option<TrustRow>, t: TrustSet): Result<Applied, TrustError> {
    var active := t.keys.Keys;
    if !HasMetadata(t) then Err(NoMetadata)
    else match prior
      case None =>
        if !(active !! t.revoked) then Err(RevokedActive)
        else Ok(Applied(TrustRow(t.storeId, t.generation, t.configSha256, active, t.revoked), t.revoked))
      case Some(row) =>
        if row.storeId != t.storeId then Err(OtherStore)
        else if t.generation < row.generation then Err(Rollback)
        else if t.generation == row.generation then
          if t.configSha256 != row.configSha256 then Err(ChangedInPlace)
          else Ok(Applied(row, row.revoked + t.revoked))
        else if !(row.active <= active + t.revoked) then Err(RemovedUnrevoked)
        else if !(active !! row.revoked + t.revoked) then Err(Reactivated)
        else Ok(Applied(TrustRow(row.storeId, t.generation, t.configSha256, active, row.revoked + t.revoked),
                        row.revoked + t.revoked))
  }

  /** How one row relates to any earlier one. */
  ghost predicate Evolves(a: TrustRow, b: TrustRow) {
    && a.storeId == b.storeId
    && a.generation <= b.generation
    && (a.generation == b.generation ==> a == b)
    && a.revoked <= b.revoked
    && a.active <= b.active + b.revoked
  }

  /** The row after a sequence of configurations; a refused one changes nothing. */
  function ApplyAll(prior: Option<TrustRow>, ts: seq<TrustSet>): Option<TrustRow> {
    if ts == [] then prior
    else
      var before := ApplyAll(prior, ts[..|ts| - 1]);
      match Apply(before, ts[|ts| - 1])
      case Ok(a) => Some(a.row)
      case Err(_) => before
  }

  lemma ApplyEvolves(prior: Option<TrustRow>, t: TrustSet)
    requires prior.Some? ==> prior.value.active !! prior.value.revoked
    ensures Apply(prior, t).Ok? ==>
      && Apply(prior, t).value.row.active !! Apply(prior, t).value.row.revoked
      && (prior.Some? ==> Evolves(prior.value, Apply(prior, t).value.row))
  {}

  /** A process started on this configuration agrees with the row: the same active keys and, provided a
      repeated generation repeats the configuration, the same revocations. */
  lemma ApplyAgrees(prior: Option<TrustRow>, t: TrustSet)
    requires prior.Some? && t.generation == prior.value.generation && t.configSha256 == prior.value.configSha256 ==>
      t.keys.Keys == prior.value.active && t.revoked <= prior.value.revoked
    ensures Apply(prior, t).Ok? ==>
      var a := Apply(prior, t).value;
      && t.keys.Keys == a.row.active && a.revoked == a.row.revoked && t.revoked <= a.row.revoked
      && a.row.configSha256 == t.configSha256
      && (prior.Some? && t.generation == prior.value.generation ==>
        a.row == prior.value && t.configSha256 == prior.value.configSha256)
  {}

  /** Over every sequence of configurations: active and revoked stay disjoint, revocations
      accumulate, the generation never falls, one generation never has two configurations, the
      store id is constant, and a key once active is active or revoked. */
  lemma {:induction false} TrustHistory(prior: Option<TrustRow>, ts: seq<TrustSet>, i: nat)
    requires i <= |ts|
    requires prior.Some? ==> prior.value.active !! prior.value.revoked
    ensures var now, earlier := ApplyAll(prior, ts), ApplyAll(prior, ts[..i]);
      && (now.Some? ==> now.value.active !! now.value.revoked)
      && (earlier.Some? ==> now.Some? && Evolves(earlier.value, now.value))
  {
    if ts == [] || i == |ts| {
      assert ts[..i] == ts;
      if ts != [] { TrustHistory(prior, ts[..|ts| - 1], |ts| - 1); ApplyEvolves(ApplyAll(prior, ts[..|ts| - 1]),
        ts[|ts| - 1]); }
    } else {
      var init := ts[..|ts| - 1];
      assert init[..i] == ts[..i];
      TrustHistory(prior, init, i);
      ApplyEvolves(ApplyAll(prior, init), ts[|ts| - 1]);
    }
  }

  /** A revoked key never comes back: no later configuration that lists it active is accepted. */
  lemma RevokedNeverReactivated(prior: Option<TrustRow>, ts: seq<TrustSet>, i: nat, k: string)
    requires i <= |ts| && (prior.Some? ==> prior.value.active !! prior.value.revoked)
    requires var earlier := ApplyAll(prior, ts[..i]); earlier.Some? && k in earlier.value.revoked
    ensures var now := ApplyAll(prior, ts); now.Some? && k in now.value.revoked && k !in now.value.active
  {
    TrustHistory(prior, ts, i);
  }
}
