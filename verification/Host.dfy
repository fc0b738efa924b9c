/** The library calls the oracle and the sink rely on, as one record of functions: SHA-256,
    uuid5, `uuid.UUID`, `datetime.fromisoformat`, base64, Ed25519 and `ipaddress`.
    `Lawful` lists everything the model assumes about them. */
module Host {
  import opened Wrappers
  import opened Json

  /** A `datetime`: an instant in microseconds, and the UTC offset when it carries a timezone. */
  datatype Datetime = Datetime(micros: int, offset: Option<int>) {
    predicate Aware() { offset.Some? }
    function ToUtc(): Datetime { Datetime(micros, Some(0)) }
  }

  datatype Address = Address(v6: bool, value: nat)
  datatype Network = Network(v6: bool, address: nat, prefixLength: nat)

  function Width(v6: bool): nat { if v6 then 128 else 32 }

  datatype Host = Host(
    sha256: string -> string,
    uuid5: string -> string,
    canonicalUuid: string -> Option<string>,
    parseTime: string -> Option<Datetime>,
    isoformat: Datetime -> string,
    b64decode: string -> Option<string>,
    b64encode: string -> string,
    loadPublicKey: string -> Option<string>,
    publicKey: string -> string,
    sign: (string, string) -> string,
    checkSignature: (string, string, string) -> bool,
    parseAddress: string -> Option<Address>,
    parseNetwork: Json -> Option<Network>,
    floatInteger: string -> Option<int>)
  {
    ghost predicate Lawful() {
      && HashLaws() && UuidLaws() && TimeLaws() && SignatureLaws()
    }

    /** Digests are injective and carry their prefix. */
    ghost predicate HashLaws() {
      && (forall a, b :: sha256(a) == sha256(b) ==> a == b)
      && (forall a :: |sha256(a)| >= 7 && sha256(a)[..7] == "sha256:")
    }

    /** uuid5 is injective; the text form of a UUID is its own canonical form and never empty. */
    ghost predicate UuidLaws() {
      && (forall a, b :: uuid5(a) == uuid5(b) ==> a == b)
      && (forall a :: canonicalUuid(uuid5(a)) == Some(uuid5(a)))
      && (forall a :: canonicalUuid(a).Some? ==>
           canonicalUuid(a).value != [] && canonicalUuid(canonicalUuid(a).value) == canonicalUuid(a))
    }

    /** `isoformat` output parses back to the same value, also after `astimezone(UTC)`. */
    ghost predicate TimeLaws() {
      forall a {:trigger parseTime(a)} :: parseTime(a).Some? ==>
        var t := parseTime(a).value;
        && isoformat(t) != [] && parseTime(isoformat(t)) == Some(t)
        && (t.Aware() ==> isoformat(t.ToUtc()) != [] && parseTime(isoformat(t.ToUtc())) == Some(t.ToUtc()))
    }

    /** A signature made with a private key verifies under its public key, through base64 text. */
    ghost predicate SignatureLaws() {
      && (forall a :: b64decode(b64encode(a)) == Some(a))
      && (forall k, m :: checkSignature(publicKey(k), sign(k, m), m))
    }

    /** `canonical_sha256` */
    function CanonicalSha256(v: Json): string { sha256(Encode(v)) }
  }

  /** A toy environment: hashes are tagged texts, signatures are the signed text itself. */
  const SAMPLE := Host(
    s => "sha256:" + s, s => "u" + s, s => if s == [] then None else Some(s),
    s => if s == "t" then Some(Datetime(0, Some(0))) else None, d => "t",
    s => Some(s), s => s, s => Some(s), s => s, (k, m) => m, (k, s, m) => s == m,
    s => None, j => None, t => None)

  /** The assumptions are consistent: some host meets them all. */
  lemma SampleIsLawful()
    ensures SAMPLE.Lawful()
  {
    var h := SAMPLE;
    forall a, b | h.sha256(a) == h.sha256(b) ensures a == b {
      assert h.sha256(a)[7..] == a && h.sha256(b)[7..] == b;
    }
    forall a ensures |h.sha256(a)| >= 7 && h.sha256(a)[..7] == "sha256:" {}
    forall a, b | h.uuid5(a) == h.uuid5(b) ensures a == b {
      assert h.uuid5(a)[1..] == a && h.uuid5(b)[1..] == b;
    }
  }
}
