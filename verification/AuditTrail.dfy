/** The hash chain of the audit trail and its fingerprint (src/audit/trail.py,
    src/compliance/evidence_bundle.py). Hashing and serialization are parameters. */
module AuditTrail {
  import Text

  /** Serializes a payload canonically; hashes the text "previous:serialized". */
  datatype Digest<!P> = Digest(serialize: P -> string, hash: string -> string)

  datatype AuditRecord<P> = AuditRecord(payload: P, previousHash: string, recordHash: string)

  /** What is assumed of the hash: distinct texts have distinct hashes, and a hash is a non-empty string
      without a colon. */
  ghost predicate HashOk<P(!new)>(d: Digest<P>) {
    && (forall a, b :: d.hash(a) == d.hash(b) ==> a == b)
    && (forall a :: d.hash(a) != "" && ':' !in d.hash(a))
  }

  /** A text with its colons written as "%1" and its percent signs as "%0". */
  function Escaped(s: string): string {
    if s == "" then ""
    else (if s[0] == ':' then "%1" else if s[0] == '%' then "%0" else [s[0]]) + Escaped(s[1..])
  }

  lemma {:induction false} EscapedHasNoColon(s: string)
    ensures ':' !in Escaped(s)
  {
    if s != "" {
      EscapedHasNoColon(s[1..]);
    }
  }

  lemma {:induction false} EscapedIsInjective(a: string, b: string)
    requires Escaped(a) == Escaped(b)
    ensures a == b
  {
    if a != "" && b != "" {
      assert Escaped(a)[0] == Escaped(b)[0];
      if a[0] == ':' || a[0] == '%' {
        assert Escaped(a)[1] == Escaped(b)[1];
        assert Escaped(a)[2..] == Escaped(a[1..]) && Escaped(b)[2..] == Escaped(b[1..]);
      } else {
        assert Escaped(a)[1..] == Escaped(a[1..]) && Escaped(b)[1..] == Escaped(b[1..]);
      }
      EscapedIsInjective(a[1..], b[1..]);
      assert a == [a[0]] + a[1..] && b == [b[0]] + b[1..];
    }
  }

  /** There are such hashes: escaping is one. */
  lemma HashOkIsPossible<P(!new)>(serialize: P -> string)
    ensures HashOk(Digest(serialize, (s: string) => "h" + Escaped(s)))
  {
    var hash := (s: string) => "h" + Escaped(s);
    forall a, b | hash(a) == hash(b) ensures a == b {
      assert hash(a)[1..] == Escaped(a) && hash(b)[1..] == Escaped(b);
      EscapedIsInjective(a, b);
    }
    forall a ensures hash(a) != "" && ':' !in hash(a) {
      EscapedHasNoColon(a);
    }
  }

  function RecordHash<P>(d: Digest<P>, payload: P, previousHash: string): string {
    d.hash(previousHash + ":" + d.serialize(payload))
  }

  function ChainRecord<P>(d: Digest<P>, payload: P, previousHash: string): AuditRecord<P> {
    AuditRecord(payload, previousHash, RecordHash(d, payload, previousHash))
  }

  /** Record i carries the hash of the one before and its own correct hash. */
  ghost predicate IsLinked<P>(d: Digest<P>, records: seq<AuditRecord<P>>, i: nat)
    requires i < |records|
  {
    && records[i].previousHash == HashBefore(records, i)
    && records[i].recordHash == d.hash(HashBefore(records, i) + ":" + d.serialize(records[i].payload))
  }

  ghost predicate IsChain<P>(d: Digest<P>, records: seq<AuditRecord<P>>) {
    forall i :: 0 <= i < |records| ==> IsLinked(d, records, i)
  }

  function HashBefore<P>(records: seq<AuditRecord<P>>, i: nat): string
    requires i <= |records|
  {
    if i == 0 then "" else records[i - 1].recordHash
  }

  function FinalHash<P>(records: seq<AuditRecord<P>>): string {
    HashBefore(records, |records|)
  }

  method VerifyChain<P>(d: Digest<P>, records: seq<AuditRecord<P>>) returns (ok: bool)
    ensures ok <==> IsChain(d, records)
  {
    var previous := "";
    for i := 0 to |records|
      invariant previous == HashBefore(records, i)
      invariant forall j :: 0 <= j < i ==> IsLinked(d, records, j)
    {
      var expected := ChainRecord(d, records[i].payload, previous);
      if expected.recordHash != records[i].recordHash || records[i].previousHash != previous {
        assert !IsLinked(d, records, i);
        return false;
      }
      previous := records[i].recordHash;
    }
    return true;
  }

  function Serialized<P>(d: Digest<P>, payloads: seq<P>): seq<string> {
    seq(|payloads|, i requires 0 <= i < |payloads| => d.serialize(payloads[i]))
  }

  function PayloadsOf<P>(records: seq<AuditRecord<P>>): seq<P> {
    seq(|records|, i requires 0 <= i < |records| => records[i].payload)
  }

  /** A record hash determines the hash before it and the serialized payload. */
  lemma RecordHashDetermines<P(!new)>(d: Digest<P>, p: P, before: string, q: P, before': string)
    requires HashOk(d) && ':' !in before && ':' !in before'
    requires RecordHash(d, p, before) == RecordHash(d, q, before')
    ensures before == before' && d.serialize(p) == d.serialize(q)
  {
    Text.FirstColonSplits(before, d.serialize(p), before', d.serialize(q));
  }

  /** In a chain the hash before a place has no colon, and past the start it is the previous record's hash. */
  lemma HashBeforeInChain<P(!new)>(d: Digest<P>, records: seq<AuditRecord<P>>, i: nat)
    requires HashOk(d) && IsChain(d, records) && i <= |records|
    ensures ':' !in HashBefore(records, i)
    ensures i > 0 ==> HashBefore(records, i) == RecordHash(d, records[i - 1].payload, HashBefore(records, i - 1))
    ensures i > 0 <==> HashBefore(records, i) != ""
  {
    if i > 0 {
      assert IsLinked(d, records, i - 1);
    }
  }

  /** Equal hashes at two places of two chains: both are at the start, or neither is and the places before
      them carry the same payload and equal hashes. */
  lemma SameHashStep<P(!new)>(d: Digest<P>, a: seq<AuditRecord<P>>, i: nat, b: seq<AuditRecord<P>>, j: nat)
    requires HashOk(d) && IsChain(d, a) && IsChain(d, b) && i <= |a| && j <= |b|
    requires HashBefore(a, i) == HashBefore(b, j)
    ensures i == 0 <==> j == 0
    ensures i > 0 ==>
      && HashBefore(a, i - 1) == HashBefore(b, j - 1)
      && d.serialize(a[i - 1].payload) == d.serialize(b[j - 1].payload)
  {
    HashBeforeInChain(d, a, i);
    HashBeforeInChain(d, b, j);
    if i > 0 {
      HashBeforeInChain(d, a, i - 1);
      HashBeforeInChain(d, b, j - 1);
      RecordHashDetermines(d, a[i - 1].payload, HashBefore(a, i - 1), b[j - 1].payload, HashBefore(b, j - 1));
    }
  }

  /** Equal hashes at two places of two chains mean equal places and equal histories up to there. */
  lemma {:induction false} HashDeterminesPrefix<P(!new)>(d: Digest<P>, a: seq<AuditRecord<P>>, i: nat, b: seq<AuditRecord<P>>, j: nat)
    requires HashOk(d) && IsChain(d, a) && IsChain(d, b) && i <= |a| && j <= |b|
    requires HashBefore(a, i) == HashBefore(b, j)
    ensures i == j
    ensures forall k :: 0 <= k < i ==> d.serialize(a[k].payload) == d.serialize(b[k].payload)
    decreases i
  {
    SameHashStep(d, a, i, b, j);
    if i > 0 {
      HashDeterminesPrefix(d, a, i - 1, b, j - 1);
    }
  }

  /** Two verified chains with the same final hash have the same serialized payloads, in the same order. */
  lemma FinalHashDeterminesChain<P(!new)>(d: Digest<P>, a: seq<AuditRecord<P>>, b: seq<AuditRecord<P>>)
    requires HashOk(d) && IsChain(d, a) && IsChain(d, b) && FinalHash(a) == FinalHash(b)
    ensures Serialized(d, PayloadsOf(a)) == Serialized(d, PayloadsOf(b))
  {
    HashDeterminesPrefix(d, a, |a|, b, |b|);
  }

  // ----- The fingerprint -----

  /** The chain built record by record. */
  function Chained<P>(d: Digest<P>, payloads: seq<P>): (records: seq<AuditRecord<P>>)
    ensures |records| == |payloads|
    decreases |payloads|
  {
    if payloads == [] then []
    else
      var front := Chained(d, payloads[..|payloads| - 1]);
      front + [ChainRecord(d, payloads[|payloads| - 1], FinalHash(front))]
  }

  lemma {:induction false} ChainedVerifies<P>(d: Digest<P>, payloads: seq<P>)
    ensures IsChain(d, Chained(d, payloads)) && PayloadsOf(Chained(d, payloads)) == payloads
    decreases |payloads|
  {
    if payloads != [] {
      var front := Chained(d, payloads[..|payloads| - 1]);
      ChainedVerifies(d, payloads[..|payloads| - 1]);
      var all := Chained(d, payloads);
      forall i | 0 <= i < |all|
        ensures IsLinked(d, all, i)
        ensures all[i].payload == payloads[i]
      {
        assert HashBefore(all, i) == HashBefore(front, i);
        if i < |front| {
          assert IsLinked(d, front, i);
          assert PayloadsOf(front)[i] == payloads[..|payloads| - 1][i];
        }
      }
    }
  }

  /** Folds the records into a chain; the result always verifies, and the fingerprint is its last hash. */
  method ComputeFingerprint<P>(d: Digest<P>, payloads: seq<P>) returns (valid: bool, fingerprint: string)
    ensures valid && fingerprint == FinalHash(Chained(d, payloads))
  {
    var chain: seq<AuditRecord<P>> := [];
    var previousHash := "";
    for i := 0 to |payloads|
      invariant chain == Chained(d, payloads[..i]) && previousHash == FinalHash(chain)
    {
      assert payloads[..i + 1][..i] == payloads[..i];
      var chained := ChainRecord(d, payloads[i], previousHash);
      chain := chain + [chained];
      previousHash := chained.recordHash;
    }
    assert payloads[..|payloads|] == payloads;
    ChainedVerifies(d, payloads);
    valid := VerifyChain(d, chain);
    fingerprint := if chain == [] then "" else chain[|chain| - 1].recordHash;
  }

  /** The fingerprint determines the records up to serialization: equal fingerprints come from, and only
      from, equal serialized sequences. */
  lemma {:induction false} FingerprintIsInjective<P(!new)>(d: Digest<P>, a: seq<P>, b: seq<P>)
    requires HashOk(d)
    ensures FinalHash(Chained(d, a)) == FinalHash(Chained(d, b)) <==> Serialized(d, a) == Serialized(d, b)
  {
    ChainedVerifies(d, a);
    ChainedVerifies(d, b);
    if FinalHash(Chained(d, a)) == FinalHash(Chained(d, b)) {
      FinalHashDeterminesChain(d, Chained(d, a), Chained(d, b));
    }
    if Serialized(d, a) == Serialized(d, b) {
      SameSerializedSameHash(d, a, b);
    }
  }

  lemma {:induction false} SameSerializedSameHash<P>(d: Digest<P>, a: seq<P>, b: seq<P>)
    requires Serialized(d, a) == Serialized(d, b)
    ensures FinalHash(Chained(d, a)) == FinalHash(Chained(d, b))
    decreases |a|
  {
    assert |Serialized(d, a)| == |a| == |b|;
    if a != [] {
      var n := |a| - 1;
      assert d.serialize(a[n]) == Serialized(d, a)[n] == Serialized(d, b)[n] == d.serialize(b[n]);
      assert Serialized(d, a[..n]) == Serialized(d, a)[..n] == Serialized(d, b)[..n] == Serialized(d, b[..n]);
      SameSerializedSameHash(d, a[..n], b[..n]);
    }
  }
}
