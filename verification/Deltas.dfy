/**
  State deltas in indexer form: unordered maps become sequences that depend on
  nothing but the map, and from which the map can be rebuilt.
 */
module Deltas {
  import opened Basics
  import opened Base64
  import opened SortedKeys

  // ----- one state delta

  /** A ValueDelta and its indexer form; an empty byte string is left out of the latter. */
  datatype ValueDelta = ValueDelta(action: U64, bytes: Bytes, uint: U64)
  datatype KeyValue = KeyValue(key: string, action: U64, bytes: Option<string>, uint: U64)
  type StateDelta = map<Bytes, ValueDelta>

  function Render(k: Bytes, v: ValueDelta): KeyValue {
    KeyValue(Encode(k), v.action, if Encode(v.bytes) == "" then None else Some(Encode(v.bytes)), v.uint)
  }

  function KeyOf(kv: KeyValue): Bytes {
    Decode(kv.key)
  }

  function ValueOf(kv: KeyValue): ValueDelta {
    ValueDelta(kv.action, if kv.bytes.None? then [] else Decode(kv.bytes.value), kv.uint)
  }

  lemma RenderRoundTrip(k: Bytes, v: ValueDelta)
    ensures KeyOf(Render(k, v)) == k && ValueOf(Render(k, v)) == v
    ensures Render(k, v).bytes.None? <==> v.bytes == []
    ensures Render(k, v).key == Encode(k) && (v.bytes != [] ==> Render(k, v).bytes == Some(Encode(v.bytes)))
  {
    EncodedShape(v.bytes);
    RoundTrip(k);
    RoundTrip(v.bytes);
  }

  function Lookup(d: StateDelta, k: Bytes): ValueDelta {
    if k in d then d[k] else ValueDelta(0, [], 0)
  }

  function RenderAll(d: StateDelta, ks: seq<Bytes>): seq<KeyValue> {
    seq(|ks|, i requires 0 <= i < |ks| => Render(ks[i], Lookup(d, ks[i])))
  }

  /** The keys of a delta in ascending order. */
  ghost function KeysOf(d: StateDelta): (ks: seq<Bytes>)
    ensures AscendingBytes(ks) && |ks| == |d.Keys| && forall k :: k in ks <==> k in d
  {
    var ks := CanonicalBytes(d.Keys);
    assert forall k :: k in ks <==> k in Elements(ks);
    ks
  }

  /** The one indexer form of a delta: its keys in ascending order, nil if it has none. */
  ghost function DeltaOf(d: StateDelta): Option<seq<KeyValue>> {
    if |d| == 0 then None else Some(RenderAll(d, KeysOf(d)))
  }

  lemma RenderAllSnoc(d: StateDelta, ks: seq<Bytes>, k: Bytes)
    ensures RenderAll(d, ks + [k]) == RenderAll(d, ks) + [Render(k, Lookup(d, k))]
  {
  }

  /** The loop that renders the sorted keys. */
  method RenderLoop(d: StateDelta, keys: seq<Bytes>) returns (delta: seq<KeyValue>)
    ensures delta == RenderAll(d, keys)
  {
    delta := [];
    for i := 0 to |keys|
      invariant delta == RenderAll(d, keys[..i])
    {
      RenderAllSnoc(d, keys[..i], keys[i]);
      assert keys[..i + 1] == keys[..i] + [keys[i]];
      delta := delta + [Render(keys[i], Lookup(d, keys[i]))];
    }
    assert keys[..|keys|] == keys;
  }

  /** stateDeltaToStateDelta: the result does not depend on the iteration order. */
  method StateDeltaToStateDelta(d: StateDelta) returns (r: Option<seq<KeyValue>>)
    ensures r == DeltaOf(d)
  {
    if |d| == 0 {
      return None;
    }
    var keys := SortedByteKeys(d);
    var delta := RenderLoop(d, keys);
    r := Some(delta);
  }

  /** Reading a delta back from its indexer form. */
  function Rebuild(r: seq<KeyValue>): StateDelta {
    if r == [] then map[]
    else Rebuild(r[..|r| - 1])[KeyOf(r[|r| - 1]) := ValueOf(r[|r| - 1])]
  }

  /** Rebuilding from entries that agree with d gives the part of d that they mention. */
  lemma {:induction false} RebuildSpec(r: seq<KeyValue>, d: StateDelta)
    requires forall i :: 0 <= i < |r| ==> KeyOf(r[i]) in d && d[KeyOf(r[i])] == ValueOf(r[i])
    ensures forall k :: k in Rebuild(r) ==> k in d && Rebuild(r)[k] == d[k]
    ensures forall i :: 0 <= i < |r| ==> KeyOf(r[i]) in Rebuild(r)
  {
    if r != [] {
      var n := |r| - 1;
      RebuildSpec(r[..n], d);
      forall i | 0 <= i < |r| ensures KeyOf(r[i]) in Rebuild(r) {
        assert i < n ==> r[i] == r[..n][i];
      }
    }
  }

  /** The indexer form lists every key once, in strictly ascending raw order, keys and byte values in
      base64 and an empty byte value as nil, and loses nothing: the delta can be rebuilt from it exactly. */
  lemma DeltaIsCanonicalAndLossless(d: StateDelta)
    ensures DeltaOf(d).None? <==> d == map[]
    ensures DeltaOf(d).Some? ==>
      && |DeltaOf(d).value| == |d|
      && (forall i, j :: 0 <= i < j < |d| ==> LessBytes(KeyOf(DeltaOf(d).value[i]), KeyOf(DeltaOf(d).value[j])))
      && (forall i :: 0 <= i < |d| ==>
            var kv := DeltaOf(d).value[i];
            KeyOf(kv) in d && kv.key == Encode(KeyOf(kv)) && (kv.bytes.None? <==> d[KeyOf(kv)].bytes == []))
      && Rebuild(DeltaOf(d).value) == d
  {
    if |d| != 0 {
      var ks, r := KeysOf(d), DeltaOf(d).value;
      assert |d| == |d.Keys|;
      forall i | 0 <= i < |ks|
        ensures KeyOf(r[i]) == ks[i] && ks[i] in d && ValueOf(r[i]) == d[ks[i]]
        ensures r[i].key == Encode(ks[i]) && (r[i].bytes.None? <==> d[ks[i]].bytes == [])
      {
        RenderRoundTrip(ks[i], d[ks[i]]);
      }
      RebuildSpec(r, d);
      RebuildIsAll(r, d, ks);
    }
  }

  lemma RebuildIsAll(r: seq<KeyValue>, d: StateDelta, ks: seq<Bytes>)
    requires |r| == |ks| && forall i :: 0 <= i < |ks| ==> KeyOf(r[i]) == ks[i] && ks[i] in Rebuild(r)
    requires forall k :: k in Rebuild(r) ==> k in d && Rebuild(r)[k] == d[k]
    requires forall k :: k in d ==> k in ks
    ensures Rebuild(r) == d
  {
    forall k | k in d ensures k in Rebuild(r) {
      assert k in ks;
    }
    assert Rebuild(r).Keys == d.Keys;
  }

  // ----- the local deltas of a transaction

  type Address = nat
  datatype AccountDelta = AccountDelta(address: Address, delta: seq<KeyValue>)

  /** Index 0 is the sender, index k the k-th of the transaction's accounts. */
  function AddressOf(sender: Address, accounts: seq<Address>, k: U64): Address {
    if k == 0 then sender else if k <= |accounts| then accounts[k - 1] else 0
  }

  predicate InRange(locals: map<U64, StateDelta>, accounts: seq<Address>) {
    forall k :: k in locals ==> k <= |accounts|
  }

  predicate Filled(locals: map<U64, StateDelta>, k: U64) {
    k in locals && |locals[k]| > 0
  }

  ghost function RenderLocal(locals: map<U64, StateDelta>, sender: Address, accounts: seq<Address>, k: U64): AccountDelta {
    AccountDelta(AddressOf(sender, accounts, k), if Filled(locals, k) then DeltaOf(locals[k]).value else [])
  }

  ghost function RenderLocals(locals: map<U64, StateDelta>, sender: Address, accounts: seq<Address>, ks: seq<U64>)
    : seq<AccountDelta>
  {
    seq(|ks|, i requires 0 <= i < |ks| => RenderLocal(locals, sender, accounts, ks[i]))
  }

  /** The indices with a non-empty delta, in ascending order. */
  ghost function IndicesOf(locals: map<U64, StateDelta>): (ks: seq<U64>)
    ensures AscendingIndices(ks) && forall k :: k in ks <==> Filled(locals, k)
  {
    var ks := CanonicalIndices(set k | k in locals && Filled(locals, k));
    assert forall k :: k in ks <==> k in Elements(ks);
    ks
  }

  /** The one indexer form of local deltas: nil without any account, else the accounts with a
      non-empty delta in ascending index order. */
  ghost function LocalsOf(locals: map<U64, StateDelta>, sender: Address, accounts: seq<Address>): Option<seq<AccountDelta>> {
    if |locals| == 0 then None else Some(RenderLocals(locals, sender, accounts, IndicesOf(locals)))
  }

  /** The indices kept when the empty deltas are dropped from the first i keys. */
  ghost function Kept(locals: map<U64, StateDelta>, keys: seq<U64>): (ks: seq<U64>)
    ensures forall k :: k in ks <==> k in keys && Filled(locals, k)
  {
    if keys == [] then []
    else
      var n := |keys| - 1;
      assert forall k :: k in keys <==> k in keys[..n] || k == keys[n];
      Kept(locals, keys[..n]) + if Filled(locals, keys[n]) then [keys[n]] else []
  }

  lemma {:induction false} KeptAscends(locals: map<U64, StateDelta>, keys: seq<U64>)
    requires AscendingIndices(keys)
    ensures AscendingIndices(Kept(locals, keys))
  {
    if keys != [] {
      var n := |keys| - 1;
      KeptAscends(locals, keys[..n]);
      forall k | k in Kept(locals, keys[..n]) ensures LessIndex(k, keys[n]) {
        assert k in keys[..n];
      }
    }
  }

  lemma KeptIsIndicesOf(locals: map<U64, StateDelta>, keys: seq<U64>)
    requires AscendingIndices(keys) && Elements(keys) == locals.Keys
    ensures Kept(locals, keys) == IndicesOf(locals)
  {
    KeptAscends(locals, keys);
    assert forall k :: k in keys <==> k in Elements(keys);
    assert Elements(Kept(locals, keys)) == Elements(IndicesOf(locals));
    IndicesUnique(Kept(locals, keys), IndicesOf(locals));
  }

  lemma RenderLocalsSnoc(locals: map<U64, StateDelta>, sender: Address, accounts: seq<Address>, ks: seq<U64>, k: U64)
    ensures RenderLocals(locals, sender, accounts, ks + [k])
         == RenderLocals(locals, sender, accounts, ks) + [RenderLocal(locals, sender, accounts, k)]
  {
  }

  /** The loop that renders the accounts of the sorted indices and drops the empty deltas. */
  method LocalsLoop(locals: map<U64, StateDelta>, sender: Address, accounts: seq<Address>, keys: seq<U64>)
    returns (out: seq<AccountDelta>)
    requires InRange(locals, accounts) && forall i :: 0 <= i < |keys| ==> keys[i] in locals
    ensures out == RenderLocals(locals, sender, accounts, Kept(locals, keys))
  {
    out := [];
    for i := 0 to |keys|
      invariant out == RenderLocals(locals, sender, accounts, Kept(locals, keys[..i]))
    {
      ghost var kept := Kept(locals, keys[..i]);
      KeptSnoc(locals, keys[..i], keys[i]);
      assert keys[..i + 1] == keys[..i] + [keys[i]];
      var delta := StateDeltaToStateDelta(locals[keys[i]]);
      if delta.Some? {
        RenderLocalsSnoc(locals, sender, accounts, kept, keys[i]);
        out := out + [AccountDelta(if keys[i] == 0 then sender else accounts[keys[i] - 1], delta.value)];
      }
    }
    assert keys[..|keys|] == keys;
  }

  lemma KeptSnoc(locals: map<U64, StateDelta>, keys: seq<U64>, k: U64)
    ensures Kept(locals, keys + [k]) == Kept(locals, keys) + if Filled(locals, k) then [k] else []
  {
    assert (keys + [k])[..|keys|] == keys;
  }

  /** The local delta part of signedTxnWithAdToTransaction; an index out of range would panic. */
  method LocalDeltas(locals: map<U64, StateDelta>, sender: Address, accounts: seq<Address>)
    returns (r: Option<seq<AccountDelta>>)
    requires InRange(locals, accounts)
    ensures r == LocalsOf(locals, sender, accounts)
  {
    if |locals| == 0 {
      return None;
    }
    var keys := SortedIndexKeys(locals);
    forall i | 0 <= i < |keys| ensures keys[i] in locals {
      assert keys[i] in Elements(keys);
    }
    KeptIsIndicesOf(locals, keys);
    var out := LocalsLoop(locals, sender, accounts, keys);
    r := Some(out);
  }

  /** What the indexer form of local deltas says: it is nil exactly without any account; else it
      lists the indices with a non-empty delta in strictly ascending order, each with its own account
      and a delta from which the original can be rebuilt. */
  lemma LocalsAreCanonical(locals: map<U64, StateDelta>, sender: Address, accounts: seq<Address>)
    requires InRange(locals, accounts)
    ensures LocalsOf(locals, sender, accounts).None? <==> locals == map[]
    ensures LocalsOf(locals, sender, accounts).Some? ==>
      var r, ks := LocalsOf(locals, sender, accounts).value, IndicesOf(locals);
      && |r| == |ks|
      && (forall i, j :: 0 <= i < j < |ks| ==> ks[i] < ks[j])
      && (forall k :: k in ks <==> k in locals && locals[k] != map[])
      && (forall i :: 0 <= i < |ks| ==>
            && Filled(locals, ks[i])
            && r[i].address == (if ks[i] == 0 then sender else accounts[ks[i] - 1])
            && Rebuild(r[i].delta) == locals[ks[i]])
  {
    var ks := IndicesOf(locals);
    forall i, j | 0 <= i < j < |ks| ensures ks[i] < ks[j] {
      assert LessIndex(ks[i], ks[j]);
    }
    forall k | k in locals ensures Filled(locals, k) <==> locals[k] != map[] {
    }
    forall i | 0 <= i < |ks|
      ensures Filled(locals, ks[i]) && Rebuild(RenderLocal(locals, sender, accounts, ks[i]).delta) == locals[ks[i]]
    {
      assert ks[i] in ks;
      DeltaIsCanonicalAndLossless(locals[ks[i]]);
    }
  }
}
