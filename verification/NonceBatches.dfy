/** Grouping nonces into one invalidation call per 256-bit word. */
module NonceBatches {

  /** One `invalidateUnorderedNonces` call; the mask is the set of its one-bits. */
  datatype Batch = Batch(wordPos: nat, mask: set<nat>)

  function WordPos(nonce: nat): nat {
    nonce / 256
  }

  function BitPos(nonce: nat): nat {
    nonce % 256
  }

  predicate Covers(batch: Batch, nonce: nat) {
    batch.wordPos == WordPos(nonce) && BitPos(nonce) in batch.mask
  }

  ghost predicate Covered(batches: seq<Batch>, nonce: nat) {
    exists i :: 0 <= i < |batches| && Covers(batches[i], nonce)
  }

  lemma PositionsDetermineNonce(n: nat, m: nat)
    requires WordPos(n) == WordPos(m) && BitPos(n) == BitPos(m)
    ensures n == m
  {
  }

  predicate DistinctKeys(keys: seq<nat>) {
    forall i, j :: 0 <= i < j < |keys| ==> keys[i] != keys[j]
  }

  /** The batches invalidate exactly these nonces: none is missed and no other one is touched. */
  ghost predicate Exact(batches: seq<Batch>, nonces: seq<nat>) {
    forall n: nat :: n in nonces <==> Covered(batches, n)
  }

  /** The entries of an insertion-ordered map from word to mask. */
  function Entries(keys: seq<nat>, masks: map<nat, set<nat>>): (batches: seq<Batch>)
    requires forall k :: k in keys ==> k in masks
    ensures |batches| == |keys|
    ensures forall i :: 0 <= i < |keys| ==> batches[i] == Batch(keys[i], masks[keys[i]])
  {
    seq(|keys|, i requires 0 <= i < |keys| => Batch(keys[i], masks[keys[i]]))
  }

  ghost predicate Seen(seen: seq<nat>, wordPos: nat, bit: nat) {
    exists n :: n in seen && WordPos(n) == wordPos && BitPos(n) == bit
  }

  /** The map holds exactly the positions of the nonces seen so far, with each word listed once. */
  ghost predicate Collected(keys: seq<nat>, masks: map<nat, set<nat>>, seen: seq<nat>) {
    && DistinctKeys(keys)
    && (forall k :: k in keys <==> k in masks)
    && (forall w, bit {:trigger bit in masks[w]} :: w in masks && bit in masks[w] ==> Seen(seen, w, bit))
    && (forall n :: n in seen ==> WordPos(n) in masks && BitPos(n) in masks[WordPos(n)])
    && (forall w :: w in masks ==> masks[w] != {})
  }

  /** One call per distinct word, covering every nonce in the list and no other nonce. */
  method ComputeInvalidationBatches(nonces: seq<nat>) returns (batches: seq<Batch>)
    ensures Exact(batches, nonces)
    ensures DistinctKeys(seq(|batches|, i requires 0 <= i < |batches| => batches[i].wordPos))
    ensures |batches| == |set n | n in nonces :: WordPos(n)|
  {
    hide WordPos, BitPos;
    var keys: seq<nat>, masks: map<nat, set<nat>> := [], map[];
    for i := 0 to |nonces|
      invariant Collected(keys, masks, nonces[..i])
    {
      var w, bit := WordPos(nonces[i]), BitPos(nonces[i]);
      ghost var before := masks;
      if w in masks {
        masks := masks[w := masks[w] + {bit}];
      } else {
        keys := keys + [w];
        masks := masks[w := {bit}];
        assert {bit} == {} + {bit};
      }
      assert nonces[..i + 1] == nonces[..i] + [nonces[i]];
      SeenGrows(before, masks, nonces[..i], nonces[i]);
    }
    assert nonces[..|nonces|] == nonces;
    batches := Entries(keys, masks);
    CollectedIsExact(keys, masks, nonces);
    KeysAreTheWords(keys, masks, nonces);
  }

  lemma SeenGrows(before: map<nat, set<nat>>, after: map<nat, set<nat>>, seen: seq<nat>, n: nat)
    requires forall w, bit {:trigger bit in before[w]} :: w in before && bit in before[w] ==> Seen(seen, w, bit)
    requires after == before[WordPos(n) := (if WordPos(n) in before then before[WordPos(n)] else {}) + {BitPos(n)}]
    ensures forall w, bit {:trigger bit in after[w]} :: w in after && bit in after[w] ==> Seen(seen + [n], w, bit)
  {
    hide WordPos, BitPos;
    forall w, bit {:trigger bit in after[w]} | w in after && bit in after[w]
      ensures Seen(seen + [n], w, bit)
    {
      if w in before && bit in before[w] {
        var m :| m in seen && WordPos(m) == w && BitPos(m) == bit;
        assert m in seen + [n];
      } else {
        assert n in seen + [n];
      }
    }
  }

  lemma CollectedIsExact(keys: seq<nat>, masks: map<nat, set<nat>>, nonces: seq<nat>)
    requires Collected(keys, masks, nonces)
    ensures Exact(Entries(keys, masks), nonces)
  {
    hide WordPos, BitPos;
    var batches := Entries(keys, masks);
    forall n: nat | n in nonces
      ensures Covered(batches, n)
    {
      var i :| 0 <= i < |keys| && keys[i] == WordPos(n);
      assert Covers(batches[i], n);
    }
    forall n: nat | Covered(batches, n)
      ensures n in nonces
    {
      var i :| 0 <= i < |batches| && Covers(batches[i], n);
      assert keys[i] in masks && BitPos(n) in masks[keys[i]];
      var m :| m in nonces && WordPos(m) == keys[i] && BitPos(m) == BitPos(n);
      PositionsDetermineNonce(n, m);
    }
  }

  lemma KeysAreTheWords(keys: seq<nat>, masks: map<nat, set<nat>>, nonces: seq<nat>)
    requires Collected(keys, masks, nonces)
    ensures |keys| == |set n | n in nonces :: WordPos(n)|
  {
    hide WordPos, BitPos;
    var words := set n | n in nonces :: WordPos(n);
    forall k | k in keys
      ensures k in words
    {
      var bit :| bit in masks[k];
      var n :| n in nonces && WordPos(n) == k && BitPos(n) == bit;
    }
    DistinctListSize(keys);
    assert AsSet(keys) == words;
  }

  function AsSet(keys: seq<nat>): set<nat> {
    set k | k in keys
  }

  lemma {:induction false} DistinctListSize(keys: seq<nat>)
    requires DistinctKeys(keys)
    ensures |AsSet(keys)| == |keys|
  {
    if keys == [] {
      assert AsSet(keys) == {};
    } else {
      var rest, last := keys[..|keys| - 1], keys[|keys| - 1];
      DistinctListSize(rest);
      assert forall i :: 0 <= i < |rest| ==> rest[i] != last;
      assert AsSet(keys) == AsSet(rest) + {last};
    }
  }
}
