/** Patching metadata with delete-on-empty (validation/metadata_merge.py). */
module Metadata {
  import opened Json

  type Meta = map<string, Json>

  const DELETED := JStr("")

  function Merged(current: Meta, patch: Meta): (r: Meta)
    ensures forall k | k in patch && patch[k] != JStr("") :: k in r && r[k] == patch[k]
    ensures forall k | k in patch && patch[k] == JStr("") :: k !in r
    ensures forall k | k !in patch :: (k in r <==> k in current) && (k in r ==> r[k] == current[k])
  {
    map k | k in current.Keys + patch.Keys && (k in patch ==> patch[k] != DELETED) ::
      if k in patch then patch[k] else current[k]
  }

  /** The loop, in whatever order the patch yields its keys. */
  method MergeMetadata(current: Meta, patch: Meta) returns (merged: Meta)
    ensures merged == Merged(current, patch)
  {
    merged := current;
    var keys := patch.Keys;
    while keys != {}
      invariant keys <= patch.Keys
      invariant merged == Merged(current, patch - keys)
    {
      var k :| k in keys;
      if patch[k] == DELETED {
        merged := merged - {k};
      } else {
        merged := merged[k := patch[k]];
      }
      MergedOneMore(current, patch, keys, k);
      keys := keys - {k};
    }
    assert patch - {} == patch;
  }

  lemma MergedOneMore(current: Meta, patch: Meta, keys: set<string>, k: string)
    requires keys <= patch.Keys && k in keys
    ensures Merged(current, patch - (keys - {k})) ==
            if patch[k] == DELETED then Merged(current, patch - keys) - {k}
            else Merged(current, patch - keys)[k := patch[k]]
  {
  }

  lemma MergeNothing(current: Meta)
    ensures Merged(current, map[]) == current
  {
  }

  /** Two patches in a row are one patch: their union, the later one winning key by key, deletions included. */
  lemma {:induction false} MergesCompose(current: Meta, first: Meta, second: Meta)
    ensures Merged(Merged(current, first), second) == Merged(current, first + second)
  {
  }

  /**
   A patch applied again changes nothing; and it changes nothing at all exactly
   when the row already agrees with it.
   */
  lemma MergeIsIdempotent(current: Meta, patch: Meta)
    ensures Merged(Merged(current, patch), patch) == Merged(current, patch)
    ensures Merged(current, patch) == current <==>
            forall k | k in patch ::
              if patch[k] == DELETED then k !in current else k in current && current[k] == patch[k]
  {
    assert patch + patch == patch;
    MergesCompose(current, patch, patch);
    if forall k | k in patch :: if patch[k] == DELETED then k !in current else k in current && current[k] == patch[k] {
      assert forall k :: k in Merged(current, patch) <==> k in current;
    }
  }

  function UnionOf(patches: seq<Meta>): Meta {
    if patches == [] then map[] else patches[0] + UnionOf(patches[1..])
  }

  function MergedAll(current: Meta, patches: seq<Meta>): Meta
    decreases |patches|
  {
    if patches == [] then current else MergedAll(Merged(current, patches[0]), patches[1..])
  }

  /** Any number of patches is one merge of their right-biased union. */
  lemma {:induction false} MergesAreOneMerge(current: Meta, patches: seq<Meta>)
    ensures MergedAll(current, patches) == Merged(current, UnionOf(patches))
    decreases |patches|
  {
    if patches == [] {
      assert Merged(current, map[]) == current;
    } else {
      MergesAreOneMerge(Merged(current, patches[0]), patches[1..]);
      MergesCompose(current, patches[0], UnionOf(patches[1..]));
    }
  }
}
