/**
 Deleting an old bucket's prefix key by key (S3Reclaim) is the removal of one slot that the
 migration (ArchiveWorld) reckons with.
 */
module ArchiveReclaim {
  import opened ArchiveWorld
  import opened S3Reclaim

  predicate ValidName(name: string) { name != "" && forall i :: 0 <= i < |name| ==> NameChar(name[i]) }

  /** The objects of the slot `<bucket>/<name>/`. */
  function Stored(keys: set<string>, name: string): set<Obj> {
    set k | k in keys && StartsWith(k, name + "/") :: Obj(k)
  }

  /** A key lies under one volume name only. */
  lemma OneVolumePerKey(key: string, a: string, b: string)
    requires ValidName(a) && ValidName(b) && StartsWith(key, a + "/") && StartsWith(key, b + "/")
    ensures a == b
  {
    assert key[|a|] == (a + "/")[|a|] == '/' && key[|b|] == (b + "/")[|b|] == '/';
    assert key[..|a|] == (a + "/")[..|a|] == a && key[..|b|] == (b + "/")[..|b|] == b;
  }

  /** Finished or broken off, a reclaim removes some part of the volume's own slot and nothing of
      any other volume's. */
  lemma ReclaimIsARemoval(before: set<string>, after: set<string>, deleted: seq<string>, listed: seq<string>,
                          volume: string, other: string)
    requires Reclaims(before, after, deleted, listed, volume) && ValidName(volume)
    ensures exists fault: Fault :: Stored(after, volume) == Doomed(Stored(before, volume), fault)
    ensures ValidName(other) && other != volume ==> Stored(after, other) == Stored(before, other)
  {
    VolumeNameIsItsPrefix(volume);
    var part := Stored(before, volume) - Stored(after, volume);
    assert Stored(after, volume) == Doomed(Stored(before, volume), Raises(false, part));
    if ValidName(other) && other != volume {
      forall k | k in before && StartsWith(k, other + "/") ensures k in after {
        if k in deleted {
          InUnder(listed, volume + "/", k);
          OneVolumePerKey(k, volume, other);
        }
      }
    }
  }

  /** A finished reclaim of a complete listing removes the slot. */
  lemma FinishedReclaimEmptiesTheSlot(before: set<string>, listed: seq<string>, volume: string)
    requires ValidName(volume)
    requires forall k :: k in before && StartsWith(k, volume + "/") ==> k in listed
    ensures Stored(before - Keys(Under(listed, volume + "/")), volume) == Doomed(Stored(before, volume), Fine)
  {
    forall k | k in before && StartsWith(k, volume + "/") ensures k in Under(listed, volume + "/") {
      InUnder(listed, volume + "/", k);
    }
  }
}
