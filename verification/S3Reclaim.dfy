/**
 `_remove_s3_object_prefix` (core/archive_backend.py): deleting everything under `<volume>/`
 from an old bucket, page by page, in requests of at most 1000 keys.
 */
module S3Reclaim {
  import opened Sequences
  import opened Strings

  const REQUEST_LIMIT := 1000

  /** `(volume or "").strip().strip("/").strip()`. */
  function ReclaimPrefix(volume: string): string { Strip(StripOf(Strip(volume), c => c == '/')) }

  predicate StartsWith(key: string, prefix: string) { prefix <= key }

  /** The keys of a listing that are really under the prefix, in order. */
  function Under(keys: seq<string>, prefix: string): seq<string> {
    if keys == [] then []
    else (if keys[0] != "" && StartsWith(keys[0], prefix) then [keys[0]] else []) + Under(keys[1..], prefix)
  }

  function Flatten(parts: seq<seq<string>>): seq<string> {
    if parts == [] then [] else Flatten(parts[..|parts| - 1]) + parts[|parts| - 1]
  }

  lemma FlattenSnoc(parts: seq<seq<string>>, part: seq<string>)
    ensures Flatten(parts + [part]) == Flatten(parts) + part
  {
    assert (parts + [part])[..|parts|] == parts;
  }

  lemma {:induction false} UnderConcat(a: seq<string>, b: seq<string>, prefix: string)
    ensures Under(a + b, prefix) == Under(a, prefix) + Under(b, prefix)
  {
    if a == [] {
      assert a + b == b;
    } else {
      assert (a + b)[1..] == a[1..] + b;
      UnderConcat(a[1..], b, prefix);
      var first := if a[0] != "" && StartsWith(a[0], prefix) then [a[0]] else [];
      assert Under(a, prefix) == first + Under(a[1..], prefix);
      assert Under(a + b, prefix) == first + Under(a[1..] + b, prefix);
    }
  }

  function Keys(s: seq<string>): set<string> { set k | k in s }

  /** How the service answers: the listing breaks off after `listed` pages, and the `k`-th delete
      request either goes through or raises after deleting some of its keys. */
  datatype Service = Service(listed: nat, refused: nat -> bool, partly: nat -> set<string>)

  /** Every request carries 1 to 1000 keys, and only the last fewer than 1000. */
  predicate RequestsFit(requests: seq<seq<string>>) {
    forall i :: 0 <= i < |requests| ==>
      1 <= |requests[i]| <= REQUEST_LIMIT && (i < |requests| - 1 ==> |requests[i]| == REQUEST_LIMIT)
  }

  predicate AllFull(requests: seq<seq<string>>) {
    forall i :: 0 <= i < |requests| ==> |requests[i]| == REQUEST_LIMIT
  }

  /** Finished or not, a reclaim deletes no keys but the first of those listed under the prefix. */
  predicate Reclaims(before: set<string>, after: set<string>, deleted: seq<string>, listed: seq<string>,
                     volume: string) {
    && deleted <= Under(listed, ReclaimPrefix(volume) + "/")
    && before - Keys(deleted) <= after <= before
  }

  class Bucket {
    var keys: set<string>
    /** The delete requests sent, refused ones included. */
    ghost var requests: seq<seq<string>>

    constructor (keys: set<string>)
      ensures this.keys == keys && requests == []
    {
      this.keys, requests := keys, [];
    }

    method DeleteObjects(batch: seq<string>, refused: bool, partly: set<string>) returns (ok: bool)
      modifies this
      ensures ok == !refused && requests == old(requests) + [batch]
      ensures ok ==> keys == old(keys) - Keys(batch)
      ensures old(keys) - Keys(batch) <= keys <= old(keys)
    {
      requests := requests + [batch];
      keys := keys - (if refused then Keys(batch) * partly else Keys(batch));
      ok := !refused;
    }

    /** Of the keys `found` so far all have been deleted but those that still wait. */
    ghost predicate Caught(start: set<string>, found: seq<string>, waiting: seq<string>, service: Service)
      reads this
    {
      && AllFull(requests) && Flatten(requests) + waiting == found && keys == start - Keys(Flatten(requests))
      && forall k: nat :: k < |requests| ==> !service.refused(k)
    }

    /** The last request was refused. */
    ghost predicate BrokeOff(start: set<string>, found: seq<string>, service: Service)
      reads this
    {
      && RequestsFit(requests) && Flatten(requests) == found && start - Keys(found) <= keys <= start
      && requests != [] && service.refused(|requests| - 1)
    }

    /** Sends what waits as one request. */
    method Send(ghost start: set<string>, ghost found: seq<string>, waiting: seq<string>, sent: nat, service: Service)
      returns (ok: bool)
      requires Caught(start, found, waiting, service) && sent == |requests| && 1 <= |waiting| <= REQUEST_LIMIT
      modifies this
      ensures |requests| == sent + 1 && requests[..sent] == old(requests) && requests[sent] == waiting
      ensures ok && |waiting| == REQUEST_LIMIT ==> Caught(start, found, [], service)
      ensures ok ==> RequestsFit(requests) && Flatten(requests) == found && keys == start - Keys(found)
                     && forall k: nat :: k < |requests| ==> !service.refused(k)
      ensures !ok ==> BrokeOff(start, found, service)
    {
      FlattenSnoc(requests, waiting);
      KeysConcat(Flatten(requests), waiting);
      ok := DeleteObjects(waiting, service.refused(sent), service.partly(sent));
    }

    /** The inner loop: queues the keys of one page, sending every full batch.  `upTo` is what
        has been dealt with. */
    method QueuePage(page: seq<string>, listPrefix: string, toDelete: seq<string>, alreadySent: nat, service: Service,
                     ghost start: set<string>, ghost found: seq<string>)
      returns (ok: bool, waiting: seq<string>, sent: nat, ghost upTo: seq<string>)
      requires Caught(start, found, toDelete, service) && alreadySent == |requests| && |toDelete| < REQUEST_LIMIT
      modifies this
      ensures upTo <= found + Under(page, listPrefix)
      ensures ok ==> Caught(start, upTo, waiting, service) && sent == |requests| && |waiting| < REQUEST_LIMIT
                     && upTo == found + Under(page, listPrefix)
      ensures !ok ==> BrokeOff(start, upTo, service)
    {
      waiting, sent, upTo := toDelete, alreadySent, found;
      for j := 0 to |page|
        invariant upTo == found + Under(page[..j], listPrefix)
        invariant Caught(start, upTo, waiting, service) && sent == |requests| && |waiting| < REQUEST_LIMIT
      {
        var key := page[j];
        UnderNext(page, j, listPrefix);
        UnderFirst(page, j + 1, listPrefix);
        if key != "" && StartsWith(key, listPrefix) {
          assert upTo + [key] == Flatten(requests) + (waiting + [key]);
          assert upTo + [key] == found + Under(page[..j + 1], listPrefix);
          waiting, upTo := waiting + [key], upTo + [key];
          if |waiting| == REQUEST_LIMIT {
            ok := Send(start, upTo, waiting, sent, service);
            if !ok { return; }
            waiting, sent := [], sent + 1;
          }
        }
      }
      assert page[..|page|] == page;
      ok := true;
    }

    /** `pages` as the paginator yields them; whatever raises ends the call quietly. */
    method RemoveObjectPrefix(volume: string, pages: seq<seq<string>>, service: Service) returns (finished: bool)
      requires requests == []
      modifies this
      ensures ReclaimPrefix(volume) == "" ==> requests == [] && keys == old(keys)
      ensures RequestsFit(requests)
      ensures Reclaims(old(keys), keys, Flatten(requests), Flatten(pages), volume)
      ensures finished ==> Flatten(requests) == Under(Flatten(pages), ReclaimPrefix(volume) + "/")
                           && keys == old(keys) - Keys(Flatten(requests))
      ensures finished <==> ReclaimPrefix(volume) != "" && service.listed >= |pages|
                            && forall k: nat :: k < |requests| ==> !service.refused(k)
    {
      var prefix := ReclaimPrefix(volume);
      if prefix == "" { return false; }
      var listPrefix := prefix + "/";
      var toDelete: seq<string>, sent := [], 0;
      ghost var start, found := keys, [];
      for i := 0 to |pages|
        invariant found == Under(Flatten(pages[..i]), listPrefix)
        invariant Caught(start, found, toDelete, service)
        invariant sent == |requests| && |toDelete| < REQUEST_LIMIT && i <= service.listed
      {
        FirstPages(pages, i, listPrefix);
        if i == service.listed { return false; }
        var ok;
        ok, toDelete, sent, found := QueuePage(pages[i], listPrefix, toDelete, sent, service, start, found);
        PagesArePrefix(pages, i + 1, listPrefix);
        if !ok { return false; }
      }
      assert pages[..|pages|] == pages;
      if toDelete != [] {
        var ok := Send(start, found, toDelete, sent, service);
        if !ok { return false; }
      }
      finished := true;
    }
  }

  lemma KeysConcat(a: seq<string>, b: seq<string>)
    ensures Keys(a + b) == Keys(a) + Keys(b)
  {
  }

  /** The keys found in the first pages come first. */
  lemma FirstPages(pages: seq<seq<string>>, i: nat, prefix: string)
    requires i < |pages|
    ensures Under(Flatten(pages[..i]), prefix) <= Under(Flatten(pages), prefix)
    ensures Under(Flatten(pages[..i + 1]), prefix) == Under(Flatten(pages[..i]), prefix) + Under(pages[i], prefix)
  {
    assert pages[..i + 1] == pages[..i] + [pages[i]];
    FlattenSnoc(pages[..i], pages[i]);
    UnderConcat(Flatten(pages[..i]), pages[i], prefix);
    PagesArePrefix(pages, i, prefix);
  }

  lemma {:induction false} PagesArePrefix(pages: seq<seq<string>>, i: nat, prefix: string)
    requires i <= |pages|
    ensures Under(Flatten(pages[..i]), prefix) <= Under(Flatten(pages), prefix)
  {
    if i == |pages| {
      assert pages[..i] == pages;
    } else {
      var n := |pages| - 1;
      PagesArePrefix(pages[..n], i, prefix);
      assert pages[..n][..i] == pages[..i];
      UnderConcat(Flatten(pages[..n]), pages[n], prefix);
    }
  }

  lemma UnderNext(page: seq<string>, j: nat, prefix: string)
    requires j < |page|
    ensures Under(page[..j + 1], prefix)
         == Under(page[..j], prefix) + (if page[j] != "" && StartsWith(page[j], prefix) then [page[j]] else [])
  {
    assert page[..j + 1] == page[..j] + [page[j]];
    UnderConcat(page[..j], [page[j]], prefix);
  }

  lemma UnderFirst(page: seq<string>, j: nat, prefix: string)
    requires j <= |page|
    ensures Under(page[..j], prefix) <= Under(page, prefix)
  {
    assert page == page[..j] + page[j..];
    UnderConcat(page[..j], page[j..], prefix);
  }

  lemma {:induction false} InUnder(keys: seq<string>, prefix: string, key: string)
    ensures key in Under(keys, prefix) <==> key in keys && key != "" && StartsWith(key, prefix)
  {
    if keys != [] {
      InUnder(keys[1..], prefix, key);
      assert key in keys <==> key == keys[0] || key in keys[1..];
    }
  }

  /** Keys listed once are deleted once. */
  lemma {:induction false} EachKeyOnce(keys: seq<string>, prefix: string)
    requires Distinct(keys)
    ensures Distinct(Under(keys, prefix))
  {
    if keys != [] {
      EachKeyOnce(keys[1..], prefix);
      InUnder(keys[1..], prefix, keys[0]);
      assert keys[0] !in keys[1..];
    }
  }

  /** If the listing names every key under `<volume>/`, a finished reclaim leaves exactly the
      keys outside it. */
  lemma ReclaimClearsExactlyThePrefix(before: set<string>, pages: seq<seq<string>>, volume: string, key: string)
    requires var p := ReclaimPrefix(volume) + "/"; key in before && StartsWith(key, p) ==> key in Flatten(pages)
    ensures var p := ReclaimPrefix(volume) + "/";
            key in before - Keys(Under(Flatten(pages), p)) <==> key in before && !StartsWith(key, p)
  {
    InUnder(Flatten(pages), ReclaimPrefix(volume) + "/", key);
  }

  predicate NameChar(c: char) { 'a' <= c <= 'z' || '0' <= c <= '9' || c == '-' }

  predicate Slashes(s: string) { forall i :: 0 <= i < |s| ==> s[i] == '/' }

  lemma {:induction false} StripLeftSlashes(left: string, rest: string)
    requires Slashes(left) && (rest != "" ==> rest[0] != '/')
    ensures StripLeft(left + rest, c => c == '/') == rest
  {
    if left == "" {
      assert left + rest == rest;
    } else {
      assert (left + rest)[1..] == left[1..] + rest;
      StripLeftSlashes(left[1..], rest);
    }
  }

  lemma {:induction false} StripRightSlashes(rest: string, right: string)
    requires Slashes(right) && rest != "" && rest[|rest| - 1] != '/'
    ensures StripRight(rest + right, c => c == '/') == rest
  {
    if right == "" {
      assert rest + right == rest;
    } else {
      assert (rest + right)[..|rest + right| - 1] == rest + right[..|right| - 1];
      StripRightSlashes(rest, right[..|right| - 1]);
    }
  }

  /** Slashes around the name do not matter, and of slashes alone nothing is left, so that nothing is
      deleted. */
  lemma SlashesDoNotMatter(left: string, volume: string, right: string)
    requires Slashes(left) && Slashes(right) && forall i :: 0 <= i < |volume| ==> NameChar(volume[i])
    ensures ReclaimPrefix(left + volume + right) == volume
  {
    var all := left + volume + right;
    assert all == left + (volume + right);
    if volume == "" {
      assert all == left + right && Slashes(left + right) && left + right + "" == left + right;
      StripLeftSlashes(left + right, "");
      if all != "" { StripTrimmed(all); }
    } else {
      assert NameChar(volume[0]) && NameChar(volume[|volume| - 1]);
      StripTrimmed(all);
      StripLeftSlashes(left, volume + right);
      StripRightSlashes(volume, right);
      StripTrimmed(volume);
    }
  }

  /** What JuiceFS accepts as a volume name is its own prefix, so only that zone's keys go. */
  lemma VolumeNameIsItsPrefix(volume: string)
    requires volume != "" && forall i :: 0 <= i < |volume| ==> NameChar(volume[i])
    ensures ReclaimPrefix(volume) == volume
  {
    assert NameChar(volume[0]) && NameChar(volume[|volume| - 1]);
    StripTrimmed(volume);
  }
}
