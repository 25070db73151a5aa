/**
 Release tags and their version order (the tag helpers of update.py and
 apply_after_checkout.py, which are the same code twice).
 */
module ReleaseTags {
  import opened Strings

  type Key = seq<nat>

  /** `s.split(".")`. */
  function Fields(s: string): (r: seq<string>)
    ensures |r| >= 1
  {
    if s == "" then [""]
    else
      var rest := Fields(s[1..]);
      if s[0] == '.' then [""] + rest else [[s[0]] + rest[0]] + rest[1..]
  }

  /** The pattern `v\d+(?:\.\d+)*`, matched in full. */
  predicate IsReleaseTag(tag: string) {
    tag != "" && tag[0] == 'v' && forall f :: f in Fields(tag[1..]) ==> AllDigits(f)
  }

  function ParseNat(s: string): nat
    requires forall i :: 0 <= i < |s| ==> '0' <= s[i] <= '9'
  {
    if s == "" then 0 else 10 * ParseNat(s[..|s| - 1]) + (s[|s| - 1] as int - '0' as int)
  }

  function ParseAll(fields: seq<string>): (key: Key)
    requires forall f :: f in fields ==> AllDigits(f)
    ensures |key| == |fields|
  {
    if fields == [] then []
    else
      assert fields[0] in fields && AllDigits(fields[0]);
      [ParseNat(fields[0])] + ParseAll(fields[1..])
  }

  /** Defined for every tag so that it can be a sort key; only release tags are ever sorted. */
  function VersionKey(tag: string): Key {
    if IsReleaseTag(tag) then ParseAll(Fields(tag[1..])) else []
  }

  /** Python's `<` on tuples of integers. */
  predicate Less(a: Key, b: Key) {
    if b == [] then false
    else if a == [] then true
    else a[0] < b[0] || (a[0] == b[0] && Less(a[1..], b[1..]))
  }

  predicate Below(s: string, t: string) { Less(VersionKey(s), VersionKey(t)) }

  lemma {:induction false} LessTransitive(a: Key, b: Key, c: Key)
    requires Less(a, b) && Less(b, c)
    ensures Less(a, c)
  {
    if a != [] && a[0] == b[0] == c[0] {
      LessTransitive(a[1..], b[1..], c[1..]);
    }
  }

  lemma {:induction false} LessTotal(a: Key, b: Key)
    ensures Less(a, b) || Less(b, a) || a == b
    ensures !(Less(a, b) && Less(b, a))
    ensures !Less(a, a)
  {
    if a != [] {
      LessTotal(a[1..], if b == [] then a[1..] else b[1..]);
    }
    if a != [] && b != [] && a[0] == b[0] && a[1..] == b[1..] {
      assert a == [a[0]] + a[1..] && b == [b[0]] + b[1..];
    }
  }

  // ---- what a tag's version is -------------------------------------------------------

  function Digit(d: nat): (c: char)
    requires d < 10
    ensures '0' <= c <= '9' && c as int - '0' as int == d
  {
    '0' + d as char
  }

  /** `n` in decimal. */
  function Decimal(n: nat): string {
    if n < 10 then [Digit(n)] else Decimal(n / 10) + [Digit(n % 10)]
  }

  function Decimals(key: Key): seq<string> { if key == [] then [] else [Decimal(key[0])] + Decimals(key[1..]) }

  /** `".".join(fields)`. */
  function Join(fields: seq<string>): string {
    if fields == [] then "" else if |fields| == 1 then fields[0] else fields[0] + "." + Join(fields[1..])
  }

  /** How a version is written as a tag. */
  function TagOf(key: Key): string { "v" + Join(Decimals(key)) }

  lemma {:induction false} ParseDecimal(n: nat)
    ensures AllDigits(Decimal(n)) && ParseNat(Decimal(n)) == n
  {
    if n >= 10 {
      ParseDecimal(n / 10);
      assert Decimal(n)[..|Decimal(n)| - 1] == Decimal(n / 10);
    } else {
      assert Decimal(n)[..0] == "";
    }
  }

  /** Leading zeros do not matter, as in Python's `int`. */
  lemma {:induction false} LeadingZero(s: string)
    requires AllDigits(s)
    ensures ParseNat("0" + s) == ParseNat(s)
  {
    assert ("0" + s)[..|s|] == "0" + s[..|s| - 1];
    if |s| > 1 {
      LeadingZero(s[..|s| - 1]);
    } else {
      assert s[..0] == "" && "0"[..0] == "";
    }
  }

  lemma {:induction false} FieldOf(s: string)
    requires '.' !in s
    ensures Fields(s) == [s]
  {
    if s != "" {
      FieldOf(s[1..]);
      assert [s[0]] + s[1..] == s;
    }
  }

  lemma {:induction false} FirstField(s: string, rest: string)
    requires '.' !in s
    ensures Fields(s + "." + rest) == [s] + Fields(rest)
  {
    if s == "" {
      assert s + "." + rest == "." + rest && ("." + rest)[1..] == rest;
    } else {
      assert (s + "." + rest)[1..] == s[1..] + "." + rest;
      FirstField(s[1..], rest);
      assert [s[0]] + s[1..] == s;
      assert ([s[1..]] + Fields(rest))[1..] == Fields(rest);
    }
  }

  /** Splitting undoes joining. */
  lemma {:induction false} FieldsOfJoin(fields: seq<string>)
    requires fields != [] && forall f :: f in fields ==> '.' !in f
    ensures Fields(Join(fields)) == fields
  {
    if |fields| == 1 {
      FieldOf(fields[0]);
    } else {
      FirstField(fields[0], Join(fields[1..]));
      FieldsOfJoin(fields[1..]);
    }
  }

  /** Joining undoes splitting. */
  lemma {:induction false} JoinOfFields(s: string)
    ensures Join(Fields(s)) == s
  {
    if s != "" {
      JoinOfFields(s[1..]);
      var rest := Fields(s[1..]);
      if s[0] == '.' {
        assert ([""] + rest)[1..] == rest;
      } else if |rest| > 1 {
        assert ([[s[0]] + rest[0]] + rest[1..])[1..] == rest[1..];
      }
    }
  }

  /** A release tag is "v" and fields of digits, joined by dots; "v1.2.0-rc1" is none. */
  lemma ReleaseTagExactlyWhen(tag: string)
    ensures IsReleaseTag(tag) <==>
            exists fields: seq<string> ::
              fields != [] && (forall f :: f in fields ==> AllDigits(f)) && tag == "v" + Join(fields)
  {
    if IsReleaseTag(tag) {
      JoinOfFields(tag[1..]);
      assert tag == "v" + Join(Fields(tag[1..]));
    }
    if fields: seq<string> :|
      fields != [] && (forall f :: f in fields ==> AllDigits(f)) && tag == "v" + Join(fields) {
      FieldsOfJoin(fields);
      assert tag[1..] == Join(fields);
    }
  }

  lemma {:induction false} ParseAllDecimals(key: Key)
    ensures |Decimals(key)| == |key| && forall f :: f in Decimals(key) ==> AllDigits(f)
    ensures ParseAll(Decimals(key)) == key
  {
    if key != [] {
      ParseDecimal(key[0]);
      ParseAllDecimals(key[1..]);
    }
  }

  /** Every version can be read off the tag it is written as. */
  lemma VersionOfTag(key: Key)
    requires key != []
    ensures IsReleaseTag(TagOf(key)) && VersionKey(TagOf(key)) == key
  {
    ParseAllDecimals(key);
    FieldsOfJoin(Decimals(key));
    assert TagOf(key)[1..] == Join(Decimals(key));
  }

  /** `a` is a proper prefix of `b`, or smaller at the first place where they differ. */
  ghost predicate LexicallyLess(a: Key, b: Key) {
    exists k: nat :: k <= |a| && k < |b| && a[..k] == b[..k] && (k == |a| || a[k] < b[k])
  }

  lemma {:induction false} LessIsLexical(a: Key, b: Key)
    ensures Less(a, b) <==> LexicallyLess(a, b)
  {
    if a != [] && b != [] && a[0] == b[0] {
      LessIsLexical(a[1..], b[1..]);
      if k: nat :|
        k <= |a[1..]| && k < |b[1..]| && a[1..][..k] == b[1..][..k] && (k == |a[1..]| || a[1..][k] < b[1..][k]) {
        assert a[..k + 1] == [a[0]] + a[1..][..k] && b[..k + 1] == [b[0]] + b[1..][..k];
      }
      if k: nat :| k <= |a| && k < |b| && a[..k] == b[..k] && (k == |a| || a[k] < b[k]) {
        assert k > 0;
        assert a[1..][..k - 1] == a[..k][1..] && b[1..][..k - 1] == b[..k][1..];
      }
    } else if b != [] {
      assert a[..0] == b[..0];
    }
  }

  lemma OneField(n: nat)
    ensures TagOf([n]) == "v" + Decimal(n) && VersionKey("v" + Decimal(n)) == [n]
  {
    assert [n][1..] == [];
    assert Decimals([n]) == [Decimal(n)];
    VersionOfTag([n]);
  }

  lemma LessOfOne(m: nat, n: nat)
    ensures Less([m], [n]) <==> m < n
  {
    assert [m][1..] == [] && [n][1..] == [];
  }

  /** So v9 comes before v10, and a tag before any that only adds fields. */
  lemma TagsCompareAsNumbers(m: nat, n: nat)
    ensures Below(TagOf([m]), TagOf([n])) <==> m < n
    ensures Below("v" + Decimal(m), "v" + Decimal(n)) <==> m < n
  {
    OneField(m);
    OneField(n);
    LessOfOne(m, n);
  }

  /** Tags are in the order of the versions they are written from. */
  lemma TagsCompareAsVersions(a: Key, b: Key)
    requires a != [] && b != []
    ensures Below(TagOf(a), TagOf(b)) <==> LexicallyLess(a, b)
  {
    VersionOfTag(a);
    VersionOfTag(b);
    LessIsLexical(a, b);
  }

  // ---- sorted(tags, key=_version_key) ----------------------------------------------

  function Insert(tag: string, sorted: seq<string>): seq<string> {
    if sorted == [] || !Below(sorted[0], tag) then [tag] + sorted
    else [sorted[0]] + Insert(tag, sorted[1..])
  }

  /** A stable sort: among equal keys the listing order is kept. */
  function SortTags(tags: seq<string>): seq<string> {
    if tags == [] then [] else Insert(tags[0], SortTags(tags[1..]))
  }

  function ReleasesOf(listing: seq<string>): (tags: seq<string>)
    ensures forall t :: t in tags <==> t in listing && IsReleaseTag(t)
  {
    if listing == [] then []
    else (if IsReleaseTag(listing[0]) then [listing[0]] else []) + ReleasesOf(listing[1..])
  }

  predicate Ascending(tags: seq<string>) {
    forall i, j :: 0 <= i < j < |tags| ==> !Below(tags[j], tags[i])
  }

  lemma {:induction false} InsertKeeps(tag: string, sorted: seq<string>)
    ensures |Insert(tag, sorted)| == |sorted| + 1
    ensures forall t :: t in Insert(tag, sorted) <==> t == tag || t in sorted
  {
    if sorted != [] {
      assert sorted == [sorted[0]] + sorted[1..];
      InsertKeeps(tag, sorted[1..]);
    }
  }

  lemma {:induction false} InsertSorts(tag: string, sorted: seq<string>)
    requires Ascending(sorted)
    ensures Ascending(Insert(tag, sorted))
  {
    if sorted != [] {
      var head, tail := sorted[0], sorted[1..];
      LessTotal(VersionKey(head), VersionKey(tag));
      if Below(head, tag) {
        InsertSorts(tag, tail);
        InsertKeeps(tag, tail);
        var rest := Insert(tag, tail);
        forall k | 0 <= k < |rest| ensures !Below(rest[k], head) {
          assert rest[k] in rest;
        }
      } else {
        forall k | 0 <= k < |sorted| ensures !Below(sorted[k], tag) {
          LessTotal(VersionKey(head), VersionKey(head));
          NotBelowChains(sorted[k], head, tag);
        }
      }
    }
  }

  lemma NotBelowChains(s: string, t: string, u: string)
    requires !Below(s, t) && !Below(t, u)
    ensures !Below(s, u)
  {
    var a, b, c := VersionKey(s), VersionKey(t), VersionKey(u);
    LessTotal(a, b);
    LessTotal(b, c);
    LessTotal(a, c);
    if Less(b, a) && Less(a, c) {
      LessTransitive(b, a, c);
    }
  }

  /** The sort really sorts, and loses and invents no tag. */
  lemma {:induction false} SortTagsSorts(tags: seq<string>)
    ensures Ascending(SortTags(tags))
    ensures |SortTags(tags)| == |tags|
    ensures forall t :: t in SortTags(tags) <==> t in tags
  {
    if tags != [] {
      SortTagsSorts(tags[1..]);
      InsertSorts(tags[0], SortTags(tags[1..]));
      InsertKeeps(tags[0], SortTags(tags[1..]));
      assert tags == [tags[0]] + tags[1..];
    }
  }
}
