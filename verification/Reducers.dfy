/** How a node's update is merged into the checkpointed channels of a graph thread. */
module Reducers {
  import opened Wrappers
  import Decimal

  // ---------------------------------------------------------------- append only

  function Append<T>(left: seq<T>, right: seq<T>): seq<T> { left + right }

  // ---------------------------------------------------------------- unique strings

  function Unique(left: seq<string>, right: seq<string>): seq<string>
    decreases |right|
  {
    if right == [] then left
    else Unique(if right[0] in left then left else left + [right[0]], right[1..])
  }

  method ReduceUniqueStrList(left: seq<string>, right: seq<string>) returns (result: seq<string>)
    ensures result == Unique(left, right)
  {
    var seen := set s | s in left;
    result := left;
    for i := 0 to |right|
      invariant seen == set s | s in result
      invariant Unique(result, right[i..]) == Unique(left, right)
    {
      assert right[i..][1..] == right[i + 1..];
      if right[i] !in seen {
        seen := seen + {right[i]};
        result := result + [right[i]];
      }
    }
  }

  ghost predicate NoDuplicates<T>(s: seq<T>) { forall i, k :: 0 <= i < k < |s| ==> s[i] != s[k] }

  /** Nothing already recorded moves, nothing is lost, nothing is recorded twice. */
  lemma {:induction false} UniqueLaws(left: seq<string>, right: seq<string>)
    ensures left <= Unique(left, right)
    ensures forall x :: x in Unique(left, right) <==> x in left || x in right
    ensures NoDuplicates(left) ==> NoDuplicates(Unique(left, right))
    decreases |right|
  {
    if right != [] {
      UniqueLaws(if right[0] in left then left else left + [right[0]], right[1..]);
      assert right == [right[0]] + right[1..];
    }
  }

  lemma {:induction false} UniqueAbsorbs(left: seq<string>, right: seq<string>)
    requires forall x :: x in right ==> x in left
    ensures Unique(left, right) == left
    decreases |right|
  {
    if right != [] {
      UniqueAbsorbs(left, right[1..]);
    }
  }

  /** Merging the same update again, as a replayed node does, changes nothing. */
  lemma UniqueReplay(left: seq<string>, right: seq<string>)
    ensures Unique(Unique(left, right), right) == Unique(left, right)
  {
    UniqueLaws(left, right);
    UniqueAbsorbs(Unique(left, right), right);
  }

  // ---------------------------------------------------------------- upsert by business key

  /** An artifact reference or a completed-job entry. */
  datatype Ref = Ref(artifactId: Option<string>, jobId: Option<string>, detail: string)

  datatype Key = Name(name: string) | Position(idx: nat)

  datatype Entry = Entry(key: Key, ref: Ref)

  predicate Named(r: Ref) { r.artifactId.Some? || r.jobId.Some? }

  function KeyOr(r: Ref, fallback: Key): Key {
    if r.artifactId.Some? then Name(r.artifactId.value)
    else if r.jobId.Some? then Name(r.jobId.value)
    else fallback
  }

  function Find(dict: seq<Entry>, key: Key): (i: nat)
    ensures i <= |dict|
    ensures i < |dict| ==> dict[i].key == key
    ensures forall k :: 0 <= k < i ==> dict[k].key != key
  {
    if dict == [] || dict[0].key == key then 0 else 1 + Find(dict[1..], key)
  }

  /** Assignment into an insertion-ordered dictionary. */
  function Upsert(dict: seq<Entry>, key: Key, r: Ref): seq<Entry> {
    var i := Find(dict, key);
    if i < |dict| then dict[i := Entry(key, r)] else dict + [Entry(key, r)]
  }

  function Indexed(left: seq<Ref>): seq<Entry> {
    if left == [] then []
    else
      var n := |left| - 1;
      Upsert(Indexed(left[..n]), KeyOr(left[n], Position(n)), left[n])
  }

  function UpsertAll(dict: seq<Entry>, right: seq<Ref>): seq<Entry>
    decreases |right|
  {
    if right == [] then dict
    else UpsertAll(Upsert(dict, KeyOr(right[0], Name("gen_" + Decimal.Digits(|dict|))), right[0]), right[1..])
  }

  function Values(dict: seq<Entry>): seq<Ref> { seq(|dict|, i requires 0 <= i < |dict| => dict[i].ref) }

  function Keyed(left: seq<Ref>, right: seq<Ref>): seq<Ref> { Values(UpsertAll(Indexed(left), right)) }

  method ReduceArtifactRefs(left: seq<Ref>, right: seq<Ref>) returns (result: seq<Ref>)
    ensures result == Keyed(left, right)
  {
    var dict: seq<Entry> := [];
    for idx := 0 to |left|
      invariant dict == Indexed(left[..idx])
    {
      assert left[..idx + 1][..idx] == left[..idx];
      dict := Upsert(dict, KeyOr(left[idx], Position(idx)), left[idx]);
    }
    assert left[..|left|] == left;
    for i := 0 to |right|
      invariant UpsertAll(dict, right[i..]) == UpsertAll(Indexed(left), right)
    {
      assert right[i..][1..] == right[i + 1..];
      dict := Upsert(dict, KeyOr(right[i], Name("gen_" + Decimal.Digits(|dict|))), right[i]);
    }
    result := Values(dict);
  }

  /** Keys are distinct, and a reference with a business key sits under it; others may sit anywhere. */
  ghost predicate Orderly(dict: seq<Entry>) {
    && (forall i, k :: 0 <= i < k < |dict| ==> dict[i].key != dict[k].key)
    && (forall i :: 0 <= i < |dict| && Named(dict[i].ref) ==> dict[i].key == KeyOr(dict[i].ref, Position(0)))
  }

  ghost predicate AllNamed(refs: seq<Ref>) { forall i :: 0 <= i < |refs| ==> Named(refs[i]) }

  /** The last of `refs` under `key`. */
  function Latest(refs: seq<Ref>, key: Key): Option<Ref> {
    if refs == [] then None
    else if KeyOr(refs[|refs| - 1], Position(0)) == key then Some(refs[|refs| - 1])
    else Latest(refs[..|refs| - 1], key)
  }

  lemma {:induction false} LatestCons(refs: seq<Ref>, key: Key)
    requires refs != []
    ensures Latest(refs, key) == if Latest(refs[1..], key).Some? then Latest(refs[1..], key)
                                 else if KeyOr(refs[0], Position(0)) == key then Some(refs[0]) else None
  {
    var n := |refs| - 1;
    if n > 0 {
      assert refs[1..][|refs[1..]| - 1] == refs[n] && refs[1..][..n - 1] == refs[..n][1..];
      LatestCons(refs[..n], key);
    }
  }

  lemma UpsertOrderly(dict: seq<Entry>, r: Ref, fallback: Key)
    requires Orderly(dict)
    ensures Orderly(Upsert(dict, KeyOr(r, fallback), r))
  {
    var i := Find(dict, KeyOr(r, fallback));
    assert i < |dict| ==> dict[i].key == KeyOr(r, fallback);
  }

  lemma {:induction false} IndexedOrderly(left: seq<Ref>)
    ensures Orderly(Indexed(left))
  {
    if left != [] {
      var n := |left| - 1;
      IndexedOrderly(left[..n]);
      UpsertOrderly(Indexed(left[..n]), left[n], Position(n));
    }
  }

  /** Upserts keep places, and each place ends with the latest value given for its key. */
  lemma {:induction false} UpsertAllLaws(dict: seq<Entry>, right: seq<Ref>)
    requires Orderly(dict) && AllNamed(right)
    ensures Orderly(UpsertAll(dict, right)) && |dict| <= |UpsertAll(dict, right)|
    ensures forall i :: 0 <= i < |dict| ==>
      UpsertAll(dict, right)[i] == Entry(dict[i].key, Latest(right, dict[i].key).GetOr(dict[i].ref))
    ensures forall i :: |dict| <= i < |UpsertAll(dict, right)| ==>
      Latest(right, UpsertAll(dict, right)[i].key) == Some(UpsertAll(dict, right)[i].ref)
    decreases |right|
  {
    if right != [] {
      var key := KeyOr(right[0], Position(0));
      var next := Upsert(dict, key, right[0]);
      assert next[Find(dict, key)].key == key;
      UpsertOrderly(dict, right[0], Position(0));
      UpsertAllLaws(next, right[1..]);
      var out := UpsertAll(next, right[1..]);
      forall i | 0 <= i < |out| ensures i < |dict| ==>
        out[i] == Entry(dict[i].key, Latest(right, dict[i].key).GetOr(dict[i].ref))
        ensures i >= |dict| ==> Latest(right, out[i].key) == Some(out[i].ref)
      {
        LatestCons(right, out[i].key);
      }
    }
  }

  predicate HasPlace(dict: seq<Entry>, r: Ref) { Find(dict, KeyOr(r, Position(0))) < |dict| }

  ghost predicate HasPlaces(dict: seq<Entry>, right: seq<Ref>) {
    forall k :: 0 <= k < |right| ==> HasPlace(dict, right[k])
  }

  /** An upsert gives its key a place, and no key loses one. */
  lemma UpsertPlaces(dict: seq<Entry>, r: Ref, other: Ref)
    requires Named(r)
    ensures var next := Upsert(dict, KeyOr(r, Position(0)), r);
      HasPlace(next, r) && (HasPlace(dict, other) ==> HasPlace(next, other))
      && (HasPlace(dict, r) ==> |next| == |dict|)
  {
    var key := KeyOr(r, Position(0));
    var next := Upsert(dict, key, r);
    assert next[Find(dict, key)].key == key;
    var p := Find(dict, KeyOr(other, Position(0)));
    assert p < |dict| ==> next[p].key == dict[p].key;
  }

  /** After the upserts every key that had a place, and every key given, has one. */
  lemma {:induction false} UpsertAllPlaces(dict: seq<Entry>, right: seq<Ref>, other: Ref)
    requires AllNamed(right)
    ensures HasPlace(dict, other) ==> HasPlace(UpsertAll(dict, right), other)
    ensures HasPlaces(UpsertAll(dict, right), right)
    decreases |right|
  {
    if right != [] {
      var next := Upsert(dict, KeyOr(right[0], Position(0)), right[0]);
      UpsertPlaces(dict, right[0], other);
      UpsertAllPlaces(next, right[1..], other);
      UpsertAllPlaces(next, right[1..], right[0]);
      forall k | 0 <= k < |right| ensures HasPlace(UpsertAll(next, right[1..]), right[k]) {
        assert k > 0 ==> right[k] == right[1..][k - 1];
      }
    }
  }

  /** If every key given had a place before, no place is added. */
  lemma {:induction false} NoPlaceAdded(dict: seq<Entry>, right: seq<Ref>)
    requires AllNamed(right) && HasPlaces(dict, right)
    ensures |UpsertAll(dict, right)| == |dict|
    decreases |right|
  {
    if right != [] {
      var next := Upsert(dict, KeyOr(right[0], Position(0)), right[0]);
      UpsertPlaces(dict, right[0], right[0]);
      forall k | 0 <= k < |right[1..]| ensures HasPlace(next, right[1..][k]) {
        UpsertPlaces(dict, right[0], right[k + 1]);
      }
      NoPlaceAdded(next, right[1..]);
    }
  }

  /** The dictionary that the next merge builds from the values: unnamed references go by position. */
  function Reindexed(dict: seq<Entry>): seq<Entry> {
    seq(|dict|, i requires 0 <= i < |dict| => Entry(KeyOr(dict[i].ref, Position(i)), dict[i].ref))
  }

  lemma {:induction false} ReindexedIs(dict: seq<Entry>)
    requires Orderly(dict)
    ensures Indexed(Values(dict)) == Reindexed(dict) && Values(Reindexed(dict)) == Values(dict)
    ensures Orderly(Reindexed(dict))
  {
    if dict != [] {
      var n := |dict| - 1;
      assert Values(dict)[..n] == Values(dict[..n]);
      ReindexedIs(dict[..n]);
      assert Reindexed(dict)[..n] == Reindexed(dict[..n]);
    }
  }

  /** Where a key given has a place, its latest reference is there. */
  ghost predicate HoldsLatest(dict: seq<Entry>, right: seq<Ref>) {
    forall i :: 0 <= i < |dict| && Latest(right, dict[i].key).Some? ==> dict[i].ref == Latest(right, dict[i].key).value
  }

  /** Upserting what is already there changes no value. */
  lemma NothingNew(dict: seq<Entry>, right: seq<Ref>)
    requires Orderly(dict) && AllNamed(right) && HasPlaces(dict, right) && HoldsLatest(dict, right)
    ensures Values(UpsertAll(dict, right)) == Values(dict)
  {
    UpsertAllLaws(dict, right);
    NoPlaceAdded(dict, right);
  }

  lemma ReindexedKeepsPlace(dict: seq<Entry>, right: seq<Ref>, k: nat)
    requires AllNamed(right) && k < |right| && HasPlace(dict, right[k]) && HoldsLatest(dict, right)
    ensures HasPlace(Reindexed(dict), right[k])
  {
    var p := Find(dict, KeyOr(right[k], Position(0)));
    LatestNamed(right, k);
    assert Reindexed(dict)[p].key == KeyOr(right[k], Position(0));
  }

  lemma ReindexedHoldsLatest(dict: seq<Entry>, right: seq<Ref>)
    requires Orderly(dict) && AllNamed(right) && HoldsLatest(dict, right)
    ensures HoldsLatest(Reindexed(dict), right)
  {
    forall i | 0 <= i < |dict| && Latest(right, Reindexed(dict)[i].key).Some?
      ensures dict[i].ref == Latest(right, Reindexed(dict)[i].key).value
    {
      if !Named(dict[i].ref) {
        NothingByPosition(right, Position(i));
      }
    }
  }

  /** Replaying references with a business key is absorbed, whatever the list already holds. */
  lemma KeyedReplay(left: seq<Ref>, right: seq<Ref>)
    requires AllNamed(right)
    ensures Keyed(Keyed(left, right), right) == Keyed(left, right)
  {
    var dict := UpsertAll(Indexed(left), right);
    IndexedOrderly(left);
    UpsertAllLaws(Indexed(left), right);
    LatestIsStored(Indexed(left), right);
    ReindexedIs(dict);
    ReindexedHoldsLatest(dict, right);
    forall k | 0 <= k < |right| ensures HasPlace(Reindexed(dict), right[k]) {
      UpsertAllPlaces(Indexed(left), right, right[k]);
      ReindexedKeepsPlace(dict, right, k);
    }
    NothingNew(Reindexed(dict), right);
  }

  lemma {:induction false} NothingByPosition(refs: seq<Ref>, key: Key)
    requires AllNamed(refs) && key.Position?
    ensures Latest(refs, key) == None
  {
    if refs != [] {
      NothingByPosition(refs[..|refs| - 1], key);
    }
  }

  /** Every key given has a latest reference, which is named and given under it. */
  lemma {:induction false} LatestNamed(refs: seq<Ref>, k: nat)
    requires AllNamed(refs) && k < |refs|
    ensures var key := KeyOr(refs[k], Position(0));
      Latest(refs, key).Some? && Named(Latest(refs, key).value) && KeyOr(Latest(refs, key).value, Position(0)) == key
  {
    var n := |refs| - 1;
    if KeyOr(refs[n], Position(0)) != KeyOr(refs[k], Position(0)) {
      LatestNamed(refs[..n], k);
    }
  }

  lemma LatestIsStored(dict: seq<Entry>, right: seq<Ref>)
    requires Orderly(dict) && AllNamed(right)
    ensures HoldsLatest(UpsertAll(dict, right), right)
  {
    UpsertAllLaws(dict, right);
  }

  /**
   * The update of one reference, as every node writes it: its replay is absorbed if and only if the
   * reference has a business key, whatever the list already holds.
   */
  lemma ReplayIsAbsorbedExactly(left: seq<Ref>, r: Ref)
    ensures Keyed(Keyed(left, [r]), [r]) == Keyed(left, [r]) <==> Named(r)
  {
    if Named(r) {
      KeyedReplay(left, [r]);
    } else {
      IndexedOrderly(left);
      UpsertOrderly(Indexed(left), r, Name("gen_" + Decimal.Digits(|Indexed(left)|)));
      OneUpsert(Indexed(left), r);
      var dict := UpsertAll(Indexed(left), [r]);
      ReindexedIs(dict);
      OneUpsert(Reindexed(dict), r);
      var gen := Name("gen_" + Decimal.Digits(|dict|));
      var p := Find(Reindexed(dict), gen);
      var out := Keyed(Keyed(left, [r]), [r]);
      if p < |dict| {
        assert Named(dict[p].ref) && out[p] == r;
      } else {
        assert |out| == |dict| + 1;
      }
    }
  }

  lemma OneUpsert(dict: seq<Entry>, r: Ref)
    ensures UpsertAll(dict, [r]) == Upsert(dict, KeyOr(r, Name("gen_" + Decimal.Digits(|dict|))), r)
  {
    var next := Upsert(dict, KeyOr(r, Name("gen_" + Decimal.Digits(|dict|))), r);
    assert UpsertAll(next, []) == next;
  }

  /** Channels of at most one entry merge as plain lists. */
  lemma KeyedSmall(r: Ref)
    requires Named(r)
    ensures Keyed([], []) == [] && Keyed([r], []) == [r] && Keyed([], [r]) == [r]
  {
    var key := KeyOr(r, Position(0));
    assert [r][..0] == [] && Indexed([r]) == Upsert([], key, r) == [Entry(key, r)];
    assert UpsertAll([], [r]) == UpsertAll(Upsert([], key, r), []);
  }

  /** The name a reference goes by: its artifact's, or else its job's. */
  function BusinessKey(r: Ref): string
    requires Named(r)
  {
    if r.artifactId.Some? then r.artifactId.value else r.jobId.value
  }

  /** Of two named references the second replaces the first exactly when both go by one name. */
  lemma LaterReplaces(first: Ref, second: Ref)
    requires Named(first) && Named(second)
    ensures Keyed([first], [second]) == if BusinessKey(first) == BusinessKey(second) then [second] else [first, second]
  {
    assert [first][..0] == [] && [second][1..] == [];
    var one := Entry(Name(BusinessKey(first)), first);
    assert Indexed([first]) == Upsert([], one.key, first) == [one];
    var two := Upsert([one], Name(BusinessKey(second)), second);
    assert UpsertAll([one], [second]) == two;
    assert [one][1..] == [];
  }

  /** The name given to the reference that becomes number `n`. */
  function Generated(n: nat): Key { Name("gen_" + Decimal.Digits(n)) }

  /** No key of the dictionary is one that could be generated from now on. */
  ghost predicate NothingGenerated(dict: seq<Entry>) {
    forall i, n: nat :: 0 <= i < |dict| && n >= |dict| ==> dict[i].key != Generated(n)
  }

  lemma GeneratedDiffer(n: nat, m: nat)
    requires n != m
    ensures Generated(n) != Generated(m)
  {
    Decimal.DigitsRoundTrip(n);
    Decimal.DigitsRoundTrip(m);
    assert ("gen_" + Decimal.Digits(n))[4..] == Decimal.Digits(n);
    assert ("gen_" + Decimal.Digits(m))[4..] == Decimal.Digits(m);
  }

  lemma UnnamedIsAppended(dict: seq<Entry>, r: Ref, right: seq<Ref>) returns (entry: Entry)
    requires NothingGenerated(dict) && !Named(r)
    ensures UpsertAll(dict, [r] + right) == UpsertAll(dict + [entry], right) && entry.ref == r
    ensures NothingGenerated(dict + [entry])
  {
    var n := |dict|;
    entry := Entry(Generated(n), r);
    forall i, m: nat | 0 <= i <= n && m > n ensures (dict + [entry])[i].key != Generated(m) {
      GeneratedDiffer(n, m);
    }
    assert ([r] + right)[1..] == right;
  }

  lemma ValuesThen(dict: seq<Entry>, entry: Entry, rest: seq<Ref>)
    ensures Values(dict + [entry]) + rest == Values(dict) + ([entry.ref] + rest)
  {
    assert Values(dict + [entry]) == Values(dict) + [entry.ref];
  }

  /** References without a name are all kept, as long as no name in use looks like a generated one. */
  lemma {:induction false} UnnamedAreKept(dict: seq<Entry>, right: seq<Ref>)
    requires NothingGenerated(dict) && forall i :: 0 <= i < |right| ==> !Named(right[i])
    ensures Values(UpsertAll(dict, right)) == Values(dict) + right
    decreases |right|
  {
    if right != [] {
      var r, rest := right[0], right[1..];
      assert right == [r] + rest;
      var entry := UnnamedIsAppended(dict, r, rest);
      UnnamedAreKept(dict + [entry], rest);
      ValuesThen(dict, entry, rest);
    }
  }
}
