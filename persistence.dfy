/** The persist step of `statistics`: each reduce result is normalised and
    upserted into the destination collection under the key (uuid, timestamp). */
module Persistence {
  import opened Telemetry

  /** The key a result is upserted under. */
  type Key = (string, int)

  /** A destination collection: at most one document per key. */
  type Collection = map<Key, Record>

  function KeyOf(r: Record): Key
  {
    (r.uuid, r.timestamp)
  }

  /** A reduce result as it is written: without `__v` and `_id`, stamped with
      the window's start. */
  function Normalize(r: Record, start: int): (n: Record)
    ensures n.version == None && n.id == None && n.timestamp == start
    ensures n.uuid == r.uuid && n.userId == r.userId && n.devType == r.devType
    ensures n.offset == r.offset && n.data == r.data
  {
    r.(version := None, id := None, timestamp := start)
  }

  /** `findOneAndUpdate` with `upsert: true` keyed by (uuid, timestamp): the
      document at that key becomes `r`, whether or not one was there. */
  function Upsert(c: Collection, r: Record): (u: Collection)
    ensures KeyOf(r) in u && u[KeyOf(r)] == r
    ensures u.Keys == c.Keys + {KeyOf(r)}
    ensures forall k :: k in c && k != KeyOf(r) ==> u[k] == c[k]
  {
    c[KeyOf(r) := r]
  }

  /** The upserts of `rs`, one after the other: the keys of the collection
      and of `rs`, and nothing else. */
  function UpsertAll(c: Collection, rs: seq<Record>): (u: Collection)
    ensures u.Keys == c.Keys + set r | r in rs :: KeyOf(r)
    decreases |rs|
  {
    if rs == [] then c
    else
      var prefix := rs[..|rs| - 1];
      assert rs == prefix + [rs[|rs| - 1]];
      assert (set r | r in rs :: KeyOf(r)) == (set r | r in prefix :: KeyOf(r)) + {KeyOf(rs[|rs| - 1])};
      Upsert(UpsertAll(c, prefix), rs[|rs| - 1])
  }

  lemma UpsertAllAppend(c: Collection, rs: seq<Record>, r: Record)
    ensures UpsertAll(c, rs + [r]) == Upsert(UpsertAll(c, rs), r)
  {
    assert (rs + [r])[..|rs|] == rs;
  }

  /** What the persist loop writes: each result normalised, skipping those at
      the positions whose upsert failed. */
  function Persisted(results: seq<Record>, start: int, failed: set<nat>): seq<Record>
    decreases |results|
  {
    if results == [] then []
    else
      var i := |results| - 1;
      Persisted(results[..i], start, failed) + (if i in failed then [] else [Normalize(results[i], start)])
  }

  lemma PersistedStep(results: seq<Record>, i: nat, start: int, failed: set<nat>)
    requires i < |results|
    ensures i in failed ==> Persisted(results[..i + 1], start, failed) == Persisted(results[..i], start, failed)
    ensures i !in failed ==>
      Persisted(results[..i + 1], start, failed) == Persisted(results[..i], start, failed) + [Normalize(results[i], start)]
  {
    assert results[..i + 1][..i] == results[..i];
    assert Persisted(results[..i], start, failed) + [] == Persisted(results[..i], start, failed);
  }

  lemma AnswersStep(results: seq<Record>, i: nat, start: int, failed: set<nat>)
    requires i < |results|
    ensures Answers(results[..i + 1], start, failed)
         == Answers(results[..i], start, failed) + [if i in failed then None else Some(Normalize(results[i], start))]
  {
    assert results[..i + 1][..i] == results[..i];
  }

  /** The document each upsert hands back (`new: true`), or nothing when it failed. */
  function Answers(results: seq<Record>, start: int, failed: set<nat>): seq<Option<Record>>
    decreases |results|
  {
    if results == [] then []
    else
      var i := |results| - 1;
      Answers(results[..i], start, failed) + [if i in failed then None else Some(Normalize(results[i], start))]
  }

  /** Upserts leave every key they do not name as it was. */
  lemma {:induction false} UpsertAllOtherKeys(c: Collection, rs: seq<Record>, k: Key)
    requires forall i :: 0 <= i < |rs| ==> KeyOf(rs[i]) != k
    ensures k in UpsertAll(c, rs) <==> k in c
    ensures k in c ==> UpsertAll(c, rs)[k] == c[k]
    decreases |rs|
  {
    if rs != [] {
      UpsertAllOtherKeys(c, rs[..|rs| - 1], k);
    }
  }

  /** After the upserts, the key of a result holds the last result with that key. */
  lemma {:induction false} UpsertAllLastWins(c: Collection, rs: seq<Record>, i: nat)
    requires i < |rs|
    requires forall j :: i < j < |rs| ==> KeyOf(rs[j]) != KeyOf(rs[i])
    ensures KeyOf(rs[i]) in UpsertAll(c, rs) && UpsertAll(c, rs)[KeyOf(rs[i])] == rs[i]
    decreases |rs|
  {
    if i < |rs| - 1 {
      UpsertAllLastWins(c, rs[..|rs| - 1], i);
    }
  }

  /** The upserts override the collection with the map they build from nothing. */
  lemma {:induction false} UpsertAllOverrides(c: Collection, rs: seq<Record>)
    ensures UpsertAll(c, rs) == c + UpsertAll(map[], rs)
    decreases |rs|
  {
    if rs != [] {
      var prefix := rs[..|rs| - 1];
      UpsertAllOverrides(c, prefix);
      var r := rs[|rs| - 1];
      UpdateAfterOverride(c, UpsertAll(map[], prefix), KeyOf(r), r);
    }
  }

  lemma UpdateAfterOverride(a: Collection, b: Collection, k: Key, v: Record)
    ensures (a + b)[k := v] == a + b[k := v]
  {
  }

  /** Upserting the same results again changes nothing. */
  lemma UpsertAllIdempotent(c: Collection, rs: seq<Record>)
    ensures UpsertAll(UpsertAll(c, rs), rs) == UpsertAll(c, rs)
  {
    var written := UpsertAll(map[], rs);
    UpsertAllOverrides(c, rs);
    UpsertAllOverrides(UpsertAll(c, rs), rs);
    assert (c + written) + written == c + written;
  }

  /** Everything the persist step writes is stamped with the window's start. */
  lemma {:induction false} PersistedStamped(results: seq<Record>, start: int, failed: set<nat>)
    ensures |Persisted(results, start, failed)| <= |results|
    ensures forall j :: 0 <= j < |Persisted(results, start, failed)| ==> Persisted(results, start, failed)[j].timestamp == start
    decreases |results|
  {
    if results != [] {
      PersistedStamped(results[..|results| - 1], start, failed);
    }
  }

  /** With no failed upsert, every result is written, normalised, in order. */
  lemma {:induction false} PersistedWithoutFailures(results: seq<Record>, start: int)
    ensures |Persisted(results, start, {})| == |results|
    ensures forall i :: 0 <= i < |results| ==> Persisted(results, start, {})[i] == Normalize(results[i], start)
    decreases |results|
  {
    if results != [] {
      PersistedWithoutFailures(results[..|results| - 1], start);
    }
  }

  /** The answer list has one entry per result: its normalised form, or
      nothing exactly where the upsert failed. */
  lemma {:induction false} AnswersAt(results: seq<Record>, start: int, failed: set<nat>)
    ensures |Answers(results, start, failed)| == |results|
    ensures forall i :: 0 <= i < |results| ==>
      Answers(results, start, failed)[i] == if i in failed then None else Some(Normalize(results[i], start))
    decreases |results|
  {
    if results != [] {
      AnswersAt(results[..|results| - 1], start, failed);
    }
  }

  /** Results of distinct devices, none failing, all end up stored, each
      normalised, under (its device id, the window's start). */
  lemma PersistedDistinctStored(c: Collection, results: seq<Record>, start: int, i: nat)
    requires i < |results|
    requires forall j, k :: 0 <= j < k < |results| ==> results[j].uuid != results[k].uuid
    ensures (results[i].uuid, start) in UpsertAll(c, Persisted(results, start, {}))
    ensures UpsertAll(c, Persisted(results, start, {}))[(results[i].uuid, start)] == Normalize(results[i], start)
  {
    PersistedWithoutFailures(results, start);
    var written := Persisted(results, start, {});
    assert forall j :: i < j < |written| ==> KeyOf(written[j]) != KeyOf(written[i]);
    UpsertAllLastWins(c, written, i);
  }
}
