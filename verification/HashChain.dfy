/** The lift-out journal's hash chain (openfibsem journal.py). The digest of a canonical record is a function
    known only by its properties; it gives none for a record whose text is too large. */
module HashChain {
  import opened Wrappers

  type Digest = string

  type Hash = Base -> Option<Digest>

  /** A record without its own hash, which is what the hash covers. `fields` is the canonical text of its fields. */
  datatype Base = Base(sequence: nat, runId: string, worldId: string, recordedNs: int, kind: string, fields: string,
                       previous: Digest)

  datatype Record = Record(base: Base, hash: Digest)

  function Zeros(n: nat): (s: string)
    ensures |s| == n && forall i :: 0 <= i < n ==> s[i] == '0'
  {
    if n == 0 then "" else Zeros(n - 1) + "0"
  }

  /** GENESIS_HASH. */
  const GENESIS: Digest := Zeros(64)

  predicate IsDigest(d: Digest) {
    |d| == 64 && forall i :: 0 <= i < 64 ==> '0' <= d[i] <= '9' || 'a' <= d[i] <= 'f'
  }

  ghost predicate GivesDigests(hash: Hash) { forall b :: hash(b).Some? ==> IsDigest(hash(b).value) }

  ghost predicate CollisionFree(hash: Hash) { forall a, b :: hash(a).Some? && hash(a) == hash(b) ==> a == b }

  function Head(records: seq<Record>): Digest { if records == [] then GENESIS else records[|records| - 1].hash }

  function LastTime(records: seq<Record>): int { if records == [] then 0 else records[|records| - 1].base.recordedNs }

  /** What validate_records checks of one record after the ones before it. */
  predicate Follows(hash: Hash, before: seq<Record>, r: Record, runId: string, worldId: string) {
    && r.base.runId == runId && r.base.worldId == worldId
    && r.base.sequence == |before| + 1
    && r.base.recordedNs > 0 && r.base.recordedNs >= LastTime(before)
    && r.base.kind != ""
    && IsDigest(r.base.previous) && IsDigest(r.hash)
    && r.base.previous == Head(before)
    && hash(r.base) == Some(r.hash)
  }

  predicate Valid(hash: Hash, records: seq<Record>, runId: string, worldId: string) {
    records == []
    || (Valid(hash, records[..|records| - 1], runId, worldId)
        && Follows(hash, records[..|records| - 1], records[|records| - 1], runId, worldId))
  }

  /** What a valid chain is, record by record: numbered from one, of one run and world, at times that start above zero
      and never go back, each of a kind, each naming the hash before it, and each bearing its own. */
  predicate Linked(hash: Hash, records: seq<Record>, runId: string, worldId: string) {
    forall i :: 0 <= i < |records| ==> LinkedAt(hash, records, i, runId, worldId)
  }

  predicate LinkedAt(hash: Hash, records: seq<Record>, i: nat, runId: string, worldId: string)
    requires i < |records|
  {
    var b := records[i].base;
    && b.sequence == i + 1 && b.runId == runId && b.worldId == worldId && b.kind != ""
    && 0 < b.recordedNs && (i > 0 ==> records[i - 1].base.recordedNs <= b.recordedNs)
    && b.previous == (if i == 0 then GENESIS else records[i - 1].hash)
    && IsDigest(b.previous) && IsDigest(records[i].hash) && hash(b) == Some(records[i].hash)
  }

  lemma LinkedSplits(hash: Hash, init: seq<Record>, r: Record, runId: string, worldId: string)
    ensures Linked(hash, init + [r], runId, worldId) <==> Linked(hash, init, runId, worldId) && Follows(hash, init, r, runId, worldId)
  {
    hide IsDigest, GENESIS;
    var all, n := init + [r], |init|;
    LastLinked(hash, init, r, runId, worldId);
    forall i | 0 <= i < n ensures LinkedAt(hash, all, i, runId, worldId) <==> LinkedAt(hash, init, i, runId, worldId) {
      assert all[i] == init[i] && (i > 0 ==> all[i - 1] == init[i - 1]);
    }
    if Linked(hash, all, runId, worldId) {
      assert LinkedAt(hash, all, n, runId, worldId);
      forall i | 0 <= i < n ensures LinkedAt(hash, init, i, runId, worldId) {
        assert LinkedAt(hash, all, i, runId, worldId);
      }
    }
  }

  lemma LastLinked(hash: Hash, init: seq<Record>, r: Record, runId: string, worldId: string)
    ensures LinkedAt(hash, init + [r], |init|, runId, worldId) <==> Follows(hash, init, r, runId, worldId)
  {
    hide IsDigest, GENESIS;
    assert (init + [r])[|init|] == r && (init != [] ==> (init + [r])[|init| - 1] == init[|init| - 1]);
  }

  /** validate_records accepts exactly the linked chains. */
  lemma {:induction false} ValidIff(hash: Hash, records: seq<Record>, runId: string, worldId: string)
    ensures Valid(hash, records, runId, worldId) <==> Linked(hash, records, runId, worldId)
  {
    if records != [] {
      hide Follows, Linked;
      var init, r := records[..|records| - 1], records[|records| - 1];
      assert records == init + [r];
      ValidIff(hash, init, runId, worldId);
      LinkedSplits(hash, init, r, runId, worldId);
    }
  }

  lemma {:induction false} PrefixValid(hash: Hash, records: seq<Record>, n: nat, runId: string, worldId: string)
    requires Valid(hash, records, runId, worldId) && n <= |records|
    ensures Valid(hash, records[..n], runId, worldId)
    decreases |records|
  {
    if n < |records| {
      PrefixValid(hash, records[..|records| - 1], n, runId, worldId);
      assert records[..|records| - 1][..n] == records[..n];
    } else {
      assert records[..n] == records;
    }
  }

  /** validate_records: the head hash, or nothing. */
  method ValidateRecords(hash: Hash, records: seq<Record>, runId: string, worldId: string, requireTerminal: bool)
    returns (ok: bool, head: Digest)
    ensures ok <==>
      && Valid(hash, records, runId, worldId)
      && (requireTerminal ==> records != [] && records[|records| - 1].base.kind == "run.terminal")
    ensures ok ==> head == Head(records)
  {
    var previous, previousTime := GENESIS, 0;
    head := GENESIS;
    for i := 0 to |records|
      invariant Valid(hash, records[..i], runId, worldId)
      invariant previous == Head(records[..i]) && previousTime == LastTime(records[..i])
    {
      var r := records[i];
      assert records[..i + 1][..i] == records[..i];
      if r.base.runId != runId || r.base.worldId != worldId || r.base.sequence != i + 1
         || r.base.recordedNs <= 0 || r.base.recordedNs < previousTime || r.base.kind == ""
         || !IsDigest(r.base.previous) || !IsDigest(r.hash)
         || r.base.previous != previous || hash(r.base) != Some(r.hash) {
        if Valid(hash, records, runId, worldId) {
          PrefixValid(hash, records, i + 1, runId, worldId);
        }
        return false, GENESIS;
      }
      previous, previousTime := r.hash, r.base.recordedNs;
    }
    assert records[..|records|] == records;
    ok := requireTerminal ==> records != [] && records[|records| - 1].base.kind == "run.terminal";
    head := previous;
  }

  class EventJournal {
    const runId: string
    const worldId: string
    const hash: Hash
    var events: seq<Record>

    constructor (runId: string, worldId: string, hash: Hash)
      ensures this.runId == runId && this.worldId == worldId && this.hash == hash && events == []
    {
      this.runId, this.worldId, this.hash, events := runId, worldId, hash, [];
    }

    /** append with the clock's reading `now`; `fields` is missing when they have no canonical form. A refused
        call changes nothing, and an appended record keeps the journal valid as long as the clock runs forward. */
    method Append(kind: string, fields: Option<string>, now: int) returns (ok: bool)
      modifies this`events
      ensures
        var e := Entry(kind, fields, now);
        && (ok <==> Accepted(hash, runId, worldId, old(events), e))
        && events == (if ok then old(events) + [Stamped(hash, runId, worldId, old(events), e)] else old(events))
        && (GivesDigests(hash) && now > 0 && now >= LastTime(old(events)) && Valid(hash, old(events), runId, worldId)
            ==> Valid(hash, events, runId, worldId))
    {
      hide IsDigest, GENESIS, Valid;
      if kind == "" || |kind| > 128 || fields.None? {
        return false;
      }
      ghost var e := Entry(kind, fields, now);
      var base := Base(|events| + 1, runId, worldId, now, kind, fields.value, Head(events));
      var digest := hash(base);
      if digest.None? {
        return false;
      }
      if GivesDigests(hash) && now > 0 && now >= LastTime(events) && Valid(hash, events, runId, worldId) {
        StampedFollows(hash, runId, worldId, events, e);
      }
      events := events + [Record(base, digest.value)];
      return true;
    }
  }

  lemma HeadIsDigest(hash: Hash, records: seq<Record>, runId: string, worldId: string)
    ensures Valid(hash, records, runId, worldId) ==> IsDigest(Head(records))
  {
  }

  /** What append was asked, one entry after another. */
  datatype Entry = Entry(kind: string, fields: Option<string>, now: int)

  function Draft(runId: string, worldId: string, before: seq<Record>, e: Entry): Base
    requires e.fields.Some?
  {
    Base(|before| + 1, runId, worldId, e.now, e.kind, e.fields.value, Head(before))
  }

  /** The kind is a short name, the fields have a canonical form, and the record's text is not too large. */
  predicate Accepted(hash: Hash, runId: string, worldId: string, before: seq<Record>, e: Entry) {
    0 < |e.kind| <= 128 && e.fields.Some? && hash(Draft(runId, worldId, before, e)).Some?
  }

  function Stamped(hash: Hash, runId: string, worldId: string, before: seq<Record>, e: Entry): Record
    requires Accepted(hash, runId, worldId, before, e)
  {
    var base := Draft(runId, worldId, before, e);
    Record(base, hash(base).value)
  }

  function Appended(hash: Hash, runId: string, worldId: string, entries: seq<Entry>): seq<Record> {
    if entries == [] then []
    else
      var before, e := Appended(hash, runId, worldId, entries[..|entries| - 1]), entries[|entries| - 1];
      if Accepted(hash, runId, worldId, before, e) then before + [Stamped(hash, runId, worldId, before, e)] else before
  }

  /** A clock that starts above zero and never goes back. */
  predicate Monotone(entries: seq<Entry>) {
    && (forall i :: 0 <= i < |entries| ==> entries[i].now > 0)
    && forall i, j :: 0 <= i < j < |entries| ==> entries[i].now <= entries[j].now
  }

  lemma StampedFollows(hash: Hash, runId: string, worldId: string, before: seq<Record>, e: Entry)
    requires GivesDigests(hash) && Valid(hash, before, runId, worldId)
    requires Accepted(hash, runId, worldId, before, e) && e.now > 0 && e.now >= LastTime(before)
    ensures Valid(hash, before + [Stamped(hash, runId, worldId, before, e)], runId, worldId)
    ensures LastTime(before + [Stamped(hash, runId, worldId, before, e)]) == e.now
  {
    hide IsDigest, GENESIS;
    var r := Stamped(hash, runId, worldId, before, e);
    assert (before + [r])[..|before|] == before;
    HeadIsDigest(hash, before, runId, worldId);
    assert Follows(hash, before, r, runId, worldId);
  }

  /** Whatever is appended, in whatever order, under such a clock, the journal validates. */
  lemma {:induction false} AppendedValid(hash: Hash, runId: string, worldId: string, entries: seq<Entry>)
    requires GivesDigests(hash) && Monotone(entries)
    ensures
      var records := Appended(hash, runId, worldId, entries);
      && Valid(hash, records, runId, worldId)
      && (entries != [] ==> LastTime(records) <= entries[|entries| - 1].now)
      && (records != [] ==> exists i :: 0 <= i < |entries| && entries[i].now == LastTime(records))
  {
    hide Valid, Follows, LastTime, GivesDigests, Stamped, Accepted;
    if entries == [] {
      NothingAppended(hash, runId, worldId);
    } else {
      var n := |entries| - 1;
      var e, before := entries[n], Appended(hash, runId, worldId, entries[..n]);
      AppendedValid(hash, runId, worldId, entries[..n]);
      if n == 0 {
        NothingAppended(hash, runId, worldId);
      } else {
        assert entries[..n][n - 1] == entries[n - 1];
      }
      if Accepted(hash, runId, worldId, before, e) {
        StampedFollows(hash, runId, worldId, before, e);
      } else if before != [] {
        var i :| 0 <= i < n && entries[..n][i].now == LastTime(before);
        assert entries[i].now == LastTime(before);
      }
    }
  }

  lemma NothingAppended(hash: Hash, runId: string, worldId: string)
    ensures Valid(hash, [], runId, worldId) && LastTime([]) == 0
  {
  }

  /** Under a collision-free hash the head determines every record: two valid, non-empty lists with the same
      head hash are the same list. */
  lemma {:induction false} HeadDetermines(hash: Hash, a: seq<Record>, b: seq<Record>, runId: string, worldId: string,
                                          otherRun: string, otherWorld: string)
    requires CollisionFree(hash) && Valid(hash, a, runId, worldId) && Valid(hash, b, otherRun, otherWorld)
    requires a != [] && b != [] && Head(a) == Head(b)
    ensures a == b
  {
    var x, y := a[|a| - 1], b[|b| - 1];
    assert x.base == y.base;
    assert |a| == |b|;
    if |a| > 1 {
      HeadDetermines(hash, a[..|a| - 1], b[..|b| - 1], runId, worldId, otherRun, otherWorld);
    }
    assert a == a[..|a| - 1] + [x] && b == b[..|b| - 1] + [y];
  }
}
