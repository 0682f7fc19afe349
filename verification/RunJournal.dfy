/** Run records and their hash-chained journal. */
module RunJournal {
  import opened Common
  import opened RunPlan
  import opened RunState

  const EVIDENCE_SCHEMA := "gaugemesh.run-evidence/1"
  const MAX_VERSION: nat := 512
  const MAX_DOCUMENT_BYTES: nat := 2 * 1024 * 1024
  const MAX_RUNS: nat := 128

  datatype Owner = Owner(principal: string, tenant: string)

  datatype StateDigest = StateDigest(
    schemaVersion: string, runId: string, owner: Owner, runKey: string, plan: Plan, version: nat, data: State)

  /** The digest of an event carries everything the event hashes, including the digest before it. */
  datatype EventDigest =
    | NoEvent
    | EventDigest(version: nat, kind: string, state: StateDigest, previous: EventDigest)

  datatype Event = Event(version: nat, kind: string, state: StateDigest, previous: EventDigest, digest: EventDigest)

  /** `planDigest` names a plan by its content. */
  datatype Record = Record(
    schemaVersion: string, runId: string, owner: Owner, runKey: string, planDigest: Plan, version: nat,
    data: State, journal: seq<Event>)

  function DigestOfEvent(e: Event): EventDigest {
    EventDigest(e.version, e.kind, e.state, e.previous)
  }

  function DigestOfState(r: Record): StateDigest {
    StateDigest(r.schemaVersion, r.runId, r.owner, r.runKey, r.planDigest, r.version, r.data)
  }

  function PreviousDigest(journal: seq<Event>, k: nat): EventDigest
    requires k <= |journal|
  {
    if k == 0 then NoEvent else journal[k - 1].digest
  }

  predicate EntryOk(journal: seq<Event>, k: nat)
    requires k < |journal|
  {
    && journal[k].version == k
    && journal[k].previous == PreviousDigest(journal, k)
    && journal[k].digest == DigestOfEvent(journal[k])
  }

  predicate HeaderOk(r: Record) {
    && r.schemaVersion == EVIDENCE_SCHEMA
    && r.version <= MAX_VERSION
    && |r.journal| == r.version + 1
    && r.data.plan == r.planDigest
    && r.data.plan.runKey == r.runKey
  }

  /** Versions count up from zero, every entry chains to the one before, and the last one seals the record. */
  predicate Intact(r: Record) {
    && HeaderOk(r)
    && (forall k | 0 <= k < |r.journal| :: EntryOk(r.journal, k))
    && r.journal[|r.journal| - 1].state == DigestOfState(r)
  }

  /** The entry counts its place, names the digest of the one before it, and is sealed by its own content. */
  predicate Shown(journal: seq<Event>, k: nat)
    requires k < |journal|
  {
    && journal[k].version == k
    && journal[k].previous == (if k == 0 then NoEvent else journal[k - 1].digest)
    && journal[k].digest == EventDigest(k, journal[k].kind, journal[k].state, journal[k].previous)
  }

  /**
   * What an intact record shows: one event per version, numbered in order, each naming the digest of the
   * one before it and sealed by its own content, the last sealing the record as it is.
   */
  lemma IntactShows(r: Record)
    ensures Intact(r) <==>
              && r.schemaVersion == "gaugemesh.run-evidence/1" && r.version <= 512 && |r.journal| == r.version + 1
              && r.planDigest == r.data.plan && r.runKey == r.data.plan.runKey
              && (forall k | 0 <= k < |r.journal| :: Shown(r.journal, k))
              && r.journal[r.version].state
                 == StateDigest(r.schemaVersion, r.runId, r.owner, r.runKey, r.planDigest, r.version, r.data)
  {
    assert DigestOfState(r) == StateDigest(r.schemaVersion, r.runId, r.owner, r.runKey, r.planDigest, r.version, r.data);
    if HeaderOk(r) {
      forall k | 0 <= k < |r.journal|
        ensures EntryOk(r.journal, k) <==> Shown(r.journal, k)
      {
      }
    }
  }

  method VerifyIntegrity(r: Record) returns (ok: bool)
    ensures ok == Intact(r)
  {
    if !HeaderOk(r) {
      return false;
    }
    var previous := NoEvent;
    var i := 0;
    while i < |r.journal|
      invariant i <= |r.journal| && previous == PreviousDigest(r.journal, i)
      invariant forall k | 0 <= k < i :: EntryOk(r.journal, k)
    {
      var entry := r.journal[i];
      if entry.version != i || entry.previous != previous || DigestOfEvent(entry) != entry.digest {
        assert !EntryOk(r.journal, i);
        return false;
      }
      previous := entry.digest;
      i := i + 1;
    }
    ok := r.journal[|r.journal| - 1].state == DigestOfState(r);
  }

  /** The record with one more event for its current version and data. */
  function WithEvent(r: Record, kind: string): Record {
    var e := Event(r.version, kind, DigestOfState(r), PreviousDigest(r.journal, |r.journal|), NoEvent);
    r.(journal := r.journal + [e.(digest := DigestOfEvent(e))])
  }

  /** `bytes` is the encoded length of the data. */
  function Append(r: Record, kind: string, bytes: nat): (result: Result<Record, string>) {
    if r.version > MAX_VERSION || Utf8Length(kind) > 128 || bytes > MAX_DOCUMENT_BYTES then Err("GM_RUN_STORAGE_BOUND")
    else if !Intact(WithEvent(r, kind)) then Err("GM_RUN_INTEGRITY")
    else Ok(WithEvent(r, kind))
  }

  function AcceptedRecord(runId: string, owner: Owner, runKey: string, data: State, bytes: nat): Result<Record, string> {
    Append(Record(EVIDENCE_SCHEMA, runId, owner, runKey, data.plan, 0, data, []), "accepted", bytes)
  }

  /** One driver's save against the stored record, from the version it last saw. */
  function Advance(current: Record, seen: nat, data: State, kind: string, bytes: nat): (result: Result<Record, string>) {
    if current.version != seen then Err("GM_RUN_STALE_DRIVER")
    else if data.plan != current.data.plan then Err("GM_RUN_PLAN_IMMUTABLE")
    else Append(current.(version := current.version + 1, data := data), kind, bytes)
  }

  lemma AcceptedIsIntact(runId: string, owner: Owner, runKey: string, data: State, bytes: nat)
    ensures AcceptedRecord(runId, owner, runKey, data, bytes).Ok? <==> bytes <= 2_097_152 && data.plan.runKey == runKey
    ensures AcceptedRecord(runId, owner, runKey, data, bytes).Ok? ==>
              var r := AcceptedRecord(runId, owner, runKey, data, bytes).value;
              && Intact(r) && r.version == 0 && |r.journal| == 1 && r.data == data
              && r.runId == runId && r.owner == owner && r.runKey == runKey && r.planDigest == data.plan
  {
    var r := Record(EVIDENCE_SCHEMA, runId, owner, runKey, data.plan, 0, data, []);
    assert Utf8Length("accepted") == 8 by {
      AsciiLength("accepted");
    }
    assert EntryOk(WithEvent(r, "accepted").journal, 0);
  }

  lemma {:induction false} AsciiLength(s: string)
    requires forall i | 0 <= i < |s| :: s[i] as int < 0x80
    ensures Utf8Length(s) == |s|
  {
    if s != "" {
      AsciiLength(s[1..]);
    }
  }

  /**
   * A save succeeds exactly for the driver whose version is current, with the same plan and
   * within bounds; it then adds one event and rewrites none.
   */
  lemma AdvanceExtends(current: Record, seen: nat, data: State, kind: string, bytes: nat)
    requires Intact(current)
    ensures Advance(current, seen, data, kind, bytes).Ok? <==>
              && current.version == seen && data.plan == current.data.plan
              && current.version < 512 && Utf8Length(kind) <= 128 && bytes <= 2_097_152
    ensures Advance(current, seen, data, kind, bytes).Ok? ==>
              var r := Advance(current, seen, data, kind, bytes).value;
              && Intact(r) && r.version == current.version + 1 && r.data == data
              && |r.journal| == |current.journal| + 1 && r.journal[..|current.journal|] == current.journal
              && r.journal[|current.journal|].kind == kind
              && r.runId == current.runId && r.owner == current.owner && r.runKey == current.runKey && r.planDigest == current.planDigest
  {
    var base := current.(version := current.version + 1, data := data);
    var next := WithEvent(base, kind);
    if current.version == seen && data.plan == current.data.plan && current.version < MAX_VERSION {
      forall k | 0 <= k < |next.journal|
        ensures EntryOk(next.journal, k)
      {
        if k < |current.journal| {
          assert EntryOk(current.journal, k);
        }
      }
      assert Intact(next);
    }
  }

  lemma {:induction false} SameDigestSameJournal(a: seq<Event>, b: seq<Event>, n: nat)
    requires n < |a| && n < |b|
    requires (forall k | 0 <= k < |a| :: EntryOk(a, k)) && forall k | 0 <= k < |b| :: EntryOk(b, k)
    requires a[n].digest == b[n].digest
    ensures a[..n + 1] == b[..n + 1]
  {
    assert EntryOk(a, n) && EntryOk(b, n);
    if n > 0 {
      SameDigestSameJournal(a, b, n - 1);
    }
    assert a[..n + 1] == a[..n] + [a[n]] && b[..n + 1] == b[..n] + [b[n]];
  }

  /** The digest of the last event determines the whole record and its whole history. */
  lemma LastDigestDeterminesRecord(a: Record, b: Record)
    requires Intact(a) && Intact(b)
    requires a.journal[|a.journal| - 1].digest == b.journal[|b.journal| - 1].digest
    ensures a == b
  {
    var i, j := |a.journal| - 1, |b.journal| - 1;
    assert EntryOk(a.journal, i) && EntryOk(b.journal, j);
    SameDigestSameJournal(a.journal, b.journal, i);
    assert a.journal[..i + 1] == a.journal && b.journal[..j + 1] == b.journal;
  }
}
