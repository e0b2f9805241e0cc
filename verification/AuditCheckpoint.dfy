/**
 Audit-chain checkpoints: a rolling digest over a tenant's events in sequence order,
 read in pages of a thousand rows, and its recomputation. SHA-256 is a parameter;
 binding results speak only of the texts the compared chains do hash.
 */
module AuditCheckpoint {
  import opened Common
  import opened FieldEncoding

  const BATCH: nat := 1000

  /** A stored audit event. */
  datatype Row = Row(tenant: string, sequence: nat, hash: string)

  datatype Checkpoint = Checkpoint(number: nat, through: nat, eventCount: nat, previousDigest: Option<string>, digest: string)

  type Sha = string -> string

  /** Rows are kept in sequence order. */
  ghost predicate Ordered(rows: seq<Row>) {
    forall i, j :: 0 <= i < j < |rows| ==> rows[i].sequence < rows[j].sequence
  }

  predicate Selected(row: Row, tenant: string, from: nat, until: Option<nat>) {
    row.tenant == tenant && row.sequence >= from && (until.Some? ==> row.sequence <= until.value)
  }

  /** The tenant's rows from `from` to `until`, in order: the unpaged scan. */
  function Range(rows: seq<Row>, tenant: string, from: nat, until: Option<nat>): seq<Row> {
    if rows == [] then []
    else if Selected(rows[0], tenant, from, until) then [rows[0]] + Range(rows[1..], tenant, from, until)
    else Range(rows[1..], tenant, from, until)
  }

  function Hashes(rows: seq<Row>): (r: seq<string>)
    ensures |r| == |rows|
  {
    seq(|rows|, i requires 0 <= i < |rows| => rows[i].hash)
  }

  lemma {:induction false} RangeMembers(rows: seq<Row>, tenant: string, from: nat, until: Option<nat>)
    requires Ordered(rows)
    ensures var r := Range(rows, tenant, from, until);
      Ordered(r) && forall x :: x in r <==> x in rows && Selected(x, tenant, from, until)
  {
    if rows != [] {
      RangeMembers(rows[1..], tenant, from, until);
      assert rows == [rows[0]] + rows[1..];
      var rest := Range(rows[1..], tenant, from, until);
      forall j | 0 <= j < |rest| ensures rows[0].sequence < rest[j].sequence {
        assert rest[j] in rows[1..];
      }
    }
  }

  lemma {:induction false} RangeEmpty(rows: seq<Row>, tenant: string, from: nat, until: Option<nat>)
    requires forall i :: 0 <= i < |rows| ==> !Selected(rows[i], tenant, from, until)
    ensures Range(rows, tenant, from, until) == []
  {
    if rows != [] {
      RangeEmpty(rows[1..], tenant, from, until);
    }
  }

  /** Restarting one past row n of a scan yields the rest of the scan. */
  lemma {:induction false} RangeRestart(rows: seq<Row>, tenant: string, from: nat, until: Option<nat>, n: nat)
    requires Ordered(rows) && 0 < n <= |Range(rows, tenant, from, until)|
    ensures Range(rows, tenant, Range(rows, tenant, from, until)[n - 1].sequence + 1, until) == Range(rows, tenant, from, until)[n..]
  {
    var r := Range(rows, tenant, from, until);
    var next := r[n - 1].sequence + 1;
    RangeMembers(rows, tenant, from, until);
    assert r[n - 1] in r && rows[0].sequence <= r[n - 1].sequence;
    if Selected(rows[0], tenant, from, until) {
      if n == 1 {
        RangeFromLater(rows[1..], tenant, from, next, until);
      } else {
        RangeRestart(rows[1..], tenant, from, until, n - 1);
      }
    } else {
      RangeRestart(rows[1..], tenant, from, until, n);
    }
  }

  lemma {:induction false} RangeFromLater(rows: seq<Row>, tenant: string, from: nat, later: nat, until: Option<nat>)
    requires from <= later && forall i :: 0 <= i < |rows| ==> rows[i].sequence >= later
    ensures Range(rows, tenant, from, until) == Range(rows, tenant, later, until)
  {
    if rows != [] {
      RangeFromLater(rows[1..], tenant, from, later, until);
    }
  }

  /** The last sequence a scan saw, or the one before its start. */
  function Through(r: seq<Row>, from: nat): int {
    if r == [] then from - 1 else r[|r| - 1].sequence
  }

  /** `#eventRange`: pages of at most a thousand rows until a short page; the same list as one scan. */
  method EventRange(rows: seq<Row>, tenant: string, from: nat, until: Option<nat>) returns (eventHashes: seq<string>, through: int)
    requires Ordered(rows)
    ensures eventHashes == Hashes(Range(rows, tenant, from, until))
    ensures through == Through(Range(rows, tenant, from, until), from)
  {
    ghost var all := Range(rows, tenant, from, until);
    var cursor: nat := from;
    eventHashes := [];
    through := from - 1;
    while true
      invariant |eventHashes| <= |all| && eventHashes == Hashes(all)[..|eventHashes|]
      invariant Range(rows, tenant, cursor, until) == all[|eventHashes|..]
      invariant through == Through(all[..|eventHashes|], from)
      decreases |all| - |eventHashes|
    {
      var rest := Range(rows, tenant, cursor, until);
      var page := if |rest| <= BATCH then rest else rest[..BATCH];
      ghost var seen := |eventHashes|;
      var i := 0;
      while i < |page|
        invariant 0 <= i <= |page| && |eventHashes| == seen + i <= |all| && eventHashes == Hashes(all)[..seen + i]
        invariant through == Through(all[..seen + i], from)
      {
        assert page[i] == rest[i] == all[seen + i];
        eventHashes := eventHashes + [page[i].hash];
        through := page[i].sequence;
        i := i + 1;
      }
      if |page| < BATCH {
        assert all[..|all|] == all;
        return;
      }
      RangeRestart(rows, tenant, from, until, seen + BATCH);
      cursor := through + 1;
    }
  }

  // ----- digests -----

  const US: char := '\U{1F}'

  function JoinHashes(hashes: seq<string>): string {
    if hashes == [] then [] else [US] + hashes[0] + JoinHashes(hashes[1..])
  }

  /** The text `digestOf` feeds to SHA-256: a fixed tag, then unit-separated fields, one per event at the end. */
  function DigestInput(previous: Option<string>, through: nat, count: nat, hashes: seq<string>): string {
    "rwa.audit-chain-checkpoint.v1"
    + JoinHashes([if previous.Some? then previous.value else "", PrintDecimal(through), PrintDecimal(count)] + hashes)
  }

  function DigestOf(sha: Sha, previous: Option<string>, through: nat, count: nat, hashes: seq<string>): string {
    sha(DigestInput(previous, through, count, hashes))
  }

  /** Digests and event hashes are non-empty lowercase hexadecimal, as the tables require. */
  predicate Hex(s: string) {
    s != [] && forall i :: 0 <= i < |s| ==> '0' <= s[i] <= '9' || 'a' <= s[i] <= 'f'
  }

  predicate NoSeparator(s: string) {
    forall i :: 0 <= i < |s| ==> s[i] != US
  }

  lemma FirstOf(s: string, a: string)
    ensures s != [] ==> |s + a| > 0 && (s + a)[0] == s[0]
  {
  }

  /** A field without separators ends at the first separator, or at the end of the text. */
  lemma {:induction false} FieldEnds(s: string, a: string, t: string, b: string)
    requires NoSeparator(s) && NoSeparator(t) && s + a == t + b
    requires (a == [] || a[0] == US) && (b == [] || b[0] == US)
    ensures s == t && a == b
    decreases |s|
  {
    FirstOf(s, a);
    FirstOf(t, b);
    if s == [] || t == [] {
      assert [] + a == a && [] + b == b;
    } else {
      assert s[0] == (s + a)[0] == (t + b)[0] == t[0];
      assert s[1..] + a == (s + a)[1..] == (t + b)[1..] == t[1..] + b;
      FieldEnds(s[1..], a, t[1..], b);
      assert s == [s[0]] + s[1..] && t == [t[0]] + t[1..];
    }
  }

  lemma {:induction false} JoinInjective(xs: seq<string>, ys: seq<string>)
    requires forall i :: 0 <= i < |xs| ==> NoSeparator(xs[i])
    requires forall i :: 0 <= i < |ys| ==> NoSeparator(ys[i])
    requires JoinHashes(xs) == JoinHashes(ys)
    ensures xs == ys
    decreases |xs|
  {
    if xs != [] && ys != [] {
      assert JoinHashes(xs)[1..] == xs[0] + JoinHashes(xs[1..]);
      assert JoinHashes(ys)[1..] == ys[0] + JoinHashes(ys[1..]);
      FieldEnds(xs[0], JoinHashes(xs[1..]), ys[0], JoinHashes(ys[1..]));
      JoinInjective(xs[1..], ys[1..]);
      assert xs == [xs[0]] + xs[1..] && ys == [ys[0]] + ys[1..];
    }
  }

  lemma DecimalHasNoSeparator(n: nat)
    ensures NoSeparator(PrintDecimal(n))
  {
    ParseOfPrint(n);
    assert forall i :: 0 <= i < |PrintDecimal(n)| ==> IsDigit(PrintDecimal(n)[i]);
  }

  /** No two different checkpoint contents are hashed from the same text. */
  lemma DigestInputInjective(p: Option<string>, m: nat, c: nat, xs: seq<string>, q: Option<string>, n: nat, d: nat, ys: seq<string>)
    requires (p.Some? ==> Hex(p.value)) && (q.Some? ==> Hex(q.value))
    requires (forall i :: 0 <= i < |xs| ==> Hex(xs[i])) && forall i :: 0 <= i < |ys| ==> Hex(ys[i])
    requires DigestInput(p, m, c, xs) == DigestInput(q, n, d, ys)
    ensures p == q && m == n && c == d && xs == ys
  {
    hide PrintDecimal, JoinHashes;
    var fs := [if p.Some? then p.value else "", PrintDecimal(m), PrintDecimal(c)] + xs;
    var gs := [if q.Some? then q.value else "", PrintDecimal(n), PrintDecimal(d)] + ys;
    DecimalHasNoSeparator(m);
    DecimalHasNoSeparator(n);
    DecimalHasNoSeparator(c);
    DecimalHasNoSeparator(d);
    SameSuffix("rwa.audit-chain-checkpoint.v1", JoinHashes(fs), JoinHashes(gs));
    JoinInjective(fs, gs);
    assert fs[0] == gs[0] && fs[1] == gs[1] && fs[2] == gs[2] && xs == fs[3..] && ys == gs[3..];
    ParseOfPrint(m);
    ParseOfPrint(n);
    ParseOfPrint(c);
    ParseOfPrint(d);
  }

  lemma SameSuffix(prefix: string, a: string, b: string)
    requires prefix + a == prefix + b
    ensures a == b
  {
    assert (prefix + a)[|prefix|..] == a && (prefix + b)[|prefix|..] == b;
  }

  // ----- verification -----

  datatype Verification =
    | Valid(checkpoints: nat, eventCount: nat, latestDigest: Option<string>)
    | Invalid(reason: string, checkpointNumber: nat)

  function LastDigest(checkpoints: seq<Checkpoint>): Option<string> {
    if checkpoints == [] then None else Some(checkpoints[|checkpoints| - 1].digest)
  }

  function LastThrough(checkpoints: seq<Checkpoint>): nat {
    if checkpoints == [] then 0 else checkpoints[|checkpoints| - 1].through
  }

  function LastCount(checkpoints: seq<Checkpoint>): nat {
    if checkpoints == [] then 0 else checkpoints[|checkpoints| - 1].eventCount
  }

  /** The events a checkpoint covers: those after the previous boundary up to its own. */
  function Covered(rows: seq<Row>, tenant: string, checkpoints: seq<Checkpoint>, k: nat): seq<string>
    requires k < |checkpoints|
  {
    Hashes(Range(rows, tenant, LastThrough(checkpoints[..k]) + 1, Some(checkpoints[k].through)))
  }

  /** Checkpoint k continues the chain and reproduces from the stored events. */
  predicate Reproduces(sha: Sha, rows: seq<Row>, tenant: string, checkpoints: seq<Checkpoint>, k: nat)
    requires k < |checkpoints|
  {
    var row, covered := checkpoints[k], Covered(rows, tenant, checkpoints, k);
    && row.previousDigest == LastDigest(checkpoints[..k])
    && row.eventCount == LastCount(checkpoints[..k]) + |covered|
    && row.digest == DigestOf(sha, row.previousDigest, row.through, row.eventCount, covered)
  }

  predicate AllReproduce(sha: Sha, rows: seq<Row>, tenant: string, checkpoints: seq<Checkpoint>) {
    forall k :: 0 <= k < |checkpoints| ==> Reproduces(sha, rows, tenant, checkpoints, k)
  }

  /** What is first wrong with a checkpoint that does not reproduce: its link, its count, or else its digest. */
  function Fault(rows: seq<Row>, tenant: string, checkpoints: seq<Checkpoint>, k: nat): string
    requires k < |checkpoints|
  {
    if checkpoints[k].previousDigest != LastDigest(checkpoints[..k]) then "CHECKPOINT_CHAIN_BROKEN"
    else if checkpoints[k].eventCount != LastCount(checkpoints[..k]) + |Covered(rows, tenant, checkpoints, k)| then "EVENT_COUNT_MISMATCH"
    else "DIGEST_MISMATCH"
  }

  /** `verifyCheckpoints`: valid exactly when every checkpoint reproduces, else the first one that does not. */
  method VerifyCheckpoints(sha: Sha, rows: seq<Row>, tenant: string, checkpoints: seq<Checkpoint>) returns (v: Verification)
    requires Ordered(rows)
    ensures v.Valid? <==> AllReproduce(sha, rows, tenant, checkpoints)
    ensures v.Valid? ==> v == Valid(|checkpoints|, LastCount(checkpoints), LastDigest(checkpoints))
    ensures v.Invalid? ==>
      exists k :: 0 <= k < |checkpoints| && !Reproduces(sha, rows, tenant, checkpoints, k)
        && v.checkpointNumber == checkpoints[k].number && AllReproduce(sha, rows, tenant, checkpoints[..k])
        && v.reason == Fault(rows, tenant, checkpoints, k)
  {
    var previousDigest: Option<string> := None;
    var previousThrough, eventCount := 0, 0;
    for k := 0 to |checkpoints|
      invariant forall i :: 0 <= i < k ==> Reproduces(sha, rows, tenant, checkpoints, i)
      invariant previousDigest == LastDigest(checkpoints[..k])
      invariant previousThrough == LastThrough(checkpoints[..k]) && eventCount == LastCount(checkpoints[..k])
    {
      var row := checkpoints[k];
      var eventHashes, through := EventRange(rows, tenant, previousThrough + 1, Some(row.through));
      eventCount := eventCount + |eventHashes|;
      PrefixReproduces(sha, rows, tenant, checkpoints, k);
      if row.previousDigest != previousDigest {
        assert !Reproduces(sha, rows, tenant, checkpoints, k);
        return Invalid("CHECKPOINT_CHAIN_BROKEN", row.number);
      }
      if row.eventCount != eventCount {
        assert !Reproduces(sha, rows, tenant, checkpoints, k);
        return Invalid("EVENT_COUNT_MISMATCH", row.number);
      }
      if DigestOf(sha, previousDigest, row.through, eventCount, eventHashes) != row.digest {
        assert !Reproduces(sha, rows, tenant, checkpoints, k);
        return Invalid("DIGEST_MISMATCH", row.number);
      }
      previousDigest, previousThrough := Some(row.digest), row.through;
      assert checkpoints[..k + 1][k] == row;
    }
    assert checkpoints[..|checkpoints|] == checkpoints;
    return Valid(|checkpoints|, eventCount, previousDigest);
  }

  lemma PrefixReproduces(sha: Sha, rows: seq<Row>, tenant: string, checkpoints: seq<Checkpoint>, k: nat)
    requires k <= |checkpoints| && forall i :: 0 <= i < k ==> Reproduces(sha, rows, tenant, checkpoints, i)
    ensures AllReproduce(sha, rows, tenant, checkpoints[..k])
  {
    forall i | 0 <= i < k ensures Reproduces(sha, rows, tenant, checkpoints[..k], i) {
      assert checkpoints[..k][..i] == checkpoints[..i] && checkpoints[..k][i] == checkpoints[i];
      assert Reproduces(sha, rows, tenant, checkpoints, i);
    }
  }

  // ----- soundness -----

  /** Stored hashes are hexadecimal. */
  predicate HexRows(rows: seq<Row>) {
    forall i :: 0 <= i < |rows| ==> Hex(rows[i].hash)
  }

  predicate HexCheckpoints(checkpoints: seq<Checkpoint>) {
    forall i :: 0 <= i < |checkpoints| ==> Hex(checkpoints[i].digest)
  }

  lemma CoveredHex(rows: seq<Row>, tenant: string, checkpoints: seq<Checkpoint>, k: nat)
    requires Ordered(rows) && HexRows(rows) && k < |checkpoints|
    ensures forall i :: 0 <= i < |Covered(rows, tenant, checkpoints, k)| ==> Hex(Covered(rows, tenant, checkpoints, k)[i])
  {
    var from, until := LastThrough(checkpoints[..k]) + 1, Some(checkpoints[k].through);
    RangeMembers(rows, tenant, from, until);
    var r := Range(rows, tenant, from, until);
    forall i | 0 <= i < |r| ensures Hex(Hashes(r)[i]) {
      assert r[i] in rows;
    }
  }

  /** The text hashed for checkpoint k. */
  function InputAt(rows: seq<Row>, tenant: string, checkpoints: seq<Checkpoint>, k: nat): string
    requires k < |checkpoints|
  {
    DigestInput(checkpoints[k].previousDigest, checkpoints[k].through, checkpoints[k].eventCount, Covered(rows, tenant, checkpoints, k))
  }

  predicate Apart(sha: Sha, a: string, b: string) {
    sha(a) == sha(b) ==> a == b
  }

  /** No text hashed for one chain has the digest of a different text hashed for the other. */
  ghost predicate Separates(sha: Sha, tenant: string, rows: seq<Row>, checkpoints: seq<Checkpoint>, other: seq<Row>, others: seq<Checkpoint>) {
    forall i, j :: 0 <= i < |checkpoints| && 0 <= j < |others| ==>
      Apart(sha, InputAt(rows, tenant, checkpoints, i), InputAt(other, tenant, others, j))
  }

  /** A verifying checkpoint's text is hashed into its digest, and its fields are as the tables require. */
  lemma ReproducedInput(sha: Sha, rows: seq<Row>, tenant: string, checkpoints: seq<Checkpoint>, k: nat)
    requires Ordered(rows) && HexRows(rows) && HexCheckpoints(checkpoints) && AllReproduce(sha, rows, tenant, checkpoints) && k < |checkpoints|
    ensures checkpoints[k].digest == sha(InputAt(rows, tenant, checkpoints, k))
    ensures checkpoints[k].previousDigest == LastDigest(checkpoints[..k])
    ensures checkpoints[k].previousDigest.Some? ==> Hex(checkpoints[k].previousDigest.value)
    ensures forall i :: 0 <= i < |Covered(rows, tenant, checkpoints, k)| ==> Hex(Covered(rows, tenant, checkpoints, k)[i])
  {
    hide DigestInput, Hex;
    CoveredHex(rows, tenant, checkpoints, k);
    assert Reproduces(sha, rows, tenant, checkpoints, k);
    assert k > 0 ==> checkpoints[..k][k - 1] == checkpoints[k - 1];
  }

  /** Equal digests of two checkpoints mean equal fields, boundaries and covered event hashes. */
  lemma DigestBinds(sha: Sha, tenant: string,
      rows: seq<Row>, checkpoints: seq<Checkpoint>, i: nat, other: seq<Row>, others: seq<Checkpoint>, j: nat)
    requires Ordered(rows) && HexRows(rows) && Ordered(other) && HexRows(other)
    requires HexCheckpoints(checkpoints) && HexCheckpoints(others)
    requires AllReproduce(sha, rows, tenant, checkpoints) && AllReproduce(sha, other, tenant, others)
    requires Separates(sha, tenant, rows, checkpoints, other, others)
    requires i < |checkpoints| && j < |others| && checkpoints[i].digest == others[j].digest
    ensures checkpoints[i].through == others[j].through && checkpoints[i].eventCount == others[j].eventCount
    ensures Covered(rows, tenant, checkpoints, i) == Covered(other, tenant, others, j)
    ensures LastDigest(checkpoints[..i]) == LastDigest(others[..j])
  {
    ReproducedInput(sha, rows, tenant, checkpoints, i);
    ReproducedInput(sha, other, tenant, others, j);
    assert Apart(sha, InputAt(rows, tenant, checkpoints, i), InputAt(other, tenant, others, j));
    hide Covered, Hex, DigestInput, HexRows, HexCheckpoints, AllReproduce, Ordered, LastDigest;
    var c, d := checkpoints[i], others[j];
    DigestInputInjective(c.previousDigest, c.through, c.eventCount, Covered(rows, tenant, checkpoints, i),
      d.previousDigest, d.through, d.eventCount, Covered(other, tenant, others, j));
  }

  /** With the checkpoint rows unchanged, two event tables that both verify agree on every covered range. */
  lemma VerificationBindsRanges(sha: Sha, tenant: string, checkpoints: seq<Checkpoint>, rows: seq<Row>, other: seq<Row>, k: nat)
    requires Ordered(rows) && HexRows(rows) && Ordered(other) && HexRows(other) && HexCheckpoints(checkpoints)
    requires AllReproduce(sha, rows, tenant, checkpoints) && AllReproduce(sha, other, tenant, checkpoints)
    requires Separates(sha, tenant, rows, checkpoints, other, checkpoints)
    requires k < |checkpoints|
    ensures Covered(rows, tenant, checkpoints, k) == Covered(other, tenant, checkpoints, k)
  {
    hide Covered, Separates;
    DigestBinds(sha, tenant, rows, checkpoints, k, other, checkpoints, k);
  }

  /** Checkpoint k of both chains has the same boundary, count, digest and covered event hashes. */
  ghost predicate SameRange(tenant: string, rows: seq<Row>, checkpoints: seq<Checkpoint>, other: seq<Row>, others: seq<Checkpoint>, k: nat)
    requires k < |checkpoints| && k < |others|
  {
    && checkpoints[k].through == others[k].through && checkpoints[k].eventCount == others[k].eventCount
    && checkpoints[k].digest == others[k].digest
    && Covered(rows, tenant, checkpoints, k) == Covered(other, tenant, others, k)
  }

  /**
   A published digest binds everything below it: two verifying histories with the
   same latest digest have the same boundaries, counts and digests throughout, and
   the same event hashes in every range, even when earlier checkpoint rows differ.
   */
  lemma {:induction false} LatestDigestBindsHistory(sha: Sha, tenant: string,
      rows: seq<Row>, checkpoints: seq<Checkpoint>, other: seq<Row>, others: seq<Checkpoint>)
    requires Ordered(rows) && HexRows(rows) && Ordered(other) && HexRows(other)
    requires HexCheckpoints(checkpoints) && HexCheckpoints(others)
    requires AllReproduce(sha, rows, tenant, checkpoints) && AllReproduce(sha, other, tenant, others)
    requires LastDigest(checkpoints) == LastDigest(others)
    requires Separates(sha, tenant, rows, checkpoints, other, others)
    ensures |checkpoints| == |others| && forall k :: 0 <= k < |checkpoints| ==> SameRange(tenant, rows, checkpoints, other, others, k)
    decreases |checkpoints|
  {
    hide Range, Hashes, Hex, Reproduces, Ordered, Separates;
    if checkpoints != [] {
      var n, m := |checkpoints| - 1, |others| - 1;
      DigestBinds(sha, tenant, rows, checkpoints, n, other, others, m);
      PrefixReproduces(sha, rows, tenant, checkpoints, n);
      PrefixReproduces(sha, other, tenant, others, m);
      PrefixSeparates(sha, tenant, rows, checkpoints, other, others);
      LatestDigestBindsHistory(sha, tenant, rows, checkpoints[..n], other, others[..m]);
      forall k | 0 <= k < n ensures SameRange(tenant, rows, checkpoints, other, others, k) {
        assert SameRange(tenant, rows, checkpoints[..n], other, others[..m], k);
        assert checkpoints[..n][..k] == checkpoints[..k] && others[..m][..k] == others[..k];
      }
    }
  }

  lemma PrefixInput(rows: seq<Row>, tenant: string, checkpoints: seq<Checkpoint>, n: nat, k: nat)
    requires k < n <= |checkpoints|
    ensures InputAt(rows, tenant, checkpoints[..n], k) == InputAt(rows, tenant, checkpoints, k)
  {
    assert checkpoints[..n][..k] == checkpoints[..k] && checkpoints[..n][k] == checkpoints[k];
  }

  lemma PrefixSeparates(sha: Sha, tenant: string, rows: seq<Row>, checkpoints: seq<Checkpoint>, other: seq<Row>, others: seq<Checkpoint>)
    requires checkpoints != [] && others != [] && Separates(sha, tenant, rows, checkpoints, other, others)
    ensures Separates(sha, tenant, rows, checkpoints[..|checkpoints| - 1], other, others[..|others| - 1])
  {
    hide InputAt, Apart;
    var n, m := |checkpoints| - 1, |others| - 1;
    forall i, j | 0 <= i < n && 0 <= j < m
      ensures Apart(sha, InputAt(rows, tenant, checkpoints[..n], i), InputAt(other, tenant, others[..m], j))
    {
      PrefixInput(rows, tenant, checkpoints, n, i);
      PrefixInput(other, tenant, others, m, j);
      assert Apart(sha, InputAt(rows, tenant, checkpoints, i), InputAt(other, tenant, others, j));
    }
  }

  // ----- completeness over histories -----

  datatype Store = Store(rows: seq<Row>, checkpoints: seq<Checkpoint>)

  /** `createCheckpoint`: folds every event above the last boundary, or reports that there is none. */
  method CreateCheckpoint(sha: Sha, store: Store, tenant: string) returns (r: Result<Store>)
    requires Ordered(store.rows)
    ensures r == Checkpointed(sha, store, tenant)
  {
    var from := LastThrough(store.checkpoints);
    var eventHashes, through := EventRange(store.rows, tenant, from + 1, None);
    if |eventHashes| == 0 {
      return Err("NO_NEW_AUDIT_EVENTS");
    }
    var eventCount := LastCount(store.checkpoints) + |eventHashes|;
    var previous := LastDigest(store.checkpoints);
    var number := if |store.checkpoints| == 0 then 1 else store.checkpoints[|store.checkpoints| - 1].number + 1;
    return Ok(store.(checkpoints := store.checkpoints
      + [Checkpoint(number, through, eventCount, previous, DigestOf(sha, previous, through, eventCount, eventHashes))]));
  }

  function Checkpointed(sha: Sha, store: Store, tenant: string): Result<Store> {
    var recent := Range(store.rows, tenant, LastThrough(store.checkpoints) + 1, None);
    if recent == [] then Err("NO_NEW_AUDIT_EVENTS")
    else
      var through := recent[|recent| - 1].sequence;
      var count := LastCount(store.checkpoints) + |recent|;
      var previous := LastDigest(store.checkpoints);
      var number := if store.checkpoints == [] then 1 else store.checkpoints[|store.checkpoints| - 1].number + 1;
      Ok(store.(checkpoints := store.checkpoints
        + [Checkpoint(number, through, count, previous, DigestOf(sha, previous, through, count, Hashes(recent)))]))
  }

  /** One step of a store's life: an event of any tenant with a new highest sequence, or a checkpoint attempt. */
  datatype Action = Append(row: Row) | TakeCheckpoint

  ghost predicate Allowed(store: Store, action: Action) {
    action.Append? ==> forall i :: 0 <= i < |store.rows| ==> store.rows[i].sequence < action.row.sequence
  }

  function Act(sha: Sha, tenant: string, store: Store, action: Action): Store {
    match action
    case Append(row) => store.(rows := store.rows + [row])
    case TakeCheckpoint =>
      match Checkpointed(sha, store, tenant)
      case Ok(next) => next
      case Err(_) => store
  }

  /** The store after a sequence of actions, starting empty. */
  function History(sha: Sha, tenant: string, actions: seq<Action>): Store {
    if actions == [] then Store([], [])
    else Act(sha, tenant, History(sha, tenant, actions[..|actions| - 1]), actions[|actions| - 1])
  }

  ghost predicate LegalHistory(sha: Sha, tenant: string, actions: seq<Action>) {
    forall i :: 0 <= i < |actions| ==> Allowed(History(sha, tenant, actions[..i]), actions[i])
  }

  ghost predicate Good(sha: Sha, tenant: string, store: Store) {
    && Ordered(store.rows)
    && AllReproduce(sha, store.rows, tenant, store.checkpoints)
    && forall k :: 0 <= k < |store.checkpoints| ==>
      store.checkpoints[k].through <= LastThrough(store.checkpoints)
      && (store.rows != [] && store.checkpoints[k].through <= store.rows[|store.rows| - 1].sequence)
  }

  /** A later event is outside every range that ends below it. */
  lemma {:induction false} RangeIgnoresLater(rows: seq<Row>, row: Row, tenant: string, from: nat, until: nat)
    requires row.sequence > until
    ensures Range(rows + [row], tenant, from, Some(until)) == Range(rows, tenant, from, Some(until))
  {
    if rows == [] {
      assert rows + [row] == [row] && [row][1..] == [];
    } else {
      assert (rows + [row])[1..] == rows[1..] + [row];
      RangeIgnoresLater(rows[1..], row, tenant, from, until);
    }
  }

  /** An open-ended scan is the scan up to the last sequence it saw. */
  lemma {:induction false} RangeUpToLast(rows: seq<Row>, tenant: string, from: nat, until: nat)
    requires forall x :: x in Range(rows, tenant, from, None) ==> x.sequence <= until
    ensures Range(rows, tenant, from, Some(until)) == Range(rows, tenant, from, None)
  {
    if rows != [] {
      RangeUpToLast(rows[1..], tenant, from, until);
    }
  }

  lemma AppendKeepsGood(sha: Sha, tenant: string, store: Store, row: Row)
    requires Good(sha, tenant, store) && Allowed(store, Append(row))
    ensures Good(sha, tenant, Act(sha, tenant, store, Append(row)))
  {
    hide DigestOf;
    var cs := store.checkpoints;
    forall k | 0 <= k < |cs| ensures Reproduces(sha, store.rows + [row], tenant, cs, k) {
      assert Reproduces(sha, store.rows, tenant, cs, k);
      RangeIgnoresLater(store.rows, row, tenant, LastThrough(cs[..k]) + 1, cs[k].through);
    }
  }

  lemma CheckpointKeepsGood(sha: Sha, tenant: string, store: Store)
    requires Good(sha, tenant, store)
    ensures Good(sha, tenant, Act(sha, tenant, store, TakeCheckpoint))
  {
    hide DigestOf;
    var cs, next := store.checkpoints, Act(sha, tenant, store, TakeCheckpoint).checkpoints;
    var from := LastThrough(cs) + 1;
    var recent := Range(store.rows, tenant, from, None);
    if recent != [] {
      var n, last := |cs|, recent[|recent| - 1];
      RangeMembers(store.rows, tenant, from, None);
      assert last in recent && last in store.rows;
      RangeUpToLast(store.rows, tenant, from, last.sequence);
      assert next[..n] == cs && next[n].through == last.sequence;
      GoodExtends(sha, tenant, store, next[n]);
    }
  }

  lemma GoodExtends(sha: Sha, tenant: string, store: Store, c: Checkpoint)
    requires Good(sha, tenant, store)
    requires store.rows != [] && c.through <= store.rows[|store.rows| - 1].sequence && LastThrough(store.checkpoints) <= c.through
    requires Reproduces(sha, store.rows, tenant, store.checkpoints + [c], |store.checkpoints|)
    ensures Good(sha, tenant, store.(checkpoints := store.checkpoints + [c]))
  {
    hide DigestOf, Range, Hashes, Ordered;
    var cs := store.checkpoints;
    var next := cs + [c];
    forall k | 0 <= k < |cs| ensures Reproduces(sha, store.rows, tenant, next, k) {
      assert Reproduces(sha, store.rows, tenant, cs, k);
      assert next[..k] == cs[..k] && next[k] == cs[k];
    }
  }

  /** Every history of appends and checkpoints verifies. */
  lemma {:induction false} EveryHistoryVerifies(sha: Sha, tenant: string, actions: seq<Action>)
    requires LegalHistory(sha, tenant, actions)
    ensures var store := History(sha, tenant, actions);
      Ordered(store.rows) && AllReproduce(sha, store.rows, tenant, store.checkpoints) && Good(sha, tenant, store)
    decreases |actions|
  {
    if actions != [] {
      var front, last := actions[..|actions| - 1], actions[|actions| - 1];
      forall i | 0 <= i < |front| ensures Allowed(History(sha, tenant, front[..i]), front[i]) {
        assert front[..i] == actions[..i] && front[i] == actions[i];
      }
      EveryHistoryVerifies(sha, tenant, front);
      assert Allowed(History(sha, tenant, front), last);
      match last {
        case Append(row) => AppendKeepsGood(sha, tenant, History(sha, tenant, front), row);
        case TakeCheckpoint => CheckpointKeepsGood(sha, tenant, History(sha, tenant, front));
      }
    }
  }
}
