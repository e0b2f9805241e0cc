/** That checkpoints leave no audit event out: what each attempt covers, and what a history's chain covers. */
module AuditCoverage {
  import opened Common
  import opened AuditCheckpoint

  /** How many of the tenant's events have a sequence above `low` and at most `high`. */
  function Events(rows: seq<Row>, tenant: string, low: nat, high: nat): nat {
    if rows == [] then 0
    else Events(rows[1..], tenant, low, high) + if rows[0].tenant == tenant && low < rows[0].sequence <= high then 1 else 0
  }

  lemma {:induction false} RangeCounts(rows: seq<Row>, tenant: string, low: nat, high: nat)
    ensures |Range(rows, tenant, low + 1, Some(high))| == Events(rows, tenant, low, high)
  {
    if rows != [] {
      RangeCounts(rows[1..], tenant, low, high);
    }
  }

  lemma {:induction false} EventsSplit(rows: seq<Row>, tenant: string, low: nat, mid: nat, high: nat)
    requires low <= mid <= high
    ensures Events(rows, tenant, low, high) == Events(rows, tenant, low, mid) + Events(rows, tenant, mid, high)
  {
    if rows != [] {
      EventsSplit(rows[1..], tenant, low, mid, high);
    }
  }

  /**
   An attempt fails exactly when the tenant has no event above the last boundary.
   Otherwise the new checkpoint is the next in number, linked to the last, reaches the
   tenant's very last event, and counts every event since.
   */
  lemma CheckpointOutcome(sha: Sha, store: Store, tenant: string)
    requires Ordered(store.rows)
    ensures var r := Checkpointed(sha, store, tenant); var low := LastThrough(store.checkpoints);
      if forall i :: 0 <= i < |store.rows| ==> !(store.rows[i].tenant == tenant && low < store.rows[i].sequence) then
        r == Err("NO_NEW_AUDIT_EVENTS")
      else
        && r.Ok? && r.value.rows == store.rows && |r.value.checkpoints| == |store.checkpoints| + 1
        && r.value.checkpoints[..|store.checkpoints|] == store.checkpoints
        && var c := r.value.checkpoints[|store.checkpoints|];
          && c.number == (if store.checkpoints == [] then 1 else store.checkpoints[|store.checkpoints| - 1].number + 1)
          && c.previousDigest == (if store.checkpoints == [] then None else Some(store.checkpoints[|store.checkpoints| - 1].digest))
          && low < c.through && (exists i :: 0 <= i < |store.rows| && store.rows[i].tenant == tenant && store.rows[i].sequence == c.through)
          && (forall i :: 0 <= i < |store.rows| && store.rows[i].tenant == tenant ==> store.rows[i].sequence <= c.through)
          && c.eventCount == LastCount(store.checkpoints) + Events(store.rows, tenant, low, c.through)
  {
    hide DigestOf;
    var low := LastThrough(store.checkpoints);
    var recent := Range(store.rows, tenant, low + 1, None);
    RangeMembers(store.rows, tenant, low + 1, None);
    if recent != [] {
      var last := recent[|recent| - 1];
      assert last in recent && last in store.rows && Selected(last, tenant, low + 1, None);
      RangeUpToLast(store.rows, tenant, low + 1, last.sequence);
      RangeCounts(store.rows, tenant, low, last.sequence);
      forall i | 0 <= i < |store.rows| && store.rows[i].tenant == tenant ensures store.rows[i].sequence <= last.sequence {
        if low < store.rows[i].sequence {
          assert Selected(store.rows[i], tenant, low + 1, None) && store.rows[i] in recent;
        }
      }
      assert Checkpointed(sha, store, tenant).value.checkpoints[..|store.checkpoints|] == store.checkpoints;
    } else {
      forall i | 0 <= i < |store.rows| ensures !(store.rows[i].tenant == tenant && low < store.rows[i].sequence) {
        assert store.rows[i] in store.rows && !Selected(store.rows[i], tenant, low + 1, None);
      }
    }
    hide Range;
  }

  /** Numbered from one, rising, and counting every event of the tenant up to the last boundary, none of them ahead of it. */
  ghost predicate Complete(tenant: string, store: Store) {
    && (forall k :: 0 <= k < |store.checkpoints| ==> store.checkpoints[k].number == k + 1)
    && (forall k :: 0 < k < |store.checkpoints| ==> store.checkpoints[k - 1].through < store.checkpoints[k].through)
    && LastCount(store.checkpoints) == Events(store.rows, tenant, 0, LastThrough(store.checkpoints))
  }

  lemma {:induction false} LaterEvent(rows: seq<Row>, row: Row, tenant: string, high: nat)
    requires high < row.sequence
    ensures Events(rows + [row], tenant, 0, high) == Events(rows, tenant, 0, high)
  {
    if rows == [] {
      assert rows + [row] == [row] && [row][1..] == [];
    } else {
      assert (rows + [row])[1..] == rows[1..] + [row];
      LaterEvent(rows[1..], row, tenant, high);
    }
  }

  lemma AppendComplete(sha: Sha, tenant: string, store: Store, row: Row)
    requires Good(sha, tenant, store) && Complete(tenant, store) && Allowed(store, Append(row))
    ensures Complete(tenant, Act(sha, tenant, store, Append(row)))
  {
    hide Reproduces, Ordered;
    if store.checkpoints != [] {
      LaterEvent(store.rows, row, tenant, LastThrough(store.checkpoints));
    } else {
      NoEvents(store.rows, tenant);
      NoEvents(store.rows + [row], tenant);
    }
  }

  lemma {:induction false} NoEvents(rows: seq<Row>, tenant: string)
    ensures Events(rows, tenant, 0, 0) == 0
  {
    if rows != [] {
      NoEvents(rows[1..], tenant);
    }
  }

  lemma CheckpointComplete(sha: Sha, tenant: string, store: Store)
    requires Ordered(store.rows) && Complete(tenant, store)
    ensures Complete(tenant, Act(sha, tenant, store, TakeCheckpoint))
  {
    CheckpointOutcome(sha, store, tenant);
    hide Checkpointed;
    if Checkpointed(sha, store, tenant).Ok? {
      var next := Checkpointed(sha, store, tenant).value;
      var n := |store.checkpoints|;
      forall k | 0 <= k < n ensures next.checkpoints[k] == store.checkpoints[k] {
        assert next.checkpoints[k] == next.checkpoints[..n][k];
      }
      EventsSplit(store.rows, tenant, 0, LastThrough(store.checkpoints), next.checkpoints[n].through);
    }
  }

  /** In every history the chain is numbered from one and its count is exactly the number of the tenant's events up to its boundary. */
  lemma {:induction false} EveryEventIsCovered(sha: Sha, tenant: string, actions: seq<Action>)
    requires LegalHistory(sha, tenant, actions)
    ensures Complete(tenant, History(sha, tenant, actions))
    decreases |actions|
  {
    if actions == [] {
      assert Events([], tenant, 0, 0) == 0;
    } else {
      var front, last := actions[..|actions| - 1], actions[|actions| - 1];
      forall i | 0 <= i < |front| ensures Allowed(History(sha, tenant, front[..i]), front[i]) {
        assert front[..i] == actions[..i] && front[i] == actions[i];
      }
      EveryEventIsCovered(sha, tenant, front);
      EveryHistoryVerifies(sha, tenant, front);
      assert Allowed(History(sha, tenant, front), last);
      hide Complete, Good, Act;
      match last {
        case Append(row) => AppendComplete(sha, tenant, History(sha, tenant, front), row);
        case TakeCheckpoint =>
          GoodOrdered(sha, tenant, History(sha, tenant, front));
          CheckpointComplete(sha, tenant, History(sha, tenant, front));
      }
    }
  }

  lemma GoodOrdered(sha: Sha, tenant: string, store: Store)
    requires Good(sha, tenant, store)
    ensures Ordered(store.rows)
  {
  }
}
