/**
 * `sum_time` and `group_by_key`, which `report_creator.rs` and
 * `log_analyzer.rs` share word for word, and the fact that summing the
 * groups gives the sum over all entries.
 */
module Grouping {
  import opened Seqs
  import opened Chrono
  import opened TimeLog

  /** `sum_time`: the durations of the entries added up, starting from zero. */
  function SumTime(entries: seq<LogEntry>): Duration
    decreases |entries|
  {
    if entries == [] then 0 else ToDuration(entries[0]) + SumTime(entries[1..])
  }

  lemma {:induction false} SumTimeAppend(a: seq<LogEntry>, b: seq<LogEntry>)
    ensures SumTime(a + b) == SumTime(a) + SumTime(b)
    decreases |a|
  {
    if a == [] {
      assert a + b == b;
    } else {
      assert (a + b)[1..] == a[1..] + b;
      SumTimeAppend(a[1..], b);
    }
  }

  /** With a clock that never ran backwards every group sums to a non-negative duration. */
  lemma {:induction false} SumTimeNonNegative(entries: seq<LogEntry>)
    requires forall i :: 0 <= i < |entries| ==> entries[i].start <= entries[i].end
    ensures SumTime(entries) >= 0
    decreases |entries|
  {
    if entries != [] {
      SumTimeNonNegative(entries[1..]);
    }
  }

  function HasKey(key: string): LogEntry -> bool {
    (e: LogEntry) => e.key == key
  }

  /** The group of `key`: its entries in their original order. */
  function WithKey(entries: seq<LogEntry>, key: string): seq<LogEntry> {
    Filter(HasKey(key), entries)
  }

  /** The keys that occur in the entries. */
  function KeysOf(entries: seq<LogEntry>): set<string> {
    set e | e in entries :: e.key
  }

  /**
   * `group_by_key`: one group per key that occurs, holding that key's
   * entries in their original relative order.
   */
  method GroupByKey(entries: seq<LogEntry>) returns (groups: map<string, seq<LogEntry>>)
    ensures groups.Keys == KeysOf(entries)
    ensures forall k :: k in groups ==> groups[k] == WithKey(entries, k)
  {
    groups := map[];
    for i := 0 to |entries|
      invariant groups.Keys == KeysOf(entries[..i])
      invariant forall k :: k in groups ==> groups[k] == WithKey(entries[..i], k)
    {
      AddEntryGroups(entries[..i], groups, entries[i]);
      groups := AddEntry(groups, entries[i]);
      assert entries[..i + 1] == entries[..i] + [entries[i]];
    }
    assert entries[..|entries|] == entries;
  }

  /** The loop step of `group_by_key`: push the entry onto its key's group, starting the group if new. */
  function AddEntry(groups: map<string, seq<LogEntry>>, e: LogEntry): map<string, seq<LogEntry>> {
    groups[e.key := (if e.key in groups then groups[e.key] else []) + [e]]
  }

  /** One step keeps the groups those of the entries seen so far. */
  lemma AddEntryGroups(seen: seq<LogEntry>, groups: map<string, seq<LogEntry>>, e: LogEntry)
    requires groups.Keys == KeysOf(seen)
    requires forall k :: k in groups ==> groups[k] == WithKey(seen, k)
    ensures AddEntry(groups, e).Keys == KeysOf(seen + [e])
    ensures forall k :: k in AddEntry(groups, e) ==> AddEntry(groups, e)[k] == WithKey(seen + [e], k)
  {
    var g := AddEntry(groups, e);
    AbsentKeyEmptyGroup(seen, e.key);
    KeysOfSnoc(seen, e);
    forall k | k in g ensures g[k] == WithKey(seen + [e], k) {
      WithKeySnoc(seen, e, k);
    }
  }

  lemma WithKeySnoc(entries: seq<LogEntry>, e: LogEntry, key: string)
    ensures WithKey(entries + [e], key) == WithKey(entries, key) + (if e.key == key then [e] else [])
  {
    FilterAppend(HasKey(key), entries, [e]);
    assert [e][1..] == [];
  }

  lemma KeysOfSnoc(entries: seq<LogEntry>, e: LogEntry)
    ensures KeysOf(entries + [e]) == KeysOf(entries) + {e.key}
  {
    assert forall x :: x in entries + [e] <==> x in entries || x == e;
  }

  lemma AbsentKeyEmptyGroup(entries: seq<LogEntry>, key: string)
    ensures key !in KeysOf(entries) ==> WithKey(entries, key) == []
  {
    var g := WithKey(entries, key);
    if g != [] {
      FilterMembership(HasKey(key), entries, g[0]);
    }
  }

  /**
   * Every entry lies in exactly one group, the group of its own key, and
   * each group is a subsequence of the entries.
   */
  lemma GroupsPartition(entries: seq<LogEntry>, e: LogEntry, key: string)
    requires e in entries
    ensures e in WithKey(entries, key) <==> e.key == key
    ensures IsSubsequence(WithKey(entries, key), entries)
  {
    FilterMembership(HasKey(key), entries, e);
    FilterIsSubsequence(HasKey(key), entries);
  }

  /** The total of the groups of the keys `keys`, in that order. */
  function SumGroups(entries: seq<LogEntry>, keys: seq<string>): Duration
    decreases |keys|
  {
    if keys == [] then 0 else SumTime(WithKey(entries, keys[0])) + SumGroups(entries, keys[1..])
  }

  predicate DistinctKeys(keys: seq<string>) {
    forall i, j :: 0 <= i < j < |keys| ==> keys[i] != keys[j]
  }

  /** What one entry adds to `SumGroups`: its duration once per listed key equal to its own. */
  function Hits(keys: seq<string>, key: string, d: Duration): Duration
    decreases |keys|
  {
    if keys == [] then 0 else (if keys[0] == key then d else 0) + Hits(keys[1..], key, d)
  }

  lemma {:induction false} HitsCount(keys: seq<string>, key: string, d: Duration)
    requires DistinctKeys(keys)
    ensures Hits(keys, key, d) == if key in keys then d else 0
    decreases |keys|
  {
    if keys != [] {
      HitsCount(keys[1..], key, d);
      assert key in keys <==> keys[0] == key || key in keys[1..];
      if keys[0] == key {
        assert key !in keys[1..];
      }
    }
  }

  lemma {:induction false} SumGroupsCons(e: LogEntry, rest: seq<LogEntry>, keys: seq<string>)
    ensures SumGroups([e] + rest, keys) == SumGroups(rest, keys) + Hits(keys, e.key, ToDuration(e))
    decreases |keys|
  {
    if keys != [] {
      var k := keys[0];
      assert ([e] + rest)[0] == e && ([e] + rest)[1..] == rest;
      assert WithKey([e] + rest, k) == (if e.key == k then [e] else []) + WithKey(rest, k);
      SumTimeAppend(if e.key == k then [e] else [], WithKey(rest, k));
      SumGroupsCons(e, rest, keys[1..]);
    }
  }

  lemma {:induction false} SumGroupsEmpty(keys: seq<string>)
    ensures SumGroups([], keys) == 0
    decreases |keys|
  {
    if keys != [] {
      SumGroupsEmpty(keys[1..]);
    }
  }

  /**
   * Summing the groups of a list of distinct keys that covers every key
   * gives the sum over all entries.
   */
  lemma {:induction false} SumOverKeys(entries: seq<LogEntry>, keys: seq<string>)
    requires DistinctKeys(keys)
    requires forall k :: k in KeysOf(entries) ==> k in keys
    ensures SumGroups(entries, keys) == SumTime(entries)
    decreases |entries|
  {
    if entries == [] {
      SumGroupsEmpty(keys);
    } else {
      var e, rest := entries[0], entries[1..];
      assert entries == [e] + rest;
      assert e.key in KeysOf(entries);
      forall k | k in KeysOf(rest) ensures k in keys {
        var x :| x in rest && x.key == k;
        assert x in entries;
      }
      SumOverKeys(rest, keys);
      SumGroupsCons(e, rest, keys);
      HitsCount(keys, e.key, ToDuration(e));
    }
  }
}
