/**
 Shared memory: a last-writer-wins register per key, ordered by the team's Lamport clock, with
 an optional compare-and-set.  The current rows and the clock are caches; the history table
 is the record they must agree with.
 */
module Memory {
  import opened Common

  datatype Slot = Slot(team: string, key: string)

  /** A row of memory_current. */
  datatype Current = Current(value: string, lclock: nat, writer: string, version: nat)

  /** A row of memory_history. */
  datatype Entry = Entry(slot: Slot, value: string, lclock: nat, writer: string, version: nat)

  datatype Registers = Registers(current: map<Slot, Current>, clocks: map<string, nat>, history: seq<Entry>)

  datatype Reply =
    | Written(version: nat, lclock: nat)
    | Conflict(current: Option<Current>, version: nat)

  /** One set_memory call; `expected` is its compare-and-set version, if any. */
  datatype Write = Write(slot: Slot, value: string, writer: string, expected: Option<int>)

  const EMPTY := Registers(map[], map[], [])

  function VersionOf(r: Registers, slot: Slot): nat {
    if slot in r.current then r.current[slot].version else 0
  }

  function ClockOf(r: Registers, team: string): nat {
    if team in r.clocks then r.clocks[team] else 0
  }

  predicate Accepted(r: Registers, w: Write) {
    w.expected.Some? ==> w.expected.value == VersionOf(r, w.slot)
  }

  function Set(r: Registers, w: Write): Registers {
    if !Accepted(r, w) then r
    else
      var lclock, version := ClockOf(r, w.slot.team) + 1, VersionOf(r, w.slot) + 1;
      Registers(r.current[w.slot := Current(w.value, lclock, w.writer, version)],
                r.clocks[w.slot.team := lclock],
                r.history + [Entry(w.slot, w.value, lclock, w.writer, version)])
  }

  /** The version a writer sees: the row's, or zero without one. */
  ghost predicate Sees(current: map<Slot, Current>, slot: Slot, version: int) {
    (slot in current ==> current[slot].version == version) && (slot !in current ==> version == 0)
  }

  /** A write lands: it adds its own entry to the history. */
  ghost predicate Lands(r: Registers, w: Write) {
    var after := Set(r, w).history;
    && |after| == |r.history| + 1 && Init(after) == r.history
    && Last(after).slot == w.slot && Last(after).value == w.value && Last(after).writer == w.writer
  }

  /**
   A write lands exactly if it expects no version or the one it sees.  Then its entry carries the next version
   and the team's next clock and is the current row; otherwise nothing changes at all.
   */
  lemma SetMeans(r: Registers, w: Write)
    ensures
      var after := Set(r, w);
      var fits := w.expected.None? || Sees(r.current, w.slot, w.expected.value);
      && (Lands(r, w) <==> fits)
      && (!fits ==> after == r)
      && (fits ==>
            && w.slot in after.current && w.slot.team in after.clocks
            && (var c := after.current[w.slot];
                && Last(after.history) == Entry(w.slot, w.value, c.lclock, w.writer, c.version)
                && c.value == w.value && c.writer == w.writer
                && Sees(r.current, w.slot, c.version - 1)
                && after.clocks[w.slot.team] == c.lclock
                && c.lclock == (if w.slot.team in r.clocks then r.clocks[w.slot.team] else 0) + 1)
            && (forall s | s != w.slot :: s in after.current <==> s in r.current)
            && (forall s | s in r.current && s != w.slot :: after.current[s] == r.current[s])
            && (forall team | team != w.slot.team :: team in after.clocks <==> team in r.clocks)
            && (forall team | team in r.clocks && team != w.slot.team :: after.clocks[team] == r.clocks[team]))
  {
    if Accepted(r, w) {
      assert Init(Set(r, w).history) == r.history;
    }
  }

  ghost function Run(writes: seq<Write>): Registers {
    if writes == [] then EMPTY else Set(Run(Init(writes)), Last(writes))
  }

  // --------------------------------------------------- readings of the record

  ghost function RowsOfTeam(history: seq<Entry>, team: string): nat {
    if history == [] then 0
    else RowsOfTeam(Init(history), team) + (if Last(history).slot.team == team then 1 else 0)
  }

  ghost function RowsOfSlot(history: seq<Entry>, slot: Slot): nat {
    if history == [] then 0
    else RowsOfSlot(Init(history), slot) + (if Last(history).slot == slot then 1 else 0)
  }

  // The writes of a run to a slot that landed; `cas` narrows them to those that expected that version.
  ghost function LandedWrites(writes: seq<Write>, slot: Slot, cas: Option<int>): nat {
    if writes == [] then 0
    else
      var w := Last(writes);
      LandedWrites(Init(writes), slot, cas) +
      (if w.slot == slot && Lands(Run(Init(writes)), w) && (cas.Some? ==> w.expected == cas) then 1 else 0)
  }

  ghost function RowOf(slot: Slot, c: Current): Entry {
    Entry(slot, c.value, c.lclock, c.writer, c.version)
  }

  /** The current row of a slot is one of its history rows, and every other one has a smaller clock. */
  ghost predicate Newest(r: Registers, slot: Slot)
    requires slot in r.current
  {
    && RowOf(slot, r.current[slot]) in r.history
    && (forall i | 0 <= i < |r.history| && r.history[i].slot == slot ::
          r.history[i] == RowOf(slot, r.current[slot]) || r.history[i].lclock < r.current[slot].lclock)
  }

  /** The last write of a run to a slot that landed. */
  ghost function LastLanded(writes: seq<Write>, slot: Slot): Option<Write> {
    if writes == [] then None
    else
      var w := Last(writes);
      if w.slot == slot && Lands(Run(Init(writes)), w) then Some(w) else LastLanded(Init(writes), slot)
  }

  // The counters agree with the history.
  ghost predicate Counted(r: Registers) {
    && (forall team :: ClockOf(r, team) == RowsOfTeam(r.history, team))
    && (forall slot :: VersionOf(r, slot) == RowsOfSlot(r.history, slot))
  }

  // Within a team the clock grows along the history, up to its present value.
  ghost predicate Ticking(r: Registers) {
    && (forall i | 0 <= i < |r.history| :: 1 <= r.history[i].lclock <= ClockOf(r, r.history[i].slot.team))
    && (forall i, j | 0 <= i < j < |r.history| && r.history[i].slot.team == r.history[j].slot.team ::
          r.history[i].lclock < r.history[j].lclock)
  }

  lemma SetCounts(r: Registers, w: Write)
    requires Counted(r)
    ensures Counted(Set(r, w))
  {
    if Accepted(r, w) {
      assert Init(Set(r, w).history) == r.history;
    }
  }

  lemma SetTicks(r: Registers, w: Write)
    requires Ticking(r)
    ensures Ticking(Set(r, w))
  {
  }

  lemma SetKeepsNewest(r: Registers, w: Write, slot: Slot)
    requires Ticking(r) && slot in Set(r, w).current
    requires slot in r.current ==> Newest(r, slot)
    ensures Newest(Set(r, w), slot)
  {
    var after := Set(r, w);
    if Accepted(r, w) {
      assert after.history[|r.history|] == Last(after.history);
      if slot != w.slot {
        assert forall e | e in r.history :: e in after.history;
      }
    }
  }

  /** The caches agree with the record after any writes: clock, versions, and the current rows. */
  lemma {:induction false} CachesAgree(writes: seq<Write>)
    ensures
      var r := Run(writes);
      && Counted(r) && Ticking(r)
      && (forall slot | slot in r.current :: Newest(r, slot))
  {
    if writes != [] {
      CachesAgree(Init(writes));
      var r, w := Run(Init(writes)), Last(writes);
      SetCounts(r, w);
      SetTicks(r, w);
      forall slot | slot in Set(r, w).current ensures Newest(Set(r, w), slot) {
        SetKeepsNewest(r, w, slot);
      }
    }
  }

  /** The register is last-writer-wins: it holds the last write that landed, and its version counts those that did. */
  lemma {:induction false} LastWriterWins(writes: seq<Write>, slot: Slot)
    ensures
      var r, last := Run(writes), LastLanded(writes, slot);
      && VersionOf(r, slot) == LandedWrites(writes, slot, None)
      && (slot in r.current <==> last.Some?)
      && (last.Some? ==> r.current[slot].value == last.value.value && r.current[slot].writer == last.value.writer)
  {
    if writes != [] {
      LastWriterWins(Init(writes), slot);
      SetMeans(Run(Init(writes)), Last(writes));
    }
  }

  /** Over a whole run at most one compare-and-set per slot succeeds for any given version, and it closes that version for ever. */
  lemma {:induction false} OneWinnerPerVersion(writes: seq<Write>, slot: Slot, version: int)
    ensures LandedWrites(writes, slot, Some(version)) <= 1
    ensures LandedWrites(writes, slot, Some(version)) == 1 ==> VersionOf(Run(writes), slot) > version
  {
    if writes != [] {
      OneWinnerPerVersion(Init(writes), slot, version);
      SetMeans(Run(Init(writes)), Last(writes));
    }
  }

  // ---------------------------------------------------------------- the store

  class MemoryStore {
    var current: map<Slot, Current>
    var clocks: map<string, nat>
    var history: seq<Entry>

    constructor ()
      ensures View() == EMPTY
    {
      current, clocks, history := map[], map[], [];
    }

    ghost function View(): Registers
      reads this
    {
      Registers(current, clocks, history)
    }

    /** The team's Lamport clock, inserted at one or incremented. */
    method BumpClock(team: string) returns (lclock: nat)
      modifies this`clocks
      ensures lclock == ClockOf(old(View()), team) + 1 && clocks == old(clocks)[team := lclock]
    {
      if team in clocks {
        clocks := clocks[team := clocks[team] + 1];
      } else {
        clocks := clocks[team := 1];
      }
      lclock := clocks[team];
    }

    method SetMemory(w: Write) returns (reply: Reply)
      modifies this
      ensures View() == Set(old(View()), w)
      ensures if w.expected.None? || Sees(old(current), w.slot, w.expected.value)
              then w.slot in current && reply == Written(current[w.slot].version, current[w.slot].lclock) && Lands(old(View()), w)
              else
                && reply.Conflict? && Sees(old(current), w.slot, reply.version) && View() == old(View())
                && reply.current == (if w.slot in old(current) then Some(old(current)[w.slot]) else None)
    {
      SetMeans(View(), w);
      var cur := if w.slot in current then Some(current[w.slot]) else None;
      var version := if cur.Some? then cur.value.version else 0;
      if w.expected.Some? && w.expected.value != version {
        return Conflict(cur, version);
      }
      var lclock := BumpClock(w.slot.team);
      current := current[w.slot := Current(w.value, lclock, w.writer, version + 1)];
      history := history + [Entry(w.slot, w.value, lclock, w.writer, version + 1)];
      reply := Written(version + 1, lclock);
    }

    method GetMemory(slot: Slot) returns (row: Option<Current>)
      ensures row == if slot in current then Some(current[slot]) else None
    {
      row := if slot in current then Some(current[slot]) else None;
    }
  }
}
