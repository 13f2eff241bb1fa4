/** The run_events table: each worker event is stored once, in the order in which it arrived. */
module EventLog {
  import opened Tables
  import opened EventStream

  datatype Stored = Stored(run: nat, sequence: nat, event: Event)

  function Known(run: nat, id: string): Stored -> bool {
    (s: Stored) => s.run == run && s.event.id == Some(id)
  }

  function Ending(run: nat): Stored -> bool {
    (s: Stored) => s.run == run && Terminal(s.event)
  }

  /** `max(sequence)` over the run's events, 0 when it has none. */
  function LastSequence(rows: seq<Stored>, run: nat): nat {
    if rows == [] then 0
    else
      var rest, s := LastSequence(rows[..|rows| - 1], run), rows[|rows| - 1];
      if s.run == run && s.sequence > rest then s.sequence else rest
  }

  /** An event whose id is on record is not stored again; events without an id always are. */
  function Persist(rows: seq<Stored>, run: nat, e: Event): seq<Stored> {
    if e.id.Some? && Has(rows, Known(run, e.id.value)) then rows
    else rows + [Stored(run, LastSequence(rows, run) + 1, e)]
  }

  function PersistAll(rows: seq<Stored>, run: nat, events: seq<Event>): seq<Stored> {
    if events == [] then rows
    else Persist(PersistAll(rows, run, events[..|events| - 1]), run, events[|events| - 1])
  }

  function PersistEnd(rows: seq<Stored>, run: nat, kind: string, payload: string): seq<Stored> {
    if Has(rows, Ending(run)) then rows else Persist(rows, run, Event(None, kind, payload))
  }

  class EventTable {
    var rows: seq<Stored>

    constructor ()
      ensures rows == []
    {
      rows := [];
    }

    /** `_persist_event`. */
    method PersistEvent(run: nat, e: Event)
      modifies this
      ensures rows == Persist(old(rows), run, e)
    {
      if e.id.Some? {
        var existing := Last(rows, Known(run, e.id.value));
        if existing.Some? {
          return;
        }
      }
      var sequence := LastSequence(rows, run) + 1;
      rows := rows + [Stored(run, sequence, e)];
    }

    /** `persist_worker_events`. */
    method PersistWorkerEvents(run: nat, events: seq<Event>)
      modifies this
      ensures rows == PersistAll(old(rows), run, events)
    {
      for k := 0 to |events|
        invariant rows == PersistAll(old(rows), run, events[..k])
      {
        assert events[..k + 1][..k] == events[..k];
        PersistEvent(run, events[k]);
      }
      assert events[..|events|] == events;
    }

    /** `_persist_terminal_if_missing`. */
    method PersistTerminalIfMissing(run: nat, kind: string, payload: string)
      modifies this
      ensures rows == PersistEnd(old(rows), run, kind, payload)
    {
      if !Has(rows, Ending(run)) {
        PersistEvent(run, Event(None, kind, payload));
      }
    }
  }

  // ---- Numbering ------------------------------------------------------------------------------

  /** The events of a run, in table order. */
  function EventsFor(rows: seq<Stored>, run: nat): seq<Event> {
    if rows == [] then []
    else
      EventsFor(rows[..|rows| - 1], run)
      + (if rows[|rows| - 1].run == run then [rows[|rows| - 1].event] else [])
  }

  /** Each run's events are numbered 1, 2, ... in table order. */
  ghost predicate Numbered(rows: seq<Stored>) {
    forall k :: 0 <= k < |rows| ==> rows[k].sequence == |EventsFor(rows[..k + 1], rows[k].run)|
  }

  lemma {:induction false} LastSequenceCounts(rows: seq<Stored>, run: nat)
    requires Numbered(rows)
    ensures LastSequence(rows, run) == |EventsFor(rows, run)|
  {
    if rows != [] {
      var init := rows[..|rows| - 1];
      forall k | 0 <= k < |init| ensures init[k].sequence == |EventsFor(init[..k + 1], init[k].run)| {
        assert init[..k + 1] == rows[..k + 1];
      }
      LastSequenceCounts(init, run);
      assert rows[..|rows|] == rows;
    }
  }

  lemma PersistKeepsNumbers(rows: seq<Stored>, run: nat, e: Event)
    requires Numbered(rows)
    ensures Numbered(Persist(rows, run, e))
  {
    LastSequenceCounts(rows, run);
    var after := Persist(rows, run, e);
    forall k | 0 <= k < |after| ensures after[k].sequence == |EventsFor(after[..k + 1], after[k].run)| {
      if k < |rows| {
        assert after[..k + 1] == rows[..k + 1];
      } else {
        assert after[..k + 1] == after && after[..k] == rows;
      }
    }
  }

  lemma {:induction false} PersistAllKeepsNumbers(rows: seq<Stored>, run: nat, events: seq<Event>)
    requires Numbered(rows)
    ensures Numbered(PersistAll(rows, run, events))
  {
    if events != [] {
      PersistAllKeepsNumbers(rows, run, events[..|events| - 1]);
      PersistKeepsNumbers(PersistAll(rows, run, events[..|events| - 1]), run, events[|events| - 1]);
    }
  }

  // ---- Exactly once ---------------------------------------------------------------------------

  ghost predicate DistinctIds(log: seq<Event>) {
    && (forall i :: 0 <= i < |log| ==> log[i].id.Some?)
    && forall i, j :: 0 <= i < j < |log| ==> log[i].id != log[j].id
  }

  lemma {:induction false} KnownMeans(rows: seq<Stored>, run: nat, id: string)
    ensures Has(rows, Known(run, id)) <==> exists e :: e in EventsFor(rows, run) && e.id == Some(id)
  {
    if rows != [] {
      var init, last := rows[..|rows| - 1], rows[|rows| - 1];
      KnownMeans(init, run, id);
      assert rows == init + [last];
      if Has(init, Known(run, id)) {
        var i :| 0 <= i < |init| && Known(run, id)(init[i]);
        assert Known(run, id)(rows[i]);
      }
      if Known(run, id)(last) {
        assert last.event in EventsFor(rows, run);
      }
    }
  }

  lemma PersistOne(rows: seq<Stored>, run: nat, e: Event, log: seq<Event>, p: nat, k: nat)
    requires DistinctIds(log) && p <= |log| && k < |log| && k <= p && e == log[k]
    requires EventsFor(rows, run) == log[..p]
    ensures EventsFor(Persist(rows, run, e), run) == log[..if k < p then p else p + 1]
  {
    KnownMeans(rows, run, e.id.value);
    if k < p {
      assert log[..p][k] == e;
    } else {
      assert forall i :: 0 <= i < p ==> log[..p][i].id != e.id;
      var after := Persist(rows, run, e);
      assert after[..|rows|] == rows;
      assert log[..p] + [log[p]] == log[..p + 1];
    }
  }

  /**
    However far an earlier attempt got, persisting the stream again from any point it had reached stores
    exactly what was missing: the table holds the log once, in order.
   */
  lemma {:induction false} PersistedExactlyOnce(
    rows: seq<Stored>, run: nat, log: seq<Event>, p: nat, i: nat, j: nat, part: seq<Event>, after: seq<Stored>)
    requires DistinctIds(log) && i <= p <= |log| && i <= j <= |log|
    requires EventsFor(rows, run) == log[..p] && part == log[i..j] && after == PersistAll(rows, run, part)
    ensures EventsFor(after, run) == log[..if p < j then j else p]
    decreases j
  {
    if i < j {
      var init := part[..|part| - 1];
      var before := PersistAll(rows, run, init);
      PersistedExactlyOnce(rows, run, log, p, i, j - 1, init, before);
      PersistOne(before, run, part[|part| - 1], log, if p < j - 1 then j - 1 else p, j - 1);
    }
  }

  /** Events of other runs are not touched. */
  lemma {:induction false} PersistedElsewhere(rows: seq<Stored>, run: nat, events: seq<Event>, other: nat)
    requires other != run
    ensures EventsFor(PersistAll(rows, run, events), other) == EventsFor(rows, other)
  {
    if events != [] {
      var init := PersistAll(rows, run, events[..|events| - 1]);
      PersistedElsewhere(rows, run, events[..|events| - 1], other);
      var after := Persist(init, run, events[|events| - 1]);
      if after != init {
        assert after[..|init|] == init;
      }
    }
  }

  /** Persisting an event a second time adds nothing exactly when it carries an id. */
  lemma RepeatsNeedIds(rows: seq<Stored>, run: nat, e: Event)
    ensures var once := Persist(rows, run, e);
            Persist(once, run, e) == once <==> e.id.Some?
  {
    var once := Persist(rows, run, e);
    if e.id.Some? && once != rows {
      assert Known(run, e.id.value)(once[|rows|]);
    }
  }

  // ---- One ending per run ---------------------------------------------------------------------

  predicate Ended(events: seq<Event>) {
    exists k :: 0 <= k < |events| && Terminal(events[k])
  }

  lemma EndedAppend(events: seq<Event>, e: Event)
    ensures Ended(events + [e]) <==> Ended(events) || Terminal(e)
  {
    var more := events + [e];
    assert Terminal(e) ==> Terminal(more[|events|]);
    if k :| 0 <= k < |events| && Terminal(events[k]) {
      assert Terminal(more[k]);
    }
  }

  lemma HasAppend(rows: seq<Stored>, row: Stored, p: Stored -> bool)
    ensures Has(rows + [row], p) <==> Has(rows, p) || p(row)
  {
    var more := rows + [row];
    assert p(row) ==> p(more[|rows|]);
    if i :| 0 <= i < |rows| && p(rows[i]) {
      assert p(more[i]);
    }
  }

  lemma {:induction false} EndingsAreEvents(rows: seq<Stored>, run: nat)
    ensures Has(rows, Ending(run)) <==> Ended(EventsFor(rows, run))
  {
    if rows != [] {
      var init, last := rows[..|rows| - 1], rows[|rows| - 1];
      EndingsAreEvents(init, run);
      assert rows == init + [last];
      HasAppend(init, last, Ending(run));
      EndedAppend(EventsFor(init, run), last.event);
      assert EventsFor(rows, run) ==
             if last.run == run then EventsFor(init, run) + [last.event] else EventsFor(init, run);
    }
  }

  /**
    Finalising a run whose stream was persisted through its first terminal event adds nothing; if the
    stream never got that far, it adds the missing ending. Either way exactly one ending is on record.
   */
  lemma FinalisedOnce(rows: seq<Stored>, run: nat, log: seq<Event>, p: nat, kind: string, payload: string)
    requires p <= |log| && p <= FirstEnd(log) + 1 && EventsFor(rows, run) == log[..p] && kind in TERMINAL_EVENTS
    ensures var after := EventsFor(PersistEnd(rows, run, kind, payload), run);
            && after != [] && FirstEnd(after) == |after| - 1
            && after == if FirstEnd(log) < p then log[..p] else log[..p] + [Event(None, kind, payload)]
  {
    EndingsAreEvents(rows, run);
    var after := PersistEnd(rows, run, kind, payload);
    if FirstEnd(log) < p {
      assert Terminal(log[..p][p - 1]);
      OneEnd(log[..p]);
    } else {
      assert forall k :: 0 <= k < p ==> !Terminal(log[..p][k]);
      assert after[..|rows|] == rows;
      OneEnd(log[..p] + [Event(None, kind, payload)]);
    }
  }

  lemma OneEnd(events: seq<Event>)
    requires events != [] && Terminal(events[|events| - 1])
    requires forall k :: 0 <= k < |events| - 1 ==> !Terminal(events[k])
    ensures FirstEnd(events) == |events| - 1
  {
  }
}
