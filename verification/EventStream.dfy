/**
  Reading a worker's event stream: server-sent event lines are assembled into frames, connections are
  reopened after an interruption, and repeated events are dropped by their fingerprints.
 */
module EventStream {
  import opened Tables

  /** A worker event. Two events have the same fingerprint exactly when they are equal. */
  datatype Event = Event(id: Option<string>, kind: string, payload: string)

  const TERMINAL_EVENTS: set<string> := {"run.completed", "run.failed", "run.cancelled"}

  predicate Terminal(e: Event) {
    e.kind in TERMINAL_EVENTS
  }

  /** JSON decoding and redaction of a frame's data, and the event name the decoded data may carry. */
  datatype Codec = Codec(payload: string -> string, kind: string -> Option<string>)

  type Frame = map<string, string>

  // ---- Lines and frames -----------------------------------------------------------------------

  function Trim(s: string): string {
    if s != "" && s[0] in {' ', '\t', '\n', '\r'} then Trim(s[1..]) else s
  }

  /** The position of the first colon, or the length of the line. */
  function Colon(line: string): (k: nat)
    ensures k <= |line| && (k < |line| ==> line[k] == ':')
    ensures forall i :: 0 <= i < k ==> line[i] != ':'
  {
    if line == "" || line[0] == ':' then 0 else 1 + Colon(line[1..])
  }

  /** Comments and lines without a colon are skipped; a repeated field overwrites. */
  function AddLine(frame: Frame, line: string): Frame {
    var k := Colon(line);
    if k == 0 || k == |line| then frame else frame[line[..k] := Trim(line[k + 1..])]
  }

  function Field(frame: Frame, key: string): Option<string> {
    if key in frame && frame[key] != "" then Some(frame[key]) else None
  }

  function ParseFrame(codec: Codec, frame: Frame): Option<Event> {
    if "data" !in frame then None
    else
      Some(Event(
        if "id" in frame then Some(frame["id"]) else None,
        Field(frame, "event").GetOr(codec.kind(frame["data"]).GetOr("message")),
        codec.payload(frame["data"])))
  }

  datatype Scan = Scan(events: seq<Event>, frame: Frame)

  function ScanLine(codec: Codec, scan: Scan, line: string): Scan {
    if line == "" then
      match ParseFrame(codec, scan.frame)
      case None => Scan(scan.events, map[])
      case Some(e) => Scan(scan.events + [e], map[])
    else scan.(frame := AddLine(scan.frame, line))
  }

  /** The events completed by a blank line, and the frame still open. */
  function ScanLines(codec: Codec, lines: seq<string>): Scan {
    if lines == [] then Scan([], map[])
    else ScanLine(codec, ScanLines(codec, lines[..|lines| - 1]), lines[|lines| - 1])
  }

  /** What one connection yields: an HTTP error, or lines that end cleanly or with a transport error. */
  datatype Reply = HttpError(code: string, retryable: bool) | Lines(lines: seq<string>, broken: bool)

  /** A clean end completes the open frame; a transport error drops it. */
  function Decoded(codec: Codec, lines: seq<string>, broken: bool): seq<Event> {
    var scan := ScanLines(codec, lines);
    if broken then scan.events
    else match ParseFrame(codec, scan.frame)
      case None => scan.events
      case Some(e) => scan.events + [e]
  }

  // ---- Collecting events ----------------------------------------------------------------------

  datatype Haul = Haul(events: seq<Event>, complete: bool)

  function Accept(haul: Haul, e: Event): Haul {
    if haul.complete || e in haul.events then haul else Haul(haul.events + [e], Terminal(e))
  }

  function AcceptAll(haul: Haul, events: seq<Event>): Haul {
    if events == [] then haul
    else Accept(AcceptAll(haul, events[..|events| - 1]), events[|events| - 1])
  }

  /** `last_event_id`: the newest non-empty id among the collected events. */
  function LastId(events: seq<Event>): Option<string> {
    if events == [] then None
    else
      var id := events[|events| - 1].id;
      if id.Some? && id.value != "" then id else LastId(events[..|events| - 1])
  }

  datatype Outcome = Streamed(events: seq<Event>) | Refused(code: string, retryable: bool)

  const DISCONNECTED: Outcome := Refused("worker_disconnected", true)

  /** The remaining connections, from the `n`-th on. */
  function Stream(codec: Codec, serve: (nat, Option<string>) -> Reply, n: nat, max: nat, got: seq<Event>): Outcome
    decreases max + 1 - n
  {
    if n > max then DISCONNECTED
    else match serve(n, LastId(got))
      case HttpError(code, retryable) => Refused(code, retryable)
      case Lines(lines, broken) =>
        var haul := AcceptAll(Haul(got, false), Decoded(codec, lines, broken));
        if haul.complete then Streamed(haul.events) else Stream(codec, serve, n + 1, max, haul.events)
  }

  lemma AcceptedFirst(haul: Haul, events: seq<Event>)
    requires haul.complete
    ensures AcceptAll(haul, events) == haul
  {
  }

  lemma {:induction false} AcceptSplit(haul: Haul, a: seq<Event>, b: seq<Event>)
    ensures AcceptAll(haul, a + b) == AcceptAll(AcceptAll(haul, a), b)
  {
    if b == [] {
      assert a + b == a;
    } else {
      assert (a + b)[..|a + b| - 1] == a + b[..|b| - 1];
      AcceptSplit(haul, a, b[..|b| - 1]);
    }
  }

  /** What the reader carries along: the fingerprints seen and the id to resume from. */
  ghost predicate Tracked(events: seq<Event>, seen: set<Event>, lastId: Option<string>) {
    (forall e :: e in seen <==> e in events) && lastId == LastId(events)
  }

  method Collect(event: Event, events: seq<Event>, seen: set<Event>, lastId: Option<string>)
    returns (events': seq<Event>, seen': set<Event>, lastId': Option<string>, complete: bool)
    requires Tracked(events, seen, lastId)
    ensures Tracked(events', seen', lastId')
    ensures Haul(events', complete) == Accept(Haul(events, false), event)
  {
    events', seen', lastId', complete := events, seen, lastId, false;
    if event !in seen {
      seen' := seen + {event};
      events' := events + [event];
      if event.id.Some? && event.id.value != "" {
        lastId' := event.id;
      }
      complete := Terminal(event);
    }
  }

  /** One connection: read its lines until a terminal event or the end. */
  method ReadConnection(
    codec: Codec, lines: seq<string>, broken: bool, got: seq<Event>, known: set<Event>, resume: Option<string>)
    returns (events: seq<Event>, seen: set<Event>, lastId: Option<string>, complete: bool)
    requires Tracked(got, known, resume)
    ensures Tracked(events, seen, lastId)
    ensures Haul(events, complete) == AcceptAll(Haul(got, false), Decoded(codec, lines, broken))
  {
    events, seen, lastId, complete := got, known, resume, false;
    var frame: Frame := map[];
    for k := 0 to |lines|
      invariant Tracked(events, seen, lastId) && !complete
      invariant frame == ScanLines(codec, lines[..k]).frame
      invariant Haul(events, false) == AcceptAll(Haul(got, false), ScanLines(codec, lines[..k]).events)
    {
      assert lines[..k + 1][..k] == lines[..k];
      if lines[k] == "" {
        var event := ParseFrame(codec, frame);
        frame := map[];
        if event.Some? {
          events, seen, lastId, complete := Collect(event.value, events, seen, lastId);
          if complete {
            ScanPrefix(codec, lines, k + 1);
            CompletesEarly(got, Decoded(codec, lines, broken), ScanLines(codec, lines[..k + 1]).events, events);
            return;
          }
        }
      } else {
        frame := AddLine(frame, lines[k]);
      }
    }
    assert lines[..|lines|] == lines;
    if !broken {
      var event := ParseFrame(codec, frame);
      if event.Some? {
        events, seen, lastId, complete := Collect(event.value, events, seen, lastId);
      }
    }
  }

  /** `stream_events`: reconnect from the last id until a terminal event arrives or the attempts are spent. */
  method StreamEvents(codec: Codec, serve: (nat, Option<string>) -> Reply, maxReconnects: nat)
    returns (outcome: Outcome)
    ensures outcome == Stream(codec, serve, 0, maxReconnects, [])
  {
    ghost var whole := Stream(codec, serve, 0, maxReconnects, []);
    var events: seq<Event>, seen: set<Event>, lastId: Option<string>, reconnects := [], {}, None, 0;
    while reconnects <= maxReconnects
      invariant Tracked(events, seen, lastId) && reconnects <= maxReconnects + 1
      invariant whole == Stream(codec, serve, reconnects, maxReconnects, events)
    {
      var reply := serve(reconnects, lastId);
      if reply.HttpError? {
        return Refused(reply.code, reply.retryable);
      }
      var complete: bool;
      events, seen, lastId, complete := ReadConnection(codec, reply.lines, reply.broken, events, seen, lastId);
      if complete {
        return Streamed(events);
      }
      reconnects := reconnects + 1;
    }
    outcome := DISCONNECTED;
  }

  lemma {:induction false} ScanPrefix(codec: Codec, lines: seq<string>, k: nat)
    requires k <= |lines|
    ensures ScanLines(codec, lines[..k]).events <= ScanLines(codec, lines).events
  {
    if k < |lines| {
      ScanPrefix(codec, lines[..|lines| - 1], k);
      assert lines[..|lines| - 1][..k] == lines[..k];
    } else {
      assert lines[..k] == lines;
    }
  }

  lemma CompletesEarly(before: seq<Event>, all: seq<Event>, some: seq<Event>, events: seq<Event>)
    requires some <= all && AcceptAll(Haul(before, false), some) == Haul(events, true)
    ensures AcceptAll(Haul(before, false), all) == Haul(events, true)
  {
    AcceptSplit(Haul(before, false), some, all[|some|..]);
    assert all == some + all[|some|..];
    AcceptedFirst(Haul(events, true), all[|some|..]);
  }

  // ---- Exactly once and in order --------------------------------------------------------------

  /** No two events of the worker's log have the same fingerprint. */
  ghost predicate DistinctLog(log: seq<Event>) {
    forall i, j :: 0 <= i < j < |log| ==> log[i] != log[j]
  }

  /** The position of the first terminal event, or the length of the log. */
  function FirstEnd(log: seq<Event>): (t: nat)
    ensures t <= |log| && (t < |log| ==> Terminal(log[t]))
    ensures forall i :: 0 <= i < t ==> !Terminal(log[i])
  {
    if log == [] || Terminal(log[0]) then 0 else 1 + FirstEnd(log[1..])
  }

  /** The id a reader of the first `p` events resumes from. */
  function IdAt(log: seq<Event>, p: nat): Option<string>
    requires p <= |log|
  {
    LastId(log[..p])
  }

  /** A replayed stretch of the log that begins at or before every position the last id can stand for. */
  ghost predicate Replays(log: seq<Event>, last: Option<string>, events: seq<Event>, i: nat, j: nat) {
    && i <= j <= |log| && events == log[i..j]
    && forall p: nat {:trigger IdAt(log, p)} :: p <= |log| && IdAt(log, p) == last ==> i <= p
  }

  /** Whatever it is asked, the worker replays a contiguous stretch of its log from where the reader left off. */
  ghost predicate Faithful(codec: Codec, log: seq<Event>, serve: (nat, Option<string>) -> Reply) {
    forall n, last :: serve(n, last).Lines? ==>
      exists i: nat, j: nat :: Replays(log, last, Decoded(codec, serve(n, last).lines, serve(n, last).broken), i, j)
  }

  /** What a reader holding the first `p` events has once it has read up to position `j`; the log ends at `t`. */
  function Extended(log: seq<Event>, t: nat, p: nat, j: nat): Haul
    requires p <= |log| && j <= |log|
  {
    if t < j then Haul(log[..t + 1], true) else Haul(log[..if p < j then j else p], false)
  }

  /** Accepting a stretch that overlaps the prefix already collected extends it, up to the first terminal event. */
  lemma {:induction false} AcceptStretch(log: seq<Event>, p: nat, i: nat, j: nat)
    requires DistinctLog(log) && i <= p <= FirstEnd(log) && i <= j <= |log|
    ensures AcceptAll(Haul(log[..p], false), log[i..j]) == Extended(log, FirstEnd(log), p, j)
  {
    hide Accept, DistinctLog;
    if i < j {
      assert log[i..j][..j - i - 1] == log[i..j - 1];
      AcceptStretch(log, p, i, j - 1);
      AcceptNext(log, FirstEnd(log), p, j);
    }
  }

  lemma AcceptNext(log: seq<Event>, t: nat, p: nat, j: nat)
    requires DistinctLog(log) && p <= t <= |log| && 0 < j <= |log|
    requires (forall i :: 0 <= i < t ==> !Terminal(log[i])) && (t < |log| ==> Terminal(log[t]))
    ensures Accept(Extended(log, t, p, j - 1), log[j - 1]) == Extended(log, t, p, j)
  {
    var e := log[j - 1];
    if j - 1 < p {
      assert log[..p][j - 1] == e;
    } else if t >= j - 1 {
      assert log[..j - 1] + [e] == log[..j];
    }
  }

  /** One connection reads up to some position `j` of the log, and past its end if the end was served. */
  lemma ConnectionExtends(
    codec: Codec, serve: (nat, Option<string>) -> Reply, log: seq<Event>, n: nat, p: nat, events: seq<Event>)
    returns (j: nat)
    requires Faithful(codec, log, serve) && DistinctLog(log) && p <= FirstEnd(log)
    requires var reply := serve(n, LastId(log[..p]));
             reply.Lines? && events == Decoded(codec, reply.lines, reply.broken)
    ensures j <= |log| && AcceptAll(Haul(log[..p], false), events) == Extended(log, FirstEnd(log), p, j)
    ensures FirstEnd(log) < |log| && log[FirstEnd(log)] in events ==> FirstEnd(log) < j
  {
    hide AcceptAll, Extended, Decoded, FirstEnd, Accept;
    var i: nat, end: nat :| Replays(log, IdAt(log, p), events, i, end);
    j := end;
    AcceptStretch(log, p, i, j);
    if FirstEnd(log) < |log| && log[FirstEnd(log)] in events {
      var k :| 0 <= k < |events| && events[k] == log[FirstEnd(log)];
      assert log[i + k] == log[FirstEnd(log)];
    }
  }

  /** One connection: the stream returns past the end of the log, or goes on from a position further on. */
  lemma StreamStep(
    codec: Codec, serve: (nat, Option<string>) -> Reply, log: seq<Event>, t: nat, n: nat, max: nat, p: nat)
    returns (j: nat)
    requires Faithful(codec, log, serve) && DistinctLog(log) && t == FirstEnd(log) && p <= t && n <= max
    requires serve(n, LastId(log[..p])).Lines?
    ensures j <= |log|
    ensures Stream(codec, serve, n, max, log[..p]) ==
            if t < j then Streamed(log[..t + 1]) else Stream(codec, serve, n + 1, max, log[..if p < j then j else p])
    ensures var reply := serve(n, LastId(log[..p]));
            t < |log| && log[t] in Decoded(codec, reply.lines, reply.broken) ==> t < j
  {
    var reply := serve(n, LastId(log[..p]));
    j := ConnectionExtends(codec, serve, log, n, p, Decoded(codec, reply.lines, reply.broken));
  }

  /**
    However often the connection breaks, and whatever stretches the worker repeats, a stream that returns
    returns the worker's log up to and including the first terminal event: nothing lost, nothing twice.
   */
  lemma {:induction false} StreamIsThePrefix(
    codec: Codec, serve: (nat, Option<string>) -> Reply, log: seq<Event>, t: nat, n: nat, max: nat, p: nat,
    outcome: Outcome)
    requires Faithful(codec, log, serve) && DistinctLog(log) && t == FirstEnd(log) && p <= t
    requires outcome == Stream(codec, serve, n, max, log[..p])
    ensures outcome.Streamed? ==> t < |log| && outcome.events == log[..t + 1]
    decreases max + 1 - n
  {
    hide DistinctLog, Faithful, FirstEnd, LastId, AcceptAll, Decoded;
    if n <= max && serve(n, LastId(log[..p])).Lines? {
      var j := StreamStep(codec, serve, log, t, n, max, p);
      if j <= t {
        StreamIsThePrefix(codec, serve, log, t, n + 1, max, if p < j then j else p, outcome);
      }
    }
  }

  /** Connection `m`, if it is reached, is served past the first terminal event. */
  ghost predicate Delivers(codec: Codec, log: seq<Event>, serve: (nat, Option<string>) -> Reply, m: nat) {
    FirstEnd(log) < |log| && forall last ::
      && serve(m, last).Lines?
      && log[FirstEnd(log)] in Decoded(codec, serve(m, last).lines, serve(m, last).broken)
  }

  /** One good connection among the allowed ones is enough, as long as none before it fails with an HTTP error. */
  lemma {:induction false} StreamSucceeds(
    codec: Codec, serve: (nat, Option<string>) -> Reply, log: seq<Event>, t: nat, n: nat, m: nat, max: nat, p: nat)
    requires Faithful(codec, log, serve) && DistinctLog(log) && t == FirstEnd(log) && p <= t
    requires n <= m <= max && Delivers(codec, log, serve, m)
    requires forall k, last :: n <= k <= m ==> serve(k, last).Lines?
    ensures Stream(codec, serve, n, max, log[..p]) == Streamed(log[..t + 1])
    decreases m - n
  {
    hide DistinctLog, Faithful, FirstEnd, LastId, Stream, Decoded;
    var j := StreamStep(codec, serve, log, t, n, max, p);
    if j <= t {
      assert n < m;
      StreamSucceeds(codec, serve, log, t, n + 1, m, max, if p < j then j else p);
    }
  }
}
