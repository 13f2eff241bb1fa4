/**
  A worker's events on the wire, and what a reader has of them wherever the connection ends. Frames are
  lines of text; a connection that closes cleanly within a line leaves the part of it that arrived.
 */
module Frames {
  import opened Tables
  import opened EventStream

  // ---- Frames on the wire ---------------------------------------------------------------------

  /** An event as the worker writes it. */
  datatype Wire = Wire(id: Option<string>, kind: string, data: string)

  function EventOf(codec: Codec, w: Wire): Event {
    Event(w.id, if w.kind != "" then w.kind else codec.kind(w.data).GetOr("message"), codec.payload(w.data))
  }

  function EventsOf(codec: Codec, ws: seq<Wire>): seq<Event> {
    seq(|ws|, i requires 0 <= i < |ws| => EventOf(codec, ws[i]))
  }

  function Labelled(key: string, value: string): string {
    key + ": " + value
  }

  function Encode(w: Wire): seq<string> {
    (match w.id case Some(id) => [Labelled("id", id)] case None => [])
    + [Labelled("event", w.kind), Labelled("data", w.data), ""]
  }

  function EncodeAll(ws: seq<Wire>): seq<string> {
    if ws == [] then [] else EncodeAll(ws[..|ws| - 1]) + Encode(ws[|ws| - 1])
  }

  /** Field values do not begin with white space, which the reader would strip. */
  predicate Plain(w: Wire) {
    Trim(w.kind) == w.kind && Trim(w.data) == w.data && (w.id.Some? ==> Trim(w.id.value) == w.id.value)
  }

  ghost predicate AllPlain(ws: seq<Wire>) {
    forall i :: 0 <= i < |ws| ==> Plain(ws[i])
  }

  lemma FieldLine(frame: Frame, key: string, value: string)
    requires key in {"id", "event", "data"} && Trim(value) == value
    ensures AddLine(frame, Labelled(key, value)) == frame[key := value] && Labelled(key, value) != ""
  {
    var line := Labelled(key, value);
    assert line[|key|] == ':' && forall i :: 0 <= i < |key| ==> line[i] != ':';
    assert Colon(line) == |key|;
    assert line[..|key|] == key;
    assert line[|key| + 1..] == " " + value;
    assert (" " + value)[1..] == value;
  }

  lemma ScanField(codec: Codec, lines: seq<string>, key: string, value: string, scan: Scan)
    requires key in {"id", "event", "data"} && Trim(value) == value && ScanLines(codec, lines) == scan
    ensures ScanLines(codec, lines + [Labelled(key, value)]) == scan.(frame := scan.frame[key := value])
  {
    FieldLine(scan.frame, key, value);
    assert (lines + [Labelled(key, value)])[..|lines|] == lines;
  }

  lemma ScanBlank(codec: Codec, lines: seq<string>, scan: Scan)
    requires ScanLines(codec, lines) == scan
    ensures ScanLines(codec, lines + [""]) == ScanLine(codec, scan, "")
  {
    assert (lines + [""])[..|lines|] == lines;
  }

  lemma ScanBody(codec: Codec, lines: seq<string>, scan: Scan, kind: string, data: string)
    requires ScanLines(codec, lines) == scan && Trim(kind) == kind && Trim(data) == data
    ensures ScanLines(codec, lines + [Labelled("event", kind), Labelled("data", data), ""]) ==
            ScanLine(codec, scan.(frame := scan.frame["event" := kind]["data" := data]), "")
  {
    var a := lines + [Labelled("event", kind)];
    var b := a + [Labelled("data", data)];
    ScanField(codec, lines, "event", kind, scan);
    ScanField(codec, a, "data", data, scan.(frame := scan.frame["event" := kind]));
    ScanBlank(codec, b, scan.(frame := scan.frame["event" := kind]["data" := data]));
    assert b + [""] == lines + [Labelled("event", kind), Labelled("data", data), ""];
  }

  /** A frame that holds everything an event consists of is read as that event. */
  lemma ParsedEvent(codec: Codec, w: Wire, frame: Frame)
    requires frame == HeadOf(w)["data" := w.data]
    ensures ParseFrame(codec, frame) == Some(EventOf(codec, w))
  {
  }

  function HeadOf(w: Wire): Frame {
    (match w.id case Some(id) => map["id" := id] case None => map[])["event" := w.kind]
  }

  lemma ScanEncoded(codec: Codec, lines: seq<string>, scan: Scan, w: Wire)
    requires ScanLines(codec, lines) == scan && scan.frame == map[] && Plain(w)
    ensures ScanLines(codec, lines + Encode(w)) == Scan(scan.events + [EventOf(codec, w)], map[])
  {
    hide ParseFrame, EventOf, ScanLines;
    ParsedEvent(codec, w, HeadOf(w)["data" := w.data]);
    var body := [Labelled("event", w.kind), Labelled("data", w.data), ""];
    match w.id
    case None =>
      ScanBody(codec, lines, scan, w.kind, w.data);
      assert Encode(w) == body;
    case Some(id) =>
      var headed := lines + [Labelled("id", id)];
      ScanField(codec, lines, "id", id, scan);
      ScanBody(codec, headed, scan.(frame := map["id" := id]), w.kind, w.data);
      assert lines + Encode(w) == headed + body;
  }

  lemma EventsLength(codec: Codec, ws: seq<Wire>)
    ensures |EventsOf(codec, ws)| == |ws|
  {
  }

  lemma EventsOfNext(codec: Codec, ws: seq<Wire>)
    requires ws != []
    ensures EventsOf(codec, ws) == EventsOf(codec, ws[..|ws| - 1]) + [EventOf(codec, ws[|ws| - 1])]
  {
  }

  lemma {:induction false} ScanAll(codec: Codec, ws: seq<Wire>)
    requires AllPlain(ws)
    ensures ScanLines(codec, EncodeAll(ws)) == Scan(EventsOf(codec, ws), map[])
  {
    if ws != [] {
      hide Plain, Encode, ScanLines, EventOf, EventsOf;
      var init, last := ws[..|ws| - 1], ws[|ws| - 1];
      ScanAll(codec, init);
      ScanEncoded(codec, EncodeAll(init), Scan(EventsOf(codec, init), map[]), last);
      EventsOfNext(codec, ws);
    }
  }

  /** Decoding what the worker wrote gives back its events. */
  lemma {:induction false} WireRoundTrip(codec: Codec, ws: seq<Wire>)
    requires AllPlain(ws)
    ensures ScanLines(codec, EncodeAll(ws)) == Scan(EventsOf(codec, ws), map[])
    ensures Decoded(codec, EncodeAll(ws), false) == Decoded(codec, EncodeAll(ws), true) == EventsOf(codec, ws)
  {
    ScanAll(codec, ws);
  }

  /** A connection that breaks after any line delivers whole events only: a prefix of those written. */
  lemma BrokenAnywhereIsAPrefix(codec: Codec, ws: seq<Wire>, k: nat)
    requires AllPlain(ws) && k <= |EncodeAll(ws)|
    ensures Decoded(codec, EncodeAll(ws)[..k], true) <= EventsOf(codec, ws)
  {
    WireRoundTrip(codec, ws);
    ScanPrefix(codec, EncodeAll(ws), k);
  }

  // ---- Connections that end anywhere ------------------------------------------------------------

  /** The rest of a line that was cut off: read as a line of its own if anything of it arrived. */
  function Partial(part: string): seq<string> {
    if part == "" then [] else [part]
  }

  /** What arrives of the written lines when the connection closes within line `k`, after `part` of it. */
  ghost predicate CutAt(ws: seq<Wire>, k: nat, part: string, lines: seq<string>) {
    && k <= |EncodeAll(ws)| && lines == EncodeAll(ws)[..k] + Partial(part)
    && (part != "" ==> k < |EncodeAll(ws)| && part < EncodeAll(ws)[k])
  }

  /** The event that line `k` belongs to. */
  function Owner(ws: seq<Wire>, k: nat): (i: nat)
    requires k < |EncodeAll(ws)|
    ensures i < |ws|
  {
    var init := ws[..|ws| - 1];
    if k < |EncodeAll(init)| then Owner(init, k) else |init|
  }

  const DATA := "data:"

  /** The wire event as far as its data line arrived. */
  function CutShort(w: Wire, part: string): Wire
    requires DATA <= part
  {
    w.(data := Trim(part[|DATA|..]))
  }

  /** Nothing of a data line arrived past its colon, or what arrived decodes to the same event. */
  predicate Harmless(codec: Codec, ws: seq<Wire>, k: nat, part: string)
    requires part != "" ==> k < |EncodeAll(ws)|
  {
    DATA <= part ==>
      var w := ws[Owner(ws, k)];
      EventOf(codec, CutShort(w, part)) == EventOf(codec, w)
  }

  lemma PartLine(frame: Frame, key: string, value: string, part: string)
    requires key in {"id", "event", "data"} && part != "" && part < Labelled(key, value)
    ensures AddLine(frame, part) ==
            if key + ":" <= part then frame[key := Trim(part[|key| + 1..])] else frame
    ensures key == "data" <==> key + ":" == DATA
    ensures key != "data" ==> !(DATA <= part)
  {
    var line := Labelled(key, value);
    assert line[|key|] == ':' && forall i :: 0 <= i < |key| ==> line[i] != ':';
    assert part == line[..|part|];
    if |part| > |key| {
      assert part[..|key| + 1] == key + ":";
      assert Colon(part) == |key| && part[..|key|] == key;
    } else {
      assert !(key + ":" <= part);
      assert Colon(part) == |part|;
    }
    if DATA <= part {
      assert part[0] == 'd' && line[0] == 'd';
    }
  }

  lemma ScanPart(codec: Codec, lines: seq<string>, scan: Scan, part: string)
    requires ScanLines(codec, lines) == scan && part != ""
    ensures ScanLines(codec, lines + Partial(part)) == scan.(frame := AddLine(scan.frame, part))
  {
    assert (lines + [part])[..|lines|] == lines;
  }

  /** A clean close completes the open frame if it has data, whole or cut. */
  lemma ClosedFrame(codec: Codec, lines: seq<string>, scan: Scan)
    requires ScanLines(codec, lines) == scan
    ensures Decoded(codec, lines, false) ==
            match ParseFrame(codec, scan.frame) case None => scan.events case Some(e) => scan.events + [e]
  {
  }

  /** The part of an event that arrived on top of what was read before. */
  function Arrived(codec: Codec, w: Wire, j: nat, part: string): seq<Event> {
    if |Encode(w)| - 1 <= j then [EventOf(codec, w)]
    else if DATA <= part then [EventOf(codec, CutShort(w, part))]
    else []
  }

  /** Once `id` and event name are read, what remains is the data line and the blank line. */
  lemma DataCut(codec: Codec, lines: seq<string>, scan: Scan, w: Wire, part: string)
    requires ScanLines(codec, lines) == scan && scan.frame == HeadOf(w)
    requires part != "" ==> part < Labelled("data", w.data)
    ensures Decoded(codec, lines + Partial(part), false) ==
            scan.events + (if DATA <= part then [EventOf(codec, CutShort(w, part))] else [])
  {
    if part == "" {
      assert lines + Partial(part) == lines;
      ClosedFrame(codec, lines, scan);
    } else {
      PartLine(scan.frame, "data", w.data, part);
      ScanPart(codec, lines, scan, part);
      ClosedFrame(codec, lines + Partial(part), scan.(frame := AddLine(scan.frame, part)));
      if DATA <= part {
        ParsedEvent(codec, CutShort(w, part), AddLine(scan.frame, part));
      }
    }
  }

  lemma DataWhole(codec: Codec, lines: seq<string>, scan: Scan, w: Wire, blank: bool)
    requires ScanLines(codec, lines) == scan && scan.frame == HeadOf(w) && Plain(w)
    ensures Decoded(codec, lines + [Labelled("data", w.data)] + (if blank then [""] else []), false) ==
            scan.events + [EventOf(codec, w)]
  {
    var read, next := lines + [Labelled("data", w.data)], scan.(frame := scan.frame["data" := w.data]);
    ScanField(codec, lines, "data", w.data, scan);
    ParsedEvent(codec, w, next.frame);
    if blank {
      ScanBlank(codec, read, next);
      ClosedFrame(codec, read + [""], ScanLine(codec, next, ""));
    } else {
      assert read + [] == read;
      ClosedFrame(codec, read, next);
    }
  }

  lemma DataArrives(codec: Codec, lines: seq<string>, scan: Scan, w: Wire, j: nat, part: string)
    requires ScanLines(codec, lines) == scan && Plain(w) && j <= 2 && scan.frame == HeadOf(w)
    requires part != "" ==> j == 0 && part < Labelled("data", w.data)
    ensures Decoded(codec, lines + [Labelled("data", w.data), ""][..j] + Partial(part), false) ==
            scan.events + (if j > 0 then [EventOf(codec, w)]
                           else if DATA <= part then [EventOf(codec, CutShort(w, part))] else [])
  {
    var rest := [Labelled("data", w.data), ""];
    if j == 0 {
      DataCut(codec, lines, scan, w, part);
      assert lines + rest[..0] + Partial(part) == lines + Partial(part);
    } else {
      DataWhole(codec, lines, scan, w, j == 2);
      assert lines + rest[..j] + Partial(part) ==
             lines + [Labelled("data", w.data)] + (if j == 2 then [""] else []);
    }
  }

  /** Reading stops before the data line: nothing arrives. */
  lemma HeadArrives(codec: Codec, lines: seq<string>, scan: Scan, key: string, value: string, part: string)
    requires ScanLines(codec, lines) == scan && "data" !in scan.frame
    requires key in {"id", "event"} && (part != "" ==> part < Labelled(key, value))
    ensures Decoded(codec, lines + Partial(part), false) == scan.events && !(DATA <= part)
  {
    if part == "" {
      assert lines + Partial(part) == lines;
      ClosedFrame(codec, lines, scan);
    } else {
      PartLine(scan.frame, key, value, part);
      ScanPart(codec, lines, scan, part);
      ClosedFrame(codec, lines + Partial(part), scan.(frame := AddLine(scan.frame, part)));
    }
  }

  lemma BodyArrives(codec: Codec, lines: seq<string>, scan: Scan, w: Wire, j: nat, part: string)
    requires ScanLines(codec, lines) == scan && Plain(w) && j <= 3
    requires scan.frame == match w.id case Some(id) => map["id" := id] case None => map[]
    requires part != "" ==> j < 3 && part < [Labelled("event", w.kind), Labelled("data", w.data), ""][j]
    ensures Decoded(
              codec, lines + [Labelled("event", w.kind), Labelled("data", w.data), ""][..j] + Partial(part), false)
         == scan.events + (if j > 1 then [EventOf(codec, w)]
                           else if DATA <= part then [EventOf(codec, CutShort(w, part))] else [])
  {
    hide Decoded, EventOf, ScanLines, Trim;
    var body := [Labelled("event", w.kind), Labelled("data", w.data), ""];
    if j == 0 {
      assert lines + body[..0] + Partial(part) == lines + Partial(part);
      HeadArrives(codec, lines, scan, "event", w.kind, part);
    } else {
      var head := lines + [Labelled("event", w.kind)];
      ScanField(codec, lines, "event", w.kind, scan);
      DataArrives(codec, head, scan.(frame := scan.frame["event" := w.kind]), w, j - 1, part);
      assert body[1..] == [Labelled("data", w.data), ""];
      assert lines + body[..j] == head + body[1..][..j - 1];
    }
  }

  lemma EventArrives(codec: Codec, lines: seq<string>, scan: Scan, w: Wire, j: nat, part: string)
    requires ScanLines(codec, lines) == scan && scan.frame == map[] && Plain(w) && j <= |Encode(w)|
    requires part != "" ==> j < |Encode(w)| && part < Encode(w)[j]
    ensures Decoded(codec, lines + Encode(w)[..j] + Partial(part), false) == scan.events + Arrived(codec, w, j, part)
  {
    var body := [Labelled("event", w.kind), Labelled("data", w.data), ""];
    match w.id
    case None =>
      assert Encode(w) == body;
      BodyArrives(codec, lines, scan, w, j, part);
    case Some(id) => NamedArrives(codec, lines, scan, w, id, j, part);
  }

  lemma NamedArrives(codec: Codec, lines: seq<string>, scan: Scan, w: Wire, id: string, j: nat, part: string)
    requires ScanLines(codec, lines) == scan && scan.frame == map[] && Plain(w) && w.id == Some(id) && j <= 4
    requires part != "" ==> j < 4 && part < Encode(w)[j]
    ensures Decoded(codec, lines + Encode(w)[..j] + Partial(part), false) == scan.events + Arrived(codec, w, j, part)
  {
    hide Decoded, EventOf, ScanLines, Trim;
    var body := [Labelled("event", w.kind), Labelled("data", w.data), ""];
    assert Encode(w) == [Labelled("id", id)] + body;
    if j == 0 {
      assert lines + Encode(w)[..0] + Partial(part) == lines + Partial(part);
      HeadArrives(codec, lines, scan, "id", id, part);
    } else {
      ScanField(codec, lines, "id", id, scan);
      BodyArrives(codec, lines + [Labelled("id", id)], scan.(frame := map["id" := id]), w, j - 1, part);
      assert lines + Encode(w)[..j] == lines + [Labelled("id", id)] + body[..j - 1];
    }
  }

  lemma CutInLast(codec: Codec, ws: seq<Wire>, k: nat, part: string, lines: seq<string>)
    requires ws != [] && AllPlain(ws) && CutAt(ws, k, part, lines)
    requires |EncodeAll(ws[..|ws| - 1])| <= k
    ensures Decoded(codec, lines, false) ==
            EventsOf(codec, ws[..|ws| - 1])
            + Arrived(codec, ws[|ws| - 1], k - |EncodeAll(ws[..|ws| - 1])|, part)
  {
    var init, last := ws[..|ws| - 1], ws[|ws| - 1];
    var head, j := EncodeAll(init), k - |EncodeAll(init)|;
    assert EncodeAll(ws) == head + Encode(last);
    WireRoundTrip(codec, init);
    EventArrives(codec, head, Scan(EventsOf(codec, init), map[]), last, j, part);
    assert EncodeAll(ws)[..k] == head + Encode(last)[..j];
  }

  lemma CutBefore(ws: seq<Wire>, k: nat, part: string, lines: seq<string>)
    requires ws != [] && CutAt(ws, k, part, lines) && k < |EncodeAll(ws[..|ws| - 1])|
    ensures CutAt(ws[..|ws| - 1], k, part, lines)
    ensures Owner(ws, k) == Owner(ws[..|ws| - 1], k)
  {
    var init := ws[..|ws| - 1];
    assert EncodeAll(ws) == EncodeAll(init) + Encode(ws[|ws| - 1]);
    assert EncodeAll(ws)[..k] == EncodeAll(init)[..k];
  }

  lemma LongerPrefix(events: seq<Event>, last: Event, read: seq<Event>)
    requires |read| <= |events|
    ensures read <= events <==> read <= events + [last]
  {
  }

  /** One event more than a prefix is a prefix exactly when it is the next event. */
  lemma NextPrefix(events: seq<Event>, last: Event, e: Event)
    ensures events + [e] <= events + [last] <==> e == last
  {
    assert (events + [e])[|events|] == e && (events + [last])[|events|] == last;
  }

  lemma LastCutExactly(codec: Codec, ws: seq<Wire>, k: nat, part: string, lines: seq<string>, before: seq<Event>)
    requires ws != [] && AllPlain(ws) && CutAt(ws, k, part, lines)
    requires |EncodeAll(ws[..|ws| - 1])| <= k && before == EventsOf(codec, ws[..|ws| - 1])
    ensures |Decoded(codec, lines, false)| <= |ws|
    ensures Decoded(codec, lines, false) <= before + [EventOf(codec, ws[|ws| - 1])] <==> Harmless(codec, ws, k, part)
  {
    hide Decoded, EventOf, EventsOf, Plain, Trim;
    var last := ws[|ws| - 1];
    CutInLast(codec, ws, k, part, lines);
    EventsLength(codec, ws[..|ws| - 1]);
    if DATA <= part {
      NextPrefix(before, EventOf(codec, last), EventOf(codec, CutShort(last, part)));
    }
  }

  /**
    Wherever a connection closes cleanly, the reader has a prefix of the events written if and only if the
    close did not fall into a data line past its colon, or what arrived of the data decodes to the same event.
   */
  lemma {:induction false} CleanCloseExactly(codec: Codec, ws: seq<Wire>, k: nat, part: string, lines: seq<string>)
    requires AllPlain(ws) && CutAt(ws, k, part, lines)
    ensures |Decoded(codec, lines, false)| <= |ws|
    ensures Decoded(codec, lines, false) <= EventsOf(codec, ws) <==> Harmless(codec, ws, k, part)
  {
    if ws != [] {
      var init, last := ws[..|ws| - 1], ws[|ws| - 1];
      var before := EventsOf(codec, init);
      EventsOfNext(codec, ws);
      if k < |EncodeAll(init)| {
        CutBefore(ws, k, part, lines);
        CleanCloseExactly(codec, init, k, part, lines);
        LongerPrefix(before, EventOf(codec, last), Decoded(codec, lines, false));
      } else {
        LastCutExactly(codec, ws, k, part, lines, before);
      }
    }
  }

  /** A close within the data of a lone event leaves the reader with an event that nobody wrote. */
  lemma CleanCloseInvents(codec: Codec, w: Wire, ws: seq<Wire>, lines: seq<string>)
    requires w == Wire(None, "note", "ab") && codec.payload("a") != codec.payload("ab")
    requires ws == [w] && lines == ["event: note", "data: a"]
    ensures CutAt(ws, 1, "data: a", lines)
    ensures !(Decoded(codec, lines, false) <= EventsOf(codec, ws)) && Decoded(codec, lines, true) == []
  {
    var part := "data: a";
    assert ws[..0] == [] && EncodeAll(ws) == Encode(w);
    assert Labelled("event", "note") == "event: note" && Labelled("data", "ab") == "data: ab";
    assert part == "data: ab"[..7] && DATA == part[..5] && part[5..] == " a" && " a"[1..] == "a" && "a"[1..] == "";
    assert CutShort(w, part) == w.(data := "a");
    CleanCloseExactly(codec, ws, 1, part, lines);
    BrokenAnywhereIsAPrefix(codec, ws, 1);
  }

  /** The worker writes frames from some admissible position on; the connection breaks, or closes harmlessly. */
  ghost predicate WritesFrames(
    codec: Codec, ws: seq<Wire>, last: Option<string>, reply: Reply, from: nat, k: nat, part: string)
  {
    && from <= |ws| && reply.Lines? && CutAt(ws[from..], k, part, reply.lines)
    && (if reply.broken then part == "" else Harmless(codec, ws[from..], k, part))
    && forall p: nat {:trigger IdAt(EventsOf(codec, ws), p)} ::
         p <= |ws| && IdAt(EventsOf(codec, ws), p) == last ==> from <= p
  }

  /** Such a worker meets the assumption of the stream theorems. */
  lemma FramesAreFaithful(codec: Codec, ws: seq<Wire>, serve: (nat, Option<string>) -> Reply)
    requires AllPlain(ws)
    requires forall n, last :: serve(n, last).Lines? ==>
               exists from: nat, k: nat, part :: WritesFrames(codec, ws, last, serve(n, last), from, k, part)
    ensures Faithful(codec, EventsOf(codec, ws), serve)
  {
    var log := EventsOf(codec, ws);
    forall n, last | serve(n, last).Lines?
      ensures exists i: nat, j: nat ::
                Replays(log, last, Decoded(codec, serve(n, last).lines, serve(n, last).broken), i, j)
    {
      var reply := serve(n, last);
      var from: nat, k: nat, part :| WritesFrames(codec, ws, last, reply, from, k, part);
      var events := Decoded(codec, reply.lines, reply.broken);
      FramesReplay(codec, ws, reply, from, k, part, events);
      assert Replays(log, last, events, from, from + |events|);
    }
  }

  lemma FramesReplay(
    codec: Codec, ws: seq<Wire>, reply: Reply, from: nat, k: nat, part: string, events: seq<Event>)
    requires AllPlain(ws) && from <= |ws| && reply.Lines?
    requires CutAt(ws[from..], k, part, reply.lines)
    requires if reply.broken then part == "" else Harmless(codec, ws[from..], k, part)
    requires events == Decoded(codec, reply.lines, reply.broken)
    ensures from + |events| <= |ws| && events == EventsOf(codec, ws)[from..from + |events|]
  {
    var rest := ws[from..];
    if reply.broken {
      assert reply.lines == EncodeAll(rest)[..k];
      BrokenAnywhereIsAPrefix(codec, rest, k);
    } else {
      CleanCloseExactly(codec, rest, k, part, reply.lines);
    }
    assert EventsOf(codec, rest) == EventsOf(codec, ws)[from..];
  }
}
