/**
 * The live evaluation log (src/components/WebSocketBox.jsx): an append-only
 * list of display lines fed by the three WebSocket handlers. The outcome of
 * `JSON.parse` on a frame is a parameter: `None` when parsing throws,
 * `Some` of the parsed record otherwise. Two kinds of frame that parse still
 * throw inside the same `try` and are passed as `None` too: a frame that
 * parses to `null` (it throws at `msg.status`), and a frame with a printed
 * field that has no string form (an object whose own `toString` is not a
 * function), which throws while the result line is built.
 */
module LiveLog {
  import opened Wrappers

  /**
   * A JSON field value: a string, or any other value that has a string form,
   * together with its template-literal rendering. A field that is never
   * printed (`status`, or any field of a "done" frame) may have no string
   * form; it is passed as `NonString` with any rendering, which is never read.
   */
  datatype Json = Str(s: string) | NonString(rendered: string)

  /** A parsed frame; every field may be missing. */
  datatype Frame = Frame(status: Option<Json>, domain: Option<Json>, question: Option<Json>,
                         answer: Option<Json>, responseTime: Option<Json>)

  /** The transport events the component reacts to. */
  datatype Event = Opened | Received(parsed: Option<Frame>) | Closed

  const Connected: string := "📡 WebSocket connected"
  const Finished: string := "✅ Evaluation finished"
  const Disconnected: string := "🔌 WebSocket disconnected"

  /** How a field reads inside a template literal: a missing one reads "undefined". */
  function Show(v: Option<Json>): string
  {
    match v
    case None => "undefined"
    case Some(Str(s)) => s
    case Some(NonString(r)) => r
  }

  /** The result line: `📘 domain: "question" → answer (responseTime ms)`. */
  function ResultLine(f: Frame): (line: string)
    ensures |line| > 0 && line[0] == '📘'
  {
    "📘 " + Show(f.domain) + ": \"" + Show(f.question) + "\" → " + Show(f.answer) +
    " (" + Show(f.responseTime) + " ms)"
  }

  /** Only the string "done" finishes the run; `===` does not convert. */
  predicate IsDone(f: Frame)
  {
    f.status == Some(Str("done"))
  }

  /** The line an event adds to the log, if any. */
  function LineFor(e: Event): Option<string>
  {
    match e
    case Opened => Some(Connected)
    case Received(None) => None
    case Received(Some(f)) => if IsDone(f) then Some(Finished) else Some(ResultLine(f))
    case Closed => Some(Disconnected)
  }

  /** `setMessages((prev) => [...prev, line])`, or nothing when there is no line. */
  function Append(log: seq<string>, line: Option<string>): seq<string>
  {
    if line.Some? then log + [line.value] else log
  }

  /** The log after a run of events, starting from the empty log of `useState([])`. */
  function Replay(events: seq<Event>): seq<string>
  {
    if |events| == 0 then []
    else Append(Replay(events[..|events| - 1]), LineFor(events[|events| - 1]))
  }

  /**
   * How a frame is classified: a parse failure adds nothing, the string
   * status "done" adds the finish line, and every other parsed frame, with
   * any other status or none, adds its result line. Lines from frames are
   * never mistaken for the connection lines.
   */
  lemma ClassifyFrame(parsed: Option<Frame>)
    ensures LineFor(Received(parsed)).None? <==> parsed.None?
    ensures LineFor(Received(parsed)) == Some(Finished) <==> parsed.Some? && IsDone(parsed.value)
    ensures parsed.Some? && !IsDone(parsed.value) ==> LineFor(Received(parsed)) == Some(ResultLine(parsed.value))
    ensures LineFor(Received(parsed)) != Some(Connected) && LineFor(Received(parsed)) != Some(Disconnected)
  {
    if parsed.Some? && !IsDone(parsed.value) {
      var line := ResultLine(parsed.value);
      assert line[0] != Finished[0] && line[0] != Connected[0] && line[0] != Disconnected[0];
    }
  }

  /** Replaying two runs of events one after the other appends their logs: lines keep event order. */
  lemma {:induction false} ReplayConcat(a: seq<Event>, b: seq<Event>)
    ensures Replay(a + b) == Replay(a) + Replay(b)
    decreases |b|
  {
    if |b| == 0 {
      assert a + b == a;
    } else {
      var b' := b[..|b| - 1];
      assert (a + b)[..|a + b| - 1] == a + b';
      assert (a + b)[|a + b| - 1] == b[|b| - 1];
      ReplayConcat(a, b');
    }
  }

  /** The log is append-only: later events never remove or reorder earlier lines. */
  lemma AppendOnly(a: seq<Event>, b: seq<Event>)
    ensures Replay(a) <= Replay(a + b)
  {
    ReplayConcat(a, b);
  }

  /** Each event adds at most one line. */
  lemma {:induction false} ReplayLength(events: seq<Event>)
    ensures |Replay(events)| <= |events|
    decreases |events|
  {
    if |events| > 0 {
      ReplayLength(events[..|events| - 1]);
    }
  }

  /** A frame that does not parse, then a result frame: exactly the one result line. */
  lemma MalformedThenResult(f: Frame)
    requires !IsDone(f)
    ensures Replay([Received(None), Received(Some(f))]) == [ResultLine(f)]
  {
    var evs := [Received(None), Received(Some(f))];
    assert evs[..1] == [Received(None)] && evs[..1][..0] == [];
    assert Replay(evs[..1]) == [];
    ClassifyFrame(Some(f));
  }

  /** The component's log state. */
  class LogBox {
    /** The displayed lines, oldest first. */
    var messages: seq<string>
    /** The events handled so far. */
    ghost var events: seq<Event>

    ghost predicate Valid()
      reads this
    {
      messages == Replay(events)
    }

    /** The log starts empty. */
    constructor ()
      ensures Valid() && messages == [] && events == []
    {
      messages := [];
      events := [];
    }

    /** `ws.onopen`: appends the connection line. */
    method OnOpen()
      requires Valid()
      modifies this
      ensures Valid() && events == old(events) + [Opened]
      ensures messages == old(messages) + [Connected]
    {
      messages := messages + [Connected];
      events := events + [Opened];
    }

    /** `ws.onmessage`: classifies the parsed frame and appends at most one line. */
    method OnMessage(parsed: Option<Frame>)
      requires Valid()
      modifies this
      ensures Valid() && events == old(events) + [Received(parsed)]
      ensures parsed.None? ==> messages == old(messages)
      ensures parsed.Some? && IsDone(parsed.value) ==> messages == old(messages) + [Finished]
      ensures parsed.Some? && !IsDone(parsed.value) ==> messages == old(messages) + [ResultLine(parsed.value)]
    {
      if parsed.Some? {
        var f := parsed.value;
        if IsDone(f) {
          messages := messages + [Finished];
        } else {
          messages := messages + [ResultLine(f)];
        }
      }
      events := events + [Received(parsed)];
    }

    /** `ws.onclose`: appends the disconnection line. */
    method OnClose()
      requires Valid()
      modifies this
      ensures Valid() && events == old(events) + [Closed]
      ensures messages == old(messages) + [Disconnected]
    {
      messages := messages + [Disconnected];
      events := events + [Closed];
    }
  }
}
