/** Message framing on the socket (src/daemon.rs:33-62): one message is the bytes up to and including the first
    newline, however the stream arrives. */
module Framing {
  import opened Model

  const NEWLINE: Byte := 10

  /** What filling the reader's buffer may give; an empty chunk means that the peer has closed. */
  datatype Event = Chunk(bytes: seq<Byte>) | Interrupted | Broken

  datatype Received = Message(bytes: seq<Byte>) | Closed | TooLong | ReadError

  predicate NoNewline(bytes: seq<Byte>) {
    forall k | 0 <= k < |bytes| :: bytes[k] != NEWLINE
  }

  /** The position of the first newline. */
  function Newline(bytes: seq<Byte>): (r: Option<nat>)
    ensures r.Some? ==> r.value < |bytes| && bytes[r.value] == NEWLINE
    ensures r.Some? ==> forall k | 0 <= k < r.value :: bytes[k] != NEWLINE
    ensures r.None? <==> NoNewline(bytes)
  {
    NewlineFrom(bytes, 0)
  }

  function NewlineFrom(bytes: seq<Byte>, lo: nat): (r: Option<nat>)
    requires lo <= |bytes|
    ensures r.Some? ==> lo <= r.value < |bytes| && bytes[r.value] == NEWLINE
    ensures r.Some? ==> forall k | lo <= k < r.value :: bytes[k] != NEWLINE
    ensures r.None? <==> forall k | lo <= k < |bytes| :: bytes[k] != NEWLINE
    decreases |bytes| - lo
  {
    if lo == |bytes| then None else if bytes[lo] == NEWLINE then Some(lo) else NewlineFrom(bytes, lo + 1)
  }

  predicate Ends(event: Event) {
    event.Broken? || (event.Chunk? && event.bytes == [])
  }

  /** The bytes that arrive before the connection ends. */
  function Stream(events: seq<Event>): seq<Byte> {
    if events == [] || Ends(events[0]) then []
    else (if events[0].Chunk? then events[0].bytes else []) + Stream(events[1..])
  }

  /** How it ends; when nothing more arrives the read times out. */
  function Ending(events: seq<Event>): Received {
    if events == [] then ReadError
    else if Ends(events[0]) then (if events[0].Chunk? then Closed else ReadError)
    else Ending(events[1..])
  }

  /** The reference: what the stream as a whole frames. */
  function Frame(stream: seq<Byte>, ending: Received, limit: nat): Received {
    match Newline(stream)
    case Some(n) => if n + 1 <= limit then Message(stream[..n + 1]) else TooLong
    case None => if |stream| <= limit then ending else TooLong
  }

  /** After i events the message has grown to bytes, and the rest of the stream is still to come. */
  ghost predicate Reading(events: seq<Event>, i: nat, bytes: seq<Byte>, limit: nat) {
    && i <= |events| && |bytes| <= limit && NoNewline(bytes)
    && bytes + Stream(events[i..]) == Stream(events) && Ending(events[i..]) == Ending(events)
  }

  lemma ReadingStarts(events: seq<Event>, limit: nat)
    ensures Reading(events, 0, [], limit)
  {
    assert events[0..] == events && [] + Stream(events) == Stream(events);
  }

  lemma ReadingGoesOn(events: seq<Event>, i: nat, bytes: seq<Byte>, limit: nat)
    requires Reading(events, i, bytes, limit) && i < |events| && events[i].Interrupted?
    ensures Reading(events, i + 1, bytes, limit)
  {
    assert events[i..] == [events[i]] + events[i + 1..];
    Unfold(events[i], events[i + 1..]);
    assert [] + Stream(events[i + 1..]) == Stream(events[i + 1..]);
  }

  lemma ReadingEnds(events: seq<Event>, i: nat, bytes: seq<Byte>, limit: nat)
    requires Reading(events, i, bytes, limit) && (i == |events| || Ends(events[i]))
    ensures Frame(Stream(events), Ending(events), limit)
            == if i < |events| && events[i].Chunk? then Closed else ReadError
  {
    assert Stream(events[i..]) == [];
    NothingFramed(bytes, Ending(events), limit);
  }

  lemma ReadingChunk(events: seq<Event>, i: nat, bytes: seq<Byte>, limit: nat)
    requires Reading(events, i, bytes, limit) && i < |events| && events[i].Chunk? && events[i].bytes != []
    ensures var chunk := events[i].bytes;
            var end := Newline(chunk);
            var length := if end.Some? then end.value + 1 else |chunk|;
            var frame := Frame(Stream(events), Ending(events), limit);
            && (|bytes| + length > limit ==> frame == TooLong)
            && (|bytes| + length <= limit && end.Some? ==> frame == Message(bytes + chunk[..length]))
            && (|bytes| + length <= limit && end.None? ==> Reading(events, i + 1, bytes + chunk[..length], limit))
  {
    hide Newline, NewlineFrom, Frame;
    var chunk := events[i].bytes;
    assert events[i..] == [events[i]] + events[i + 1..];
    Unfold(events[i], events[i + 1..]);
    ChunkFramed(bytes, chunk, Stream(events[i + 1..]), Ending(events), limit);
    assert chunk[..|chunk|] == chunk;
  }

  /** receive: grows the message chunk by chunk. The answer depends on the stream alone, not on its chunks nor on
      the interruptions. */
  method Receive(events: seq<Event>, limit: nat) returns (r: Received)
    ensures r == Frame(Stream(events), Ending(events), limit)
  {
    hide Newline, NewlineFrom, Frame, Reading;
    var bytes: seq<Byte> := [];
    var i := 0;
    ReadingStarts(events, limit);
    while i < |events|
      invariant 0 <= i <= |events| && Reading(events, i, bytes, limit)
    {
      match events[i] {
        case Interrupted =>
          ReadingGoesOn(events, i, bytes, limit);
        case Broken =>
          ReadingEnds(events, i, bytes, limit);
          return ReadError;
        case Chunk(chunk) =>
          if chunk == [] {
            ReadingEnds(events, i, bytes, limit);
            return Closed;
          }
          ReadingChunk(events, i, bytes, limit);
          var end := Newline(chunk);
          var length := if end.Some? then end.value + 1 else |chunk|;
          if |bytes| + length > limit { return TooLong; }
          bytes := bytes + chunk[..length];
          if end.Some? { return Message(bytes); }
      }
      i := i + 1;
    }
    ReadingEnds(events, i, bytes, limit);
    return ReadError;
  }

  lemma NothingFramed(bytes: seq<Byte>, ending: Received, limit: nat)
    requires NoNewline(bytes) && |bytes| <= limit
    ensures Frame(bytes + [], ending, limit) == ending
  {
    assert bytes + [] == bytes;
  }

  lemma NewlineIsFirst(stream: seq<Byte>, n: nat)
    requires n < |stream| && stream[n] == NEWLINE && forall k | 0 <= k < n :: stream[k] != NEWLINE
    ensures Newline(stream) == Some(n)
  {
    assert !NoNewline(stream);
  }

  /** One more chunk decides the frame, or none of it does. */
  lemma ChunkFramed(bytes: seq<Byte>, chunk: seq<Byte>, rest: seq<Byte>, ending: Received, limit: nat)
    requires NoNewline(bytes) && |bytes| <= limit
    ensures var end := Newline(chunk);
            var length := if end.Some? then end.value + 1 else |chunk|;
            var stream := bytes + (chunk + rest);
            && (|bytes| + length > limit ==> Frame(stream, ending, limit) == TooLong)
            && (|bytes| + length <= limit && end.Some? ==>
                Frame(stream, ending, limit) == Message(bytes + chunk[..length]))
            && (end.None? ==> NoNewline(bytes + chunk) && stream == (bytes + chunk) + rest)
  {
    hide Newline, NewlineFrom;
    var end := Newline(chunk);
    var stream := bytes + (chunk + rest);
    assert forall k | 0 <= k < |bytes| :: stream[k] == bytes[k];
    assert forall k | 0 <= k < |chunk| :: stream[|bytes| + k] == chunk[k];
    if end.Some? {
      forall k | 0 <= k < |bytes| + end.value ensures stream[k] != NEWLINE {
        assert k >= |bytes| ==> stream[k] == chunk[k - |bytes|];
      }
      NewlineIsFirst(stream, |bytes| + end.value);
      assert stream[..|bytes| + end.value + 1] == bytes + chunk[..end.value + 1];
    } else {
      assert stream == (bytes + chunk) + rest;
      assert forall k | 0 <= k < |bytes + chunk| :: stream[k] == (bytes + chunk)[k];
    }
  }

  /** The three answers, each exactly when: a message is a prefix that ends in its only newline, byte 10, and is
      within the limit; too long means that the first limit bytes hold no newline and more follow; otherwise the
      connection ended first. */
  lemma FrameMeaning(stream: seq<Byte>, ending: Received, limit: nat, m: seq<Byte>)
    requires ending.Closed? || ending.ReadError?
    ensures Frame(stream, ending, limit) == Message(m) <==>
              && m != [] && m <= stream && |m| <= limit
              && m[|m| - 1] == 10 && forall k | 0 <= k < |m| - 1 :: m[k] != 10
    ensures Frame(stream, ending, limit).TooLong? <==> limit < |stream| && forall k | 0 <= k < limit :: stream[k] != 10
    ensures Frame(stream, ending, limit) == ending <==>
              |stream| <= limit && forall k | 0 <= k < |stream| :: stream[k] != 10
  {
    hide Newline, NewlineFrom;
    var n := Newline(stream);
    if m != [] && m <= stream && m[|m| - 1] == 10 && forall k | 0 <= k < |m| - 1 :: m[k] != 10 {
      assert forall k | 0 <= k < |m| :: stream[k] == m[k];
      NewlineIsFirst(stream, |m| - 1);
    }
  }

  /** send: the payload and a newline. */
  function Sent(payload: seq<Byte>): seq<Byte> {
    payload + [NEWLINE]
  }

  /** A payload without newlines, as JSON is written, comes back whole from any chunks that carry it, whatever
      follows it, exactly when it fits. */
  lemma RoundTrip(payload: seq<Byte>, more: seq<Byte>, events: seq<Event>, limit: nat)
    requires (forall k | 0 <= k < |payload| :: payload[k] != 10) && Stream(events) == Sent(payload) + more
    ensures Frame(Stream(events), Ending(events), limit) ==
            if |payload| + 1 <= limit then Message(payload + [10]) else TooLong
  {
    var stream := Stream(events);
    assert forall k | 0 <= k < |payload| :: stream[k] == payload[k];
    NewlineIsFirst(stream, |payload|);
    assert stream[..|payload| + 1] == Sent(payload);
  }

  lemma Unfold(event: Event, rest: seq<Event>)
    requires !Ends(event)
    ensures Stream([event] + rest) == (if event.Chunk? then event.bytes else []) + Stream(rest)
    ensures Ending([event] + rest) == Ending(rest)
  {
    assert ([event] + rest)[1..] == rest;
  }

  lemma Cut(a: seq<Byte>, b: seq<Byte>, after: seq<Event>)
    requires a != [] && b != []
    ensures var whole, cut := [Chunk(a + b)] + after, [Chunk(a)] + ([Interrupted] + ([Chunk(b)] + after));
            Stream(whole) == Stream(cut) && Ending(whole) == Ending(cut)
  {
    hide Stream, Ending;
    Unfold(Chunk(a + b), after);
    Unfold(Chunk(b), after);
    Unfold(Interrupted, [Chunk(b)] + after);
    Unfold(Chunk(a), [Interrupted] + ([Chunk(b)] + after));
    assert (a + b) + Stream(after) == a + ([] + (b + Stream(after)));
  }

  /** Cutting a chunk in two, or being interrupted between two chunks, changes neither the stream nor its end. */
  lemma {:induction false} Rechunk(before: seq<Event>, a: seq<Byte>, b: seq<Byte>, after: seq<Event>)
    requires a != [] && b != []
    ensures var whole, cut := before + [Chunk(a + b)] + after, before + [Chunk(a), Interrupted, Chunk(b)] + after;
            Stream(whole) == Stream(cut) && Ending(whole) == Ending(cut)
  {
    var whole, cut := before + [Chunk(a + b)] + after, before + [Chunk(a), Interrupted, Chunk(b)] + after;
    if before == [] {
      Cut(a, b, after);
      assert whole == [Chunk(a + b)] + after;
      assert cut == [Chunk(a)] + ([Interrupted] + ([Chunk(b)] + after));
    } else {
      assert whole[0] == before[0] == cut[0];
      assert whole[1..] == before[1..] + [Chunk(a + b)] + after;
      assert cut[1..] == before[1..] + [Chunk(a), Interrupted, Chunk(b)] + after;
      Rechunk(before[1..], a, b, after);
    }
  }
}
