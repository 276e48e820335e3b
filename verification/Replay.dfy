/**
 Replaying terminals to a client that loads a session (crates/dwo-acp/src/lib.rs, replay_terminal_outputs):
 a terminal the actor still retains is shown from its retained bytes alone, any other from the transcript,
 and one that nobody can reach any more is closed.
 */
module Replay {
  import opened Common
  import Events

  type TerminalId = Events.TerminalId

  /** A terminal view of the snapshot; one whose output is not valid Base64 is passed over. */
  datatype RetainedView = RetainedView(id: TerminalId, output: Option<seq<byte>>, dropped: nat, running: bool)

  /** What of a transcript event matters here; a polled result is the text of a terminal tool call. */
  datatype Entry =
    | TerminalOpened(id: TerminalId)
    | TerminalOutput(id: TerminalId, data: seq<byte>)
    | Polled(id: TerminalId, text: seq<byte>)
    | TerminalExited(id: TerminalId)
    | Unrelated

  datatype Update =
    | FromActor(id: TerminalId, output: seq<byte>, dropped: nat, running: bool)
    | FromTranscript(id: TerminalId, output: seq<byte>)
    | Close(id: TerminalId)

  datatype Slot = Slot(bytes: seq<byte>, text: seq<byte>, streamed: bool)

  // ---------------------------------------------------------------- what a transcript says of one terminal

  predicate Mentions(e: Entry, id: TerminalId) {
    (e.TerminalOpened? || e.TerminalOutput? || e.Polled?) && e.id == id
  }

  ghost predicate Known(transcript: seq<Entry>, id: TerminalId) {
    exists e :: e in transcript && Mentions(e, id)
  }

  ghost predicate Streamed(transcript: seq<Entry>, id: TerminalId) {
    exists e :: e in transcript && e.TerminalOutput? && e.id == id
  }

  function StreamedBytes(transcript: seq<Entry>, id: TerminalId): seq<byte> {
    if transcript == [] then []
    else
      var e := transcript[|transcript| - 1];
      StreamedBytes(transcript[..|transcript| - 1], id) + if e.TerminalOutput? && e.id == id then e.data else []
  }

  function PolledBytes(transcript: seq<Entry>, id: TerminalId): seq<byte> {
    if transcript == [] then []
    else
      var e := transcript[|transcript| - 1];
      PolledBytes(transcript[..|transcript| - 1], id) + if e.Polled? && e.id == id then e.text else []
  }

  function Retained(views: seq<RetainedView>): set<TerminalId> {
    set v | v in views && v.output.Some? :: v.id
  }

  function ActorUpdates(views: seq<RetainedView>): seq<Update> {
    if views == [] then []
    else
      var v := views[|views| - 1];
      ActorUpdates(views[..|views| - 1])
      + if v.output.Some? then [FromActor(v.id, v.output.value, v.dropped, v.running)] else []
  }

  /** The updates owed to the transcript: streamed bytes if there are any, else what was polled, never both. */
  ghost predicate Owed(views: seq<RetainedView>, live: set<TerminalId>, transcript: seq<Entry>, u: Update) {
    && u.id !in Retained(views) && Known(transcript, u.id)
    && match u
       case FromActor(_, _, _, _) => false
       case FromTranscript(id, output) =>
         output == if Streamed(transcript, id) then StreamedBytes(transcript, id) else PolledBytes(transcript, id)
       case Close(id) => TerminalExited(id) !in transcript && id !in live
  }

  predicate ShowsAgain(u: Update, id: TerminalId) {
    u.FromTranscript? && u.id == id
  }

  // ---------------------------------------------------------------- the code

  function SlotOf(outputs: map<TerminalId, Slot>, id: TerminalId): Slot {
    if id in outputs then outputs[id] else Slot([], [], false)
  }

  /** The tables hold, for a terminal that is not retained, what the transcript so far says of it. */
  ghost predicate TabledAt(views: seq<RetainedView>, transcript: seq<Entry>, outputs: map<TerminalId, Slot>,
                           exited: set<TerminalId>, id: TerminalId) {
    && (id in outputs <==> id !in Retained(views) && Known(transcript, id))
    && (id in exited <==> id !in Retained(views) && TerminalExited(id) in transcript)
    && (id !in Retained(views) ==>
          var slot := SlotOf(outputs, id);
          && slot.bytes == StreamedBytes(transcript, id) && slot.text == PolledBytes(transcript, id)
          && (slot.streamed <==> Streamed(transcript, id)))
  }

  ghost predicate Tabled(views: seq<RetainedView>, transcript: seq<Entry>, outputs: map<TerminalId, Slot>,
                         exited: set<TerminalId>) {
    forall id :: TabledAt(views, transcript, outputs, exited, id)
  }

  lemma OneMoreEntry(transcript: seq<Entry>, e: Entry, id: TerminalId)
    ensures var longer := transcript + [e];
            && StreamedBytes(longer, id)
               == StreamedBytes(transcript, id) + (if e.TerminalOutput? && e.id == id then e.data else [])
            && PolledBytes(longer, id)
               == PolledBytes(transcript, id) + (if e.Polled? && e.id == id then e.text else [])
            && (Known(longer, id) <==> Known(transcript, id) || Mentions(e, id))
            && (Streamed(longer, id) <==> Streamed(transcript, id) || (e.TerminalOutput? && e.id == id))
            && (TerminalExited(id) in longer <==> TerminalExited(id) in transcript || e == TerminalExited(id))
  {
    var longer := transcript + [e];
    assert longer[..|transcript|] == transcript;
    assert forall x :: x in longer <==> x in transcript || x == e;
  }

  /** Reading one transcript entry into the tables. */
  method ReadEntry(views: seq<RetainedView>, ghost transcript: seq<Entry>, e: Entry,
                   outputs: map<TerminalId, Slot>, exited: set<TerminalId>)
    returns (outputs': map<TerminalId, Slot>, exited': set<TerminalId>)
    requires Tabled(views, transcript, outputs, exited)
    ensures Tabled(views, transcript + [e], outputs', exited')
  {
    outputs', exited' := outputs, exited;
    if !e.Unrelated? && e.id !in Retained(views) {
      var slot := SlotOf(outputs, e.id);
      match e
      case TerminalOpened(id) => outputs' := outputs[id := slot];
      case TerminalOutput(id, data) => outputs' := outputs[id := Slot(slot.bytes + data, slot.text, true)];
      case Polled(id, text) => outputs' := outputs[id := slot.(text := slot.text + text)];
      case TerminalExited(id) => exited' := exited + {id};
    }
    forall id ensures TabledAt(views, transcript + [e], outputs', exited', id) {
      assert TabledAt(views, transcript, outputs, exited, id);
      OneMoreEntry(transcript, e, id);
    }
  }

  /** replay_terminal_outputs: the retained views in order, then what is owed to the transcript, each once; a
   terminal is closed right after it has been shown. */
  method ReplayTerminals(views: seq<RetainedView>, live: set<TerminalId>, transcript: seq<Entry>)
    returns (fromActor: seq<Update>, rest: seq<Update>)
    ensures fromActor == ActorUpdates(views)
    ensures forall u :: u in rest <==> Owed(views, live, transcript, u)
    ensures forall i, j :: 0 <= i < j < |rest| ==> rest[i] != rest[j]
    ensures forall j :: 0 <= j < |rest| && rest[j].Close? ==> j > 0 && ShowsAgain(rest[j - 1], rest[j].id)
  {
    fromActor := [];
    for i := 0 to |views|
      invariant fromActor == ActorUpdates(views[..i])
    {
      assert views[..i + 1][..i] == views[..i];
      if views[i].output.Some? {
        fromActor := fromActor
                     + [FromActor(views[i].id, views[i].output.value, views[i].dropped, views[i].running)];
      }
    }
    assert views[..|views|] == views;
    var outputs: map<TerminalId, Slot>, exited: set<TerminalId> := map[], {};
    assert Tabled(views, [], outputs, exited);
    assert transcript[..0] == [];
    for i := 0 to |transcript|
      invariant Tabled(views, transcript[..i], outputs, exited)
    {
      assert transcript[..i + 1] == transcript[..i] + [transcript[i]];
      outputs, exited := ReadEntry(views, transcript[..i], transcript[i], outputs, exited);
    }
    assert transcript[..|transcript|] == transcript;
    rest := SendOutputs(views, live, transcript, outputs, exited);
  }

  /** Sent: all that is owed to the terminals that are not still to do, each once, closing after showing. */
  ghost predicate SentBut(views: seq<RetainedView>, live: set<TerminalId>, transcript: seq<Entry>,
                          todo: set<TerminalId>, rest: seq<Update>) {
    && (forall u :: u in rest <==> u.id !in todo && Owed(views, live, transcript, u))
    && (forall i, j :: 0 <= i < j < |rest| ==> rest[i] != rest[j])
    && (forall j :: 0 <= j < |rest| && rest[j].Close? ==> j > 0 && ShowsAgain(rest[j - 1], rest[j].id))
  }

  lemma SendOneMore(views: seq<RetainedView>, live: set<TerminalId>, transcript: seq<Entry>,
                    todo: set<TerminalId>, rest: seq<Update>, id: TerminalId, added: seq<Update>)
    requires SentBut(views, live, transcript, todo, rest) && id in todo
    requires added != [] && ShowsAgain(added[0], id) && (added[1..] == [] || added[1..] == [Close(id)])
    requires forall u: Update :: u.id == id ==> (u in added <==> Owed(views, live, transcript, u))
    ensures SentBut(views, live, transcript, todo - {id}, rest + added)
  {
    var all := rest + added;
    assert |added| == 1 + |added[1..]|;
    assert |added| == 2 ==> added[1] == added[1..][0];
    forall u: Update ensures u in all <==> u.id !in todo - {id} && Owed(views, live, transcript, u) {
      assert u in all <==> u in rest || u in added;
      assert u in added ==> u.id == id;
    }
    forall i, j | 0 <= i < j < |all| ensures all[i] != all[j] {
      if i < |rest| <= j {
        assert rest[i] in rest;
      }
    }
  }

  method SendOutputs(ghost views: seq<RetainedView>, live: set<TerminalId>, ghost transcript: seq<Entry>,
                     outputs: map<TerminalId, Slot>, exited: set<TerminalId>) returns (rest: seq<Update>)
    requires Tabled(views, transcript, outputs, exited)
    ensures forall u :: u in rest <==> Owed(views, live, transcript, u)
    ensures forall i, j :: 0 <= i < j < |rest| ==> rest[i] != rest[j]
    ensures forall j :: 0 <= j < |rest| && rest[j].Close? ==> j > 0 && ShowsAgain(rest[j - 1], rest[j].id)
  {
    rest := [];
    var todo := outputs.Keys;
    forall u: Update ensures u.id !in todo ==> !Owed(views, live, transcript, u) {
      assert TabledAt(views, transcript, outputs, exited, u.id);
    }
    while todo != {}
      invariant todo <= outputs.Keys && SentBut(views, live, transcript, todo, rest)
      decreases todo
    {
      var id :| id in todo;
      assert TabledAt(views, transcript, outputs, exited, id);
      var added := [FromTranscript(id, if outputs[id].streamed then outputs[id].bytes else outputs[id].text)];
      if id !in exited && id !in live {
        added := added + [Close(id)];
      }
      SendOneMore(views, live, transcript, todo, rest, id, added);
      rest := rest + added;
      todo := todo - {id};
    }
  }
}
