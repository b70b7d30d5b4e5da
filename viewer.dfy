/** The connection and outgoing-message logic of the OpenSpace data viewer,
    taken as sequential steps: the connection-state flags, one round of the
    outgoing-data drain and the readiness test that gates it, the listen loop
    and its handshake counter, the two receivers, disconnection, and the
    address normalisation of `reset_socket`. */
module Viewer {
  import opened Python
  import Net
  import Simp

  datatype ConnectionState = Disconnected | Connected | Connecting | SendingData

  /** The handshake is polled while the counter is at most this; the next poll times out. */
  const HandshakePolls: nat := 20

  /** The Connection message type, which the viewer names through a table `simp.py` does not define. */
  const ConnectionCode: string := "CONN"

  /** What the viewer reads and writes of one of its layers: the identifier and
      subject prefix the layer reports, and its `has_sent_initial_data` flag. */
  datatype LayerView = LayerView(identifier: Option<string>, subjectPrefix: string, hasSentInitialData: bool)

  /** One pending attribute of a layer: its key, its encoded data and how many values the data holds.
      A layer's pending attributes are a sequence of these; unlike the dict it
      stands for, a sequence may repeat a key, so the model admits more inputs
      than the original can build. */
  datatype PendingEntry = PendingEntry(key: string, data: string, count: int)

  /** A subject the drain sends on behalf of the layer at index `layer`. */
  datatype Outgoing = Outgoing(layer: nat, subject: string)

  /** A message handed on to the layer at index `layer`, with the offset just
      past the identifier and gui-name tokens. */
  datatype Delivery = Delivery(layer: nat, messageType: string, subject: string, offset: nat)

  /** Why the listen loop ended; `Paused` means the step bound ran out first. */
  datatype ListenExit = Stopped | LostConnection | HandshakeTimeout | Raised(error: Exception) | Paused

  // ---------------------------------------------------------------- the outgoing drain

  /** One pending entry on the wire: key, `;`, the four-byte count (only when
      there is more than one value), then the data. */
  function EntryBytes(e: PendingEntry, countBytes: int -> string): string
  {
    e.key + [Simp.Sep] + (if e.count > 1 then countBytes(e.count) else "") + e.data
  }

  function EntriesBytes(entries: seq<PendingEntry>, countBytes: int -> string): string
  {
    if entries == [] then ""
    else EntriesBytes(entries[..|entries| - 1], countBytes) + EntryBytes(entries[|entries| - 1], countBytes)
  }

  /** Every entry contributes at least its key and its `;`, so a non-empty map
      never yields an empty subject. */
  lemma {:induction false} EntriesBytesLength(entries: seq<PendingEntry>, countBytes: int -> string)
    ensures |EntriesBytes(entries, countBytes)| >= |entries|
  {
    if entries != [] {
      EntriesBytesLength(entries[..|entries| - 1], countBytes);
    }
  }

  /** The entries up to and including `j` are those before `j` and then entry `j`. */
  lemma EntriesBytesPrefix(entries: seq<PendingEntry>, j: nat, countBytes: int -> string)
    requires j < |entries|
    ensures EntriesBytes(entries[..j + 1], countBytes) == EntriesBytes(entries[..j], countBytes) + EntryBytes(entries[j], countBytes)
  {
    assert entries[..j + 1][..j] == entries[..j];
  }

  /** The loop that appends each entry of a layer's map to the subject buffer. */
  method BuildLayerSubject(prefix: string, entries: seq<PendingEntry>, countBytes: int -> string)
    returns (subject: string)
    ensures subject == prefix + EntriesBytes(entries, countBytes)
  {
    subject := prefix;
    for j := 0 to |entries|
      invariant subject == prefix + EntriesBytes(entries[..j], countBytes)
    {
      EntriesBytesPrefix(entries, j, countBytes);
      var e := entries[j];
      var countField := if e.count > 1 then countBytes(e.count) else "";
      subject := subject + (e.key + [Simp.Sep] + countField + e.data);
    }
    assert entries[..|entries|] == entries;
  }

  /** The drain sends for a layer whose identifier is neither missing nor empty
      and has pending entries. */
  predicate Drains(layer: LayerView, pending: map<string, seq<PendingEntry>>)
  {
    layer.identifier.Some? && layer.identifier.value != ""
    && layer.identifier.value in pending && pending[layer.identifier.value] != []
  }

  /** `outgoing_data_message_is_ready` without the mutex: some layer's map is non-empty. */
  predicate Ready(pending: map<string, seq<PendingEntry>>): (b: bool)
    ensures b <==> exists id :: id in pending && pending[id] != []
  {
    |pending| > 0 && exists id :: id in pending && pending[id] != []
  }

  datatype DrainResult = DrainResult(sent: seq<Outgoing>, pending: map<string, seq<PendingEntry>>)

  /** The subjects one drain round sends for the layers from index `i` on, and
      what is pending afterwards. */
  function DrainFrom(layers: seq<LayerView>, i: nat, pending: map<string, seq<PendingEntry>>, countBytes: int -> string): (r: DrainResult)
    ensures r.pending.Keys == pending.Keys
    ensures i <= |layers| ==> |r.sent| <= |layers| - i
    decreases |layers| - i
  {
    if i >= |layers| then DrainResult([], pending)
    else if Drains(layers[i], pending) then
      var id := layers[i].identifier.value;
      var rest := DrainFrom(layers, i + 1, pending[id := []], countBytes);
      DrainResult([Outgoing(i, layers[i].subjectPrefix + EntriesBytes(pending[id], countBytes))] + rest.sent, rest.pending)
    else DrainFrom(layers, i + 1, pending, countBytes)
  }

  /** Whether the layer at index `k` had a subject sent. */
  predicate WasSent(sent: seq<Outgoing>, k: nat)
  {
    exists j :: 0 <= j < |sent| && sent[j].layer == k
  }

  /** The layers below index `i` have their flag set when a subject was sent
      for them; the others are as in `original`. */
  predicate FlagsUpTo(layers: seq<LayerView>, original: seq<LayerView>, sent: seq<Outgoing>, i: nat)
  {
    && |layers| == |original| && i <= |layers|
    && (forall j :: 0 <= j < |sent| ==> sent[j].layer < i)
    && (forall k :: i <= k < |layers| ==> layers[k] == original[k])
    && (forall k :: 0 <= k < i ==>
          layers[k] == original[k].(hasSentInitialData := original[k].hasSentInitialData || WasSent(sent, k)))
  }

  /** Sending for layer `i` sets its flag and leaves the others. */
  lemma FlagSent(layers: seq<LayerView>, original: seq<LayerView>, sent: seq<Outgoing>, i: nat, o: Outgoing)
    requires FlagsUpTo(layers, original, sent, i) && i < |layers| && o.layer == i
    ensures FlagsUpTo(layers[i := layers[i].(hasSentInitialData := true)], original, sent + [o], i + 1)
  {
    var after := layers[i := layers[i].(hasSentInitialData := true)];
    var sent' := sent + [o];
    assert sent'[|sent|] == o;
    forall k | 0 <= k < i
      ensures WasSent(sent', k) == WasSent(sent, k)
    {
      if WasSent(sent', k) {
        var j :| 0 <= j < |sent'| && sent'[j].layer == k;
        assert sent'[j] == sent[j];
      }
      if WasSent(sent, k) {
        var j :| 0 <= j < |sent| && sent[j].layer == k;
        assert sent'[j] == sent[j];
      }
    }
    assert WasSent(sent', i);
  }

  /** Skipping layer `i` leaves its flag as it was. */
  lemma FlagSkipped(layers: seq<LayerView>, original: seq<LayerView>, sent: seq<Outgoing>, i: nat)
    requires FlagsUpTo(layers, original, sent, i) && i < |layers|
    ensures FlagsUpTo(layers, original, sent, i + 1)
  {
  }

  /** Some layer from index `i` on drains the map of `id`. */
  predicate Claimed(layers: seq<LayerView>, i: nat, id: string)
  {
    id != "" && exists k :: i <= k < |layers| && layers[k].identifier == Some(id)
  }

  /** Each subject in `sent` belongs to a later layer than the one before it,
      that layer's identifier had pending entries, and the subject is the
      layer's prefix followed by those entries. */
  predicate DrainOrder(layers: seq<LayerView>, i: nat, pending: map<string, seq<PendingEntry>>, countBytes: int -> string, sent: seq<Outgoing>)
  {
    && (forall j :: 0 <= j < |sent| ==>
          && i <= sent[j].layer < |layers|
          && Drains(layers[sent[j].layer], pending)
          && sent[j].subject == layers[sent[j].layer].subjectPrefix + EntriesBytes(pending[layers[sent[j].layer].identifier.value], countBytes))
    && (forall j, j' :: 0 <= j < j' < |sent| ==> sent[j].layer < sent[j'].layer)
  }

  /** Sending for layer `i` in front of a well-ordered send list for the later
      layers, computed on the map with `i`'s entries cleared, keeps the order. */
  lemma DrainOrderCons(layers: seq<LayerView>, i: nat, pending: map<string, seq<PendingEntry>>, countBytes: int -> string, rest: seq<Outgoing>)
    requires i < |layers| && Drains(layers[i], pending)
    requires DrainOrder(layers, i + 1, pending[layers[i].identifier.value := []], countBytes, rest)
    ensures DrainOrder(layers, i, pending, countBytes,
      [Outgoing(i, layers[i].subjectPrefix + EntriesBytes(pending[layers[i].identifier.value], countBytes))] + rest)
  {
    var id := layers[i].identifier.value;
    var p' := pending[id := []];
    var sent := [Outgoing(i, layers[i].subjectPrefix + EntriesBytes(pending[id], countBytes))] + rest;
    forall j | 0 <= j < |sent|
      ensures i <= sent[j].layer < |layers| && Drains(layers[sent[j].layer], pending)
      ensures sent[j].subject == layers[sent[j].layer].subjectPrefix + EntriesBytes(pending[layers[sent[j].layer].identifier.value], countBytes)
    {
      if j > 0 {
        assert sent[j] == rest[j - 1];
        assert Drains(layers[rest[j - 1].layer], p');
        var other := layers[rest[j - 1].layer].identifier.value;
        assert other != id && p'[other] == pending[other];
      }
    }
    forall j, j' | 0 <= j < j' < |sent|
      ensures sent[j].layer < sent[j'].layer
    {
      assert sent[j'] == rest[j' - 1];
      if j > 0 {
        assert sent[j] == rest[j - 1];
      }
    }
  }

  /** The drain sends in layer order, only for layers with pending entries,
      and each subject holds the entries as they stood before the round. */
  lemma {:induction false} DrainSent(layers: seq<LayerView>, i: nat, pending: map<string, seq<PendingEntry>>, countBytes: int -> string)
    ensures DrainOrder(layers, i, pending, countBytes, DrainFrom(layers, i, pending, countBytes).sent)
    decreases |layers| - i
  {
    if i < |layers| {
      if Drains(layers[i], pending) {
        var id := layers[i].identifier.value;
        DrainSent(layers, i + 1, pending[id := []], countBytes);
        DrainOrderCons(layers, i, pending, countBytes, DrainFrom(layers, i + 1, pending[id := []], countBytes).sent);
      } else {
        DrainSent(layers, i + 1, pending, countBytes);
      }
    }
  }

  /** `after` has the identifiers of `pending`, with the maps that some layer
      from `i` on claims emptied and the others untouched. */
  predicate ClearedClaimed(layers: seq<LayerView>, i: nat, pending: map<string, seq<PendingEntry>>, after: map<string, seq<PendingEntry>>)
  {
    && after.Keys == pending.Keys
    && forall id :: id in pending ==> after[id] == if Claimed(layers, i, id) then [] else pending[id]
  }

  /** After the round, every map that some layer claims is empty, every other
      map is as it was, and no identifier is added or removed. */
  lemma {:induction false} DrainClears(layers: seq<LayerView>, i: nat, pending: map<string, seq<PendingEntry>>, countBytes: int -> string)
    ensures ClearedClaimed(layers, i, pending, DrainFrom(layers, i, pending, countBytes).pending)
    decreases |layers| - i
  {
    if i < |layers| {
      if Drains(layers[i], pending) {
        var id := layers[i].identifier.value;
        DrainClears(layers, i + 1, pending[id := []], countBytes);
      } else {
        DrainClears(layers, i + 1, pending, countBytes);
      }
      forall id | id in pending
        ensures Claimed(layers, i, id) <==> (id != "" && layers[i].identifier == Some(id)) || Claimed(layers, i + 1, id)
      {
        if Claimed(layers, i, id) && !(id != "" && layers[i].identifier == Some(id)) {
          var k :| i <= k < |layers| && layers[k].identifier == Some(id);
          assert k != i;
        }
      }
    }
  }

  /** Some subject in `sent` is for a layer that carries `id`. */
  predicate SentTo(layers: seq<LayerView>, sent: seq<Outgoing>, id: string)
  {
    exists j :: 0 <= j < |sent| && sent[j].layer < |layers| && layers[sent[j].layer].identifier == Some(id)
  }

  /** Every claimed identifier that had entries gets a subject sent for a
      layer that carries it. */
  lemma {:induction false} DrainComplete(layers: seq<LayerView>, i: nat, pending: map<string, seq<PendingEntry>>, countBytes: int -> string, id: string)
    requires id in pending && pending[id] != [] && Claimed(layers, i, id)
    ensures SentTo(layers, DrainFrom(layers, i, pending, countBytes).sent, id)
    decreases |layers| - i
  {
    var sent := DrainFrom(layers, i, pending, countBytes).sent;
    var k :| i <= k < |layers| && layers[k].identifier == Some(id);
    if layers[i].identifier == Some(id) {
      assert Drains(layers[i], pending);
      assert sent[0].layer == i;
    } else {
      assert k != i;
      assert Claimed(layers, i + 1, id);
      if Drains(layers[i], pending) {
        var other := layers[i].identifier.value;
        var p' := pending[other := []];
        DrainComplete(layers, i + 1, p', countBytes, id);
        var rest := DrainFrom(layers, i + 1, p', countBytes).sent;
        var j :| 0 <= j < |rest| && rest[j].layer < |layers| && layers[rest[j].layer].identifier == Some(id);
        assert sent[j + 1] == rest[j];
      } else {
        DrainComplete(layers, i + 1, pending, countBytes, id);
      }
    }
  }

  /** The round leaves nothing ready exactly when every identifier with
      entries is claimed by some layer; entries for other identifiers stay. */
  lemma DrainSettles(layers: seq<LayerView>, pending: map<string, seq<PendingEntry>>, countBytes: int -> string)
    ensures !Ready(DrainFrom(layers, 0, pending, countBytes).pending) <==>
      forall id :: id in pending && pending[id] != [] ==> Claimed(layers, 0, id)
  {
    DrainClears(layers, 0, pending, countBytes);
  }

  /** What the drain's sends produce in turn: the frames delivered, whether
      some send failed every attempt, and what is left of the send script. */
  datatype SendLog = SendLog(delivered: seq<string>, failed: bool, rest: seq<bool>)

  /** The subjects `sent`, each written with `send_simp_message`'s retry loop,
      one after the other on the same socket. */
  function SendSeries(script: seq<bool>, usable: bool, retries: nat, messageType: string, sent: seq<Outgoing>): SendLog
    decreases |sent|
  {
    if sent == [] then SendLog([], false, script)
    else
      var frame := Simp.BuildFrame(messageType, sent[0].subject);
      var delivered := Simp.Delivers(script, usable, retries);
      var more := SendSeries(Simp.Drop(script, Simp.Attempts(script, usable, retries)), usable, retries, messageType, sent[1..]);
      SendLog((if delivered then [frame] else []) + more.delivered, !delivered || more.failed, more.rest)
  }

  /** Moving the next subject from the plan's remainder to what has been sent. */
  lemma ShiftStep(sent: seq<Outgoing>, o: Outgoing, tail: seq<Outgoing>, all: seq<Outgoing>)
    requires sent + ([o] + tail) == all
    ensures (sent + [o]) + tail == all
  {
  }

  /** What a drain round starts from: the layers, whether the socket can
      send, the lost flag, the round's plan and the sends it will make, and
      the frames the socket had already accepted. */
  datatype DrainRound = DrainRound(original: seq<LayerView>, usable: bool, lost0: bool, plan: DrainResult, log: SendLog, written0: seq<string>)

  /** How far a drain round has come once the layers below `i` are done:
      `sent` are the subjects sent so far, and what the plan still holds for
      the layers from `i` on, sent from a socket whose script is now `script`,
      completes the round's plan. */
  ghost predicate DrainedState(r: DrainRound, i: nat, sent: seq<Outgoing>, dataType: string, countBytes: int -> string, retries: nat,
                               layers: seq<LayerView>, pending: map<string, seq<PendingEntry>>, usable: bool, script: seq<bool>,
                               lost: bool, hasSocket: bool, written: seq<string>)
  {
    && usable == r.usable
    && FlagsUpTo(layers, r.original, sent, i)
    && sent + DrainFrom(r.original, i, pending, countBytes).sent == r.plan.sent
    && DrainFrom(r.original, i, pending, countBytes).pending == r.plan.pending
    && var now := SendSeries(script, usable, retries, dataType, DrainFrom(r.original, i, pending, countBytes).sent);
       && (r.lost0 || r.log.failed) == (lost || now.failed)
       && r.log.rest == now.rest
       && (hasSocket ==> r.written0 + r.log.delivered == written + now.delivered)
  }

  /** Draining layer `i` moves its subject from the plan to what was sent. */
  lemma DrainAdvance(r: DrainRound, i: nat, sent: seq<Outgoing>, dataType: string, countBytes: int -> string, retries: nat,
                     layers: seq<LayerView>, pending: map<string, seq<PendingEntry>>, script: seq<bool>,
                     lost: bool, hasSocket: bool, written: seq<string>)
    requires DrainedState(r, i, sent, dataType, countBytes, retries, layers, pending, r.usable, script, lost, hasSocket, written)
    requires i < |layers| && Drains(layers[i], pending)
    ensures var id := layers[i].identifier.value;
      var step := Outgoing(i, layers[i].subjectPrefix + EntriesBytes(pending[id], countBytes));
      var one := SendSeries(script, r.usable, retries, dataType, [step]);
      DrainedState(r, i + 1, sent + [step], dataType, countBytes, retries,
                   layers[i := layers[i].(hasSentInitialData := true)], pending[id := []], r.usable, one.rest,
                   lost || one.failed, hasSocket, written + one.delivered)
  {
    var id := layers[i].identifier.value;
    var step := Outgoing(i, layers[i].subjectPrefix + EntriesBytes(pending[id], countBytes));
    assert layers[i] == r.original[i];
    var tail := DrainFrom(r.original, i + 1, pending[id := []], countBytes).sent;
    assert DrainFrom(r.original, i, pending, countBytes).sent == [step] + tail;
    SendSeriesCons(script, r.usable, retries, dataType, step, tail);
    var one := SendSeries(script, r.usable, retries, dataType, [step]);
    var more := SendSeries(one.rest, r.usable, retries, dataType, tail);
    assert written + (one.delivered + more.delivered) == (written + one.delivered) + more.delivered;
    FlagSent(layers, r.original, sent, i, step);
    ShiftStep(sent, step, tail, r.plan.sent);
  }

  /** A round about to start has sent nothing and has the whole plan ahead. */
  lemma DrainBegins(r: DrainRound, dataType: string, countBytes: int -> string, retries: nat,
                    pending: map<string, seq<PendingEntry>>, script: seq<bool>, lost: bool, hasSocket: bool, written: seq<string>)
    requires r.plan == DrainFrom(r.original, 0, pending, countBytes)
    requires r.log == SendSeries(script, r.usable, retries, dataType, r.plan.sent)
    requires r.lost0 == lost && r.written0 == written
    ensures DrainedState(r, 0, [], dataType, countBytes, retries, r.original, pending, r.usable, script, lost, hasSocket, written)
  {
    assert [] + r.plan.sent == r.plan.sent;
  }

  /** A round past its last layer has sent its whole plan: what the drain
      promises follows from the bookkeeping. */
  lemma DrainEnds(r: DrainRound, sent: seq<Outgoing>, dataType: string, countBytes: int -> string, retries: nat,
                  layers: seq<LayerView>, pending: map<string, seq<PendingEntry>>, script: seq<bool>,
                  lost: bool, hasSocket: bool, written: seq<string>)
    requires DrainedState(r, |layers|, sent, dataType, countBytes, retries, layers, pending, r.usable, script, lost, hasSocket, written)
    ensures sent == r.plan.sent && pending == r.plan.pending
    ensures lost == (r.lost0 || r.log.failed) && script == r.log.rest
    ensures hasSocket ==> written == r.written0 + r.log.delivered
    ensures |layers| == |r.original|
    ensures forall k :: 0 <= k < |layers| ==>
      layers[k] == r.original[k].(hasSentInitialData := r.original[k].hasSentInitialData || WasSent(r.plan.sent, k))
  {
    assert DrainFrom(r.original, |layers|, pending, countBytes) == DrainResult([], pending);
    assert sent + [] == sent;
  }

  /** A layer that does not drain changes nothing. */
  lemma DrainPass(r: DrainRound, i: nat, sent: seq<Outgoing>, dataType: string, countBytes: int -> string, retries: nat,
                  layers: seq<LayerView>, pending: map<string, seq<PendingEntry>>, script: seq<bool>,
                  lost: bool, hasSocket: bool, written: seq<string>)
    requires DrainedState(r, i, sent, dataType, countBytes, retries, layers, pending, r.usable, script, lost, hasSocket, written)
    requires i < |layers| && !Drains(layers[i], pending)
    ensures DrainedState(r, i + 1, sent, dataType, countBytes, retries, layers, pending, r.usable, script, lost, hasSocket, written)
  {
    assert layers[i] == r.original[i];
    FlagSkipped(layers, r.original, sent, i);
  }

  /** A single subject is one run of the retry loop. */
  lemma SendSeriesOne(script: seq<bool>, usable: bool, retries: nat, messageType: string, o: Outgoing)
    ensures var d := Simp.Delivers(script, usable, retries);
      SendSeries(script, usable, retries, messageType, [o])
        == SendLog(if d then [Simp.BuildFrame(messageType, o.subject)] else [], !d,
                   Simp.Drop(script, Simp.Attempts(script, usable, retries)))
  {
    assert [o][1..] == [];
  }

  /** Sending one subject and then the rest is the same as sending them all. */
  lemma SendSeriesCons(script: seq<bool>, usable: bool, retries: nat, messageType: string, o: Outgoing, tail: seq<Outgoing>)
    ensures var one := SendSeries(script, usable, retries, messageType, [o]);
      var more := SendSeries(one.rest, usable, retries, messageType, tail);
      var whole := SendSeries(script, usable, retries, messageType, [o] + tail);
      && whole.delivered == one.delivered + more.delivered
      && whole.failed == (one.failed || more.failed)
      && whole.rest == more.rest
  {
    assert ([o] + tail)[1..] == tail && ([o] + tail)[0] == o;
    assert [o][1..] == [];
  }

  /** Either no send failed and every subject went out, in order, or fewer
      frames than subjects were delivered. */
  predicate AllOrLost(log: SendLog, messageType: string, sent: seq<Outgoing>)
  {
    && |log.delivered| <= |sent|
    && (!log.failed <==> |log.delivered| == |sent|)
    && (!log.failed ==> forall j :: 0 <= j < |sent| ==> log.delivered[j] == Simp.BuildFrame(messageType, sent[j].subject))
  }

  /** No send failed exactly when every subject was delivered, and then the
      frames went out in the drain's order. */
  lemma {:induction false} SendSeriesComplete(script: seq<bool>, usable: bool, retries: nat, messageType: string, sent: seq<Outgoing>)
    ensures AllOrLost(SendSeries(script, usable, retries, messageType, sent), messageType, sent)
    decreases |sent|
  {
    if sent != [] {
      var rest := Simp.Drop(script, Simp.Attempts(script, usable, retries));
      SendSeriesComplete(rest, usable, retries, messageType, sent[1..]);
      var more := SendSeries(rest, usable, retries, messageType, sent[1..]);
      if !Simp.Delivers(script, usable, retries) {
        assert SendSeries(script, usable, retries, messageType, sent).delivered == more.delivered;
      }
    }
  }

  // ---------------------------------------------------------------- routing received data

  /** The layers whose identifier equals `identifier`, in order, each with the message. */
  function Route(layers: seq<LayerView>, identifier: string, messageType: string, subject: string, offset: nat): (r: seq<Delivery>)
    ensures |r| <= |layers|
    ensures forall j :: 0 <= j < |r| ==>
      && r[j].layer < |layers| && layers[r[j].layer].identifier == Some(identifier)
      && r[j].messageType == messageType && r[j].subject == subject && r[j].offset == offset
  {
    if layers == [] then []
    else
      Route(layers[..|layers| - 1], identifier, messageType, subject, offset)
      + (if layers[|layers| - 1].identifier == Some(identifier)
         then [Delivery(|layers| - 1, messageType, subject, offset)] else [])
  }

  /** `r` hands the message, unchanged, to exactly the layers carrying
      `identifier`, once each and in layer order. */
  predicate RoutedExactly(layers: seq<LayerView>, identifier: string, messageType: string, subject: string, offset: nat, r: seq<Delivery>)
  {
    && (forall j :: 0 <= j < |r| ==>
          && r[j].layer < |layers| && layers[r[j].layer].identifier == Some(identifier)
          && r[j] == Delivery(r[j].layer, messageType, subject, offset))
    && (forall j, j' :: 0 <= j < j' < |r| ==> r[j].layer < r[j'].layer)
    && (forall k :: 0 <= k < |layers| && layers[k].identifier == Some(identifier) ==>
          exists j :: 0 <= j < |r| && r[j].layer == k)
  }

  /** A message reaches exactly the layers with the identifier read, once each,
      in layer order, unchanged. */
  lemma {:induction false} RouteExact(layers: seq<LayerView>, identifier: string, messageType: string, subject: string, offset: nat)
    ensures RoutedExactly(layers, identifier, messageType, subject, offset, Route(layers, identifier, messageType, subject, offset))
  {
    if layers != [] {
      var init := layers[..|layers| - 1];
      RouteExact(init, identifier, messageType, subject, offset);
      var r0 := Route(init, identifier, messageType, subject, offset);
      var r := Route(layers, identifier, messageType, subject, offset);
      assert forall j :: 0 <= j < |r0| ==> r[j] == r0[j];
      forall k | 0 <= k < |layers| && layers[k].identifier == Some(identifier)
        ensures exists j :: 0 <= j < |r| && r[j].layer == k
      {
        if k < |init| {
          assert init[k] == layers[k];
          var j :| 0 <= j < |r0| && r0[j].layer == k;
          assert r[j].layer == k;
        } else {
          assert r[|r0|].layer == k;
        }
      }
    }
  }

  /** What `receive_message` hands on for a parsed frame: nothing for a
      Connection message or when either leading token cannot be read, and
      otherwise the message for each layer with the identifier read. */
  function Deliveries(layers: seq<LayerView>, frame: Simp.Frame): (r: seq<Delivery>)
    ensures frame.messageType == ConnectionCode ==> r == []
    ensures forall j :: 0 <= j < |r| ==>
      && r[j].layer < |layers| && r[j].messageType == frame.messageType && r[j].subject == frame.subject
      && layers[r[j].layer].identifier.Some? && r[j].offset <= |frame.subject|
  {
    if frame.messageType == ConnectionCode then []
    else
      match Simp.Scan(frame.subject, 0, 0)
      case Err(_) => []
      case Ok(id) =>
        match Simp.Scan(frame.subject, id.next, id.next)
        case Err(_) => []
        case Ok(gui) => Route(layers, id.value, frame.messageType, frame.subject, gui.next)
  }

  /** A data subject that starts with an identifier and a gui-name token goes
      to the layers with that identifier, with the offset just past both tokens. */
  lemma DeliveriesOfDataSubject(layers: seq<LayerView>, messageType: string, identifier: string, guiName: string, rest: string)
    requires messageType != ConnectionCode
    requires |identifier| > 0 && Simp.Sep !in identifier && Simp.Escape !in identifier
    requires |guiName| > 0 && Simp.Sep !in guiName && Simp.Escape !in guiName
    ensures var subject := identifier + [Simp.Sep] + guiName + [Simp.Sep] + rest;
      Deliveries(layers, Simp.Frame(messageType, subject))
        == Route(layers, identifier, messageType, subject, |identifier| + |guiName| + 2)
  {
    var subject := identifier + [Simp.Sep] + guiName + [Simp.Sep] + rest;
    var tail := guiName + [Simp.Sep] + rest;
    assert subject == [] + identifier + [Simp.Sep] + tail;
    assert ([] + identifier)[|identifier| - 1] == identifier[|identifier| - 1];
    Simp.TokenRoundTrip([], identifier, tail);
    var prefix := identifier + [Simp.Sep];
    assert subject == prefix + guiName + [Simp.Sep] + rest;
    assert (prefix + guiName)[|prefix + guiName| - 1] == guiName[|guiName| - 1];
    Simp.TokenRoundTrip(prefix, guiName, rest);
    DeliveriesOfTokens(layers, Simp.Frame(messageType, subject), Simp.Read(identifier, |identifier| + 1),
                       Simp.Read(guiName, |identifier| + |guiName| + 2));
  }

  /** A data frame whose two leading tokens read as `id` and `gui` goes to the layers carrying `id`. */
  lemma DeliveriesOfTokens(layers: seq<LayerView>, frame: Simp.Frame, id: Simp.Read<string>, gui: Simp.Read<string>)
    requires frame.messageType != ConnectionCode
    requires Simp.Scan(frame.subject, 0, 0) == Ok(id) && Simp.Scan(frame.subject, id.next, id.next) == Ok(gui)
    ensures Deliveries(layers, frame) == Route(layers, id.value, frame.messageType, frame.subject, gui.next)
  {
  }

  /** A frame built for a 4-character type completes the handshake exactly when that type is `CONN`. */
  lemma HandshakeRecognises(messageType: string, subject: string, rest: string)
    requires |messageType| == 4 && |subject| < Pow10(Simp.LengthWidth)
    ensures var f := Simp.ParseMessage(Simp.BuildFrame(messageType, subject) + rest);
      f.Ok? && (f.value.messageType == ConnectionCode <==> messageType == ConnectionCode)
  {
    Simp.FrameRoundTrip(messageType, subject, rest);
  }

  // ---------------------------------------------------------------- address normalisation

  const TcpScheme: string := "tcp://"
  const LocalHost: string := "localhost"
  const LoopbackAddress: string := "127.0.0.1"
  const DefaultPortNumber: nat := 4700

  function InvalidAddress(ip: string): string
  {
    "The IP address " + ip + " is invalid"
  }

  /** The port handed to `create_connection`: the text after `:`, or 4700 when that is empty. */
  datatype Port = PortText(text: string) | DefaultPort

  datatype Address = Address(host: string, port: Port)

  /** `any(not float(n).is_integer() for n in parts)`: stops at the first part
      that is not integral; `integral` is `None` where `float()` raises. */
  function AnyNonIntegral(parts: seq<string>, integral: string -> Option<bool>): (r: Result<bool>)
    ensures r == Ok(false) <==> forall i :: 0 <= i < |parts| ==> integral(parts[i]) == Some(true)
    ensures r == Ok(true) ==> exists i :: 0 <= i < |parts| && integral(parts[i]) == Some(false)
    ensures r.Err? ==> r.error == ValueError && exists i :: 0 <= i < |parts| && integral(parts[i]).None?
  {
    if parts == [] then Ok(false)
    else
      match integral(parts[0])
      case None => Err(ValueError)
      case Some(b) =>
        if !b then Ok(true)
        else
          var r := AnyNonIntegral(parts[1..], integral);
          assert forall i :: 1 <= i < |parts| ==> parts[i] == parts[1..][i - 1];
          r
  }

  /** Lower-casing, the length check, the `tcp://` strip, the host/port split
      and the `localhost` rewrite. */
  function SplitHostPort(text: string): (r: Result<(string, string)>)
    ensures |Lower(text)| < 8 ==> r == Err(SimpError(InvalidAddress(Lower(text))))
    ensures r.Ok? ==> ':' !in r.value.0 && ':' !in r.value.1 && r.value.0 != LocalHost
    ensures r.Err? ==> r.error == ValueError || r.error.SimpError?
  {
    var ip := Lower(text);
    if |ip| < 8 then Err(SimpError(InvalidAddress(ip)))
    else
      var ip := if StartsWith(ip, TcpScheme) then ip[|TcpScheme|..] else ip;
      var hostPort := Split(ip, ':');
      SplitParts(ip, ':');
      if |hostPort| != 2 then Err(ValueError)
      else Ok((if hostPort[0] == LocalHost then LoopbackAddress else hostPort[0], hostPort[1]))
  }

  /** The numeral check that guards the address. It runs only when the host
      does not have four dot-separated parts; it then asks every part, and the
      port, to be an integral numeral. */
  function CheckNumerals(host: string, port: string, integral: string -> Option<bool>): (r: Result<()>)
    ensures |Split(host, '.')| == 4 ==> r == Ok(())
    ensures r.Ok? && |Split(host, '.')| != 4 ==>
      && (forall i :: 0 <= i < |Split(host, '.')| ==> integral(Split(host, '.')[i]) == Some(true))
      && integral(port) == Some(true)
    ensures r.Err? ==> r.error == ValueError || r.error == SimpError(InvalidAddress(host))
  {
    var parts := Split(host, '.');
    if |parts| == 4 then Ok(())
    else
      match AnyNonIntegral(parts, integral)
      case Err(e) => Err(e)
      case Ok(bad) =>
        if bad then Err(SimpError(InvalidAddress(host)))
        else
          match integral(port)
          case None => Err(ValueError)
          case Some(whole) => if whole then Ok(()) else Err(SimpError(InvalidAddress(host)))
  }

  /** The address `reset_socket` connects to, or the exception it raises first. */
  function NormaliseAddress(text: string, integral: string -> Option<bool>): (r: Result<Address>)
    ensures r.Ok? ==> r.value.host != LocalHost && ':' !in r.value.host
    ensures r.Ok? && r.value.port.PortText? ==> r.value.port.text != "" && ':' !in r.value.port.text
    ensures r.Err? ==> r.error == ValueError || r.error.SimpError?
  {
    var hostPort :- SplitHostPort(text);
    var _ :- CheckNumerals(hostPort.0, hostPort.1, integral);
    Ok(Address(hostPort.0, if hostPort.1 != "" then PortText(hostPort.1) else DefaultPort))
  }

  predicate NoUpper(s: string)
  {
    forall i :: 0 <= i < |s| ==> !('A' <= s[i] <= 'Z')
  }

  lemma LowerNoUpper(s: string)
    requires NoUpper(s)
    ensures Lower(s) == s
  {
  }

  lemma NoUpperConcat(a: string, b: string)
    requires NoUpper(a) && NoUpper(b)
    ensures NoUpper(a + b)
  {
    forall i | 0 <= i < |a + b| ensures !('A' <= (a + b)[i] <= 'Z') {
      if i < |a| { assert (a + b)[i] == a[i]; } else { assert (a + b)[i] == b[i - |a|]; }
    }
  }

  /** `host:port` splits at its one `:`. */
  lemma SplitAddress(host: string, port: string)
    requires ':' !in host && ':' !in port
    ensures Split(host + ":" + port, ':') == [host, port]
  {
    assert host + ":" + port == host + [':'] + port;
    SplitCons(host, ':', port);
    SplitNone(port, ':');
  }

  /** A lower-case `host:port` text, with or without `tcp://` in front and
      long enough to pass the length check, yields its host, with `localhost`
      rewritten, and its port. */
  lemma SplitHostPortText(scheme: string, host: string, port: string)
    requires scheme == "" || scheme == TcpScheme
    requires NoUpper(host) && NoUpper(port) && ':' !in host && ':' !in port
    requires |scheme + host + ":" + port| >= 8
    requires scheme == TcpScheme || !StartsWith(host + ":" + port, TcpScheme)
    ensures SplitHostPort(scheme + host + ":" + port) == Ok((if host == LocalHost then LoopbackAddress else host, port))
  {
    var rest := host + ":" + port;
    NoUpperConcat(host, ":");
    NoUpperConcat(host + ":", port);
    assert NoUpper(scheme);
    NoUpperConcat(scheme, rest);
    assert scheme + host + ":" + port == scheme + rest;
    LowerNoUpper(scheme + rest);
    if scheme == TcpScheme {
      assert (scheme + rest)[..|TcpScheme|] == TcpScheme;
      assert (scheme + rest)[|TcpScheme|..] == rest;
    } else {
      assert scheme + rest == rest;
    }
    SplitAddress(host, port);
  }

  /** A host with four dot parts normalises with its port, whatever the numeral test says. */
  lemma NormaliseFourParts(scheme: string, host: string, port: string, integral: string -> Option<bool>)
    requires scheme == "" || scheme == TcpScheme
    requires NoUpper(host) && NoUpper(port) && ':' !in host && ':' !in port
    requires |scheme + host + ":" + port| >= 8
    requires scheme == TcpScheme || !StartsWith(host + ":" + port, TcpScheme)
    requires host != LocalHost && |Split(host, '.')| == 4
    ensures NormaliseAddress(scheme + host + ":" + port, integral)
      == Ok(Address(host, if port != "" then PortText(port) else DefaultPort))
  {
    SplitHostPortText(scheme, host, port);
  }

  lemma LoopbackParts()
    ensures |Split(LoopbackAddress, '.')| == 4
  {
    var one, two, seven, zero := ['1'], ['2'], ['7'], ['0'];
    var tail := zero + ['.'] + one;
    var mid := zero + ['.'] + tail;
    assert LoopbackAddress == (one + two + seven) + ['.'] + mid;
    SplitCons(one + two + seven, '.', mid);
    SplitCons(zero, '.', tail);
    SplitCons(zero, '.', one);
    SplitNone(one, '.');
  }

  /** `localhost:port` connects to the loopback address; an empty port means 4700. */
  lemma NormaliseLocalhost(port: string, integral: string -> Option<bool>)
    requires NoUpper(port) && ':' !in port
    ensures NormaliseAddress(LocalHost + ":" + port, integral)
      == Ok(Address(LoopbackAddress, if port != "" then PortText(port) else DefaultPort))
  {
    assert !StartsWith(LocalHost + ":" + port, TcpScheme) by {
      assert (LocalHost + ":" + port)[0] == 'l';
    }
    SplitHostPortText("", LocalHost, port);
    assert "" + LocalHost + ":" + port == LocalHost + ":" + port;
    LoopbackParts();
  }

  // ---------------------------------------------------------------- the viewer

  class DataViewer {
    /** `POLL_RETRIES`, the send budget of `send_simp_message`. */
    const pollRetries: nat
    var connectionState: ConnectionState
    var isConnected: bool
    var isConnecting: bool
    var lostConnection: bool
    var socket: Net.Socket?
    /** `_thread_running` of the listen loop and `_outgoing_data_message_thread_running`. */
    var threadRunning: bool
    var outgoingThreadRunning: bool
    var layers: seq<LayerView>
    /** `_outgoing_data_message`: per layer identifier, its pending entries in insertion order. */
    var outgoing: map<string, seq<PendingEntry>>
    /** Every message handed on to a layer's own `receive_message`, oldest first. */
    var forwarded: seq<Delivery>

    /** The flags agree with the connection state. */
    predicate Valid()
      reads this
    {
      && (connectionState == Connected ==> isConnected && !isConnecting)
      && (connectionState == Disconnected ==> !isConnected && !isConnecting)
      && (connectionState == Connecting ==> isConnecting)
    }

    constructor (pollRetries: nat, layers: seq<LayerView>)
      ensures this.pollRetries == pollRetries && this.layers == layers
      ensures socket == null && !threadRunning && !outgoingThreadRunning && outgoing == map[] && forwarded == []
      ensures connectionState == Disconnected && !isConnected && !isConnecting && !lostConnection
      ensures Valid()
    {
      this.pollRetries := pollRetries;
      this.layers := layers;
      socket := null;
      threadRunning, outgoingThreadRunning := false, false;
      outgoing := map[];
      forwarded := [];
      connectionState := Disconnected;
      isConnected, isConnecting, lostConnection := false, false, false;
    }

    /** `set_connection_state`: stores the new state, returns the old one and
        sets the flags the new state determines. */
    method SetConnectionState(newState: ConnectionState) returns (previous: ConnectionState)
      modifies this
      ensures previous == old(connectionState) && connectionState == newState
      ensures newState == Connected ==> isConnected && !isConnecting
      ensures newState == Disconnected ==> !isConnected && !isConnecting
      ensures newState == Connecting ==> isConnecting && isConnected == old(isConnected)
      ensures newState == SendingData ==> isConnected == old(isConnected) && isConnecting == old(isConnecting)
      ensures Valid()
      ensures lostConnection == old(lostConnection) && socket == old(socket) && layers == old(layers)
      ensures threadRunning == old(threadRunning) && outgoingThreadRunning == old(outgoingThreadRunning)
      ensures outgoing == old(outgoing) && forwarded == old(forwarded)
    {
      previous := connectionState;
      connectionState := newState;
      match newState
      case Connected =>
        isConnected, isConnecting := true, false;
      case Disconnected =>
        isConnected, isConnecting := false, false;
      case Connecting =>
        isConnecting := true;
      case SendingData =>
    }

    /** `outgoing_data_message_is_ready`, apart from the mutex test. */
    predicate OutgoingDataMessageIsReady(): (ready: bool)
      reads this
      ensures ready <==> |outgoing| > 0 && exists id :: id in outgoing && outgoing[id] != []
    {
      Ready(outgoing)
    }

    /** What is left of the socket's send script, and whether its sends can succeed. */
    function SendScript(): seq<bool>
      reads this, socket
    {
      if socket != null then socket.sendScript else []
    }

    predicate Usable()
      reads this, socket
    {
      socket != null && socket.open
    }

    /** The socket's reading side, the connection flags, the loops' flags and
        the forwarded messages are as they were. */
    twostate predicate ConnectionKept()
      reads this, socket
    {
      && socket == old(socket)
      && (socket != null ==> socket.open == old(socket.open) && socket.readScript == old(socket.readScript))
      && connectionState == old(connectionState) && isConnected == old(isConnected) && isConnecting == old(isConnecting)
      && threadRunning == old(threadRunning) && outgoingThreadRunning == old(outgoingThreadRunning) && forwarded == old(forwarded)
    }

    /** The drain's work on the layer at index `i`: a layer with a usable
        identifier and pending entries has its subject built, its map cleared,
        the subject sent and its `has_sent_initial_data` set; any other layer
        is skipped. */
    method DrainLayer(i: nat, dataType: string, countBytes: int -> string)
      requires i < |layers|
      modifies this, socket
      ensures ConnectionKept()
      ensures Drains(old(layers[i]), old(outgoing)) ==> SentLayer(i, dataType, countBytes)
      ensures !Drains(old(layers[i]), old(outgoing)) ==>
        && outgoing == old(outgoing) && layers == old(layers) && lostConnection == old(lostConnection)
        && SendScript() == old(SendScript()) && (socket != null ==> socket.written == old(socket.written))
    {
      var layer := layers[i];
      if layer.identifier.None? || layer.identifier.value == "" || layer.identifier.value !in outgoing {
        return;
      }
      if |outgoing[layer.identifier.value]| == 0 {
        return;
      }
      SendLayer(i, dataType, countBytes);
    }

    /** What sending the subject of the draining layer `i` did: its map is
        empty, its flag set, and the socket ran the retry loop on the frame. */
    twostate predicate SentLayer(i: nat, dataType: string, countBytes: int -> string)
      reads this, socket
    {
      && socket == old(socket)
      && i < |old(layers)| && Drains(old(layers[i]), old(outgoing))
      && var id := old(layers[i]).identifier.value;
         var subject := old(layers[i]).subjectPrefix + EntriesBytes(old(outgoing)[id], countBytes);
         var delivered := Simp.Delivers(old(SendScript()), old(Usable()), pollRetries);
         && outgoing == old(outgoing)[id := []]
         && layers == old(layers)[i := old(layers[i]).(hasSentInitialData := true)]
         && lostConnection == (old(lostConnection) || !delivered)
         && SendScript() == Simp.Drop(old(SendScript()), Simp.Attempts(old(SendScript()), old(Usable()), pollRetries))
         && (socket != null ==> socket.written == old(socket.written) + (if delivered then [Simp.BuildFrame(dataType, subject)] else []))
    }

    /** The body of the drain for a layer that has entries to send. */
    method SendLayer(i: nat, dataType: string, countBytes: int -> string)
      requires i < |layers| && Drains(layers[i], outgoing)
      modifies this, socket
      ensures ConnectionKept() && SentLayer(i, dataType, countBytes)
    {
      var layer := layers[i];
      var id := layer.identifier.value;
      var entries := outgoing[id];
      var subject := BuildLayerSubject(layer.subjectPrefix, entries, countBytes);
      outgoing := outgoing[id := []];
      EntriesBytesLength(entries, countBytes);
      if |subject| > 0 {
        var attempts, lost := Simp.SendSimpMessage(socket, dataType, subject, pollRetries, lostConnection);
        lostConnection := lost;
        layers := layers[i := layers[i].(hasSentInitialData := true)];
      }
    }

    /** `DrainedState` of the viewer's current fields. */
    ghost predicate DrainedUpTo(r: DrainRound, i: nat, sent: seq<Outgoing>, dataType: string, countBytes: int -> string)
      reads this, socket
    {
      DrainedState(r, i, sent, dataType, countBytes, pollRetries, layers, outgoing, Usable(), SendScript(),
                   lostConnection, socket != null, if socket != null then socket.written else [])
    }

    /** One pass of the drain loop, with the bookkeeping that carries the round's plan forward. */
    method DrainStep(ghost r: DrainRound, i: nat, ghost sent: seq<Outgoing>, dataType: string, countBytes: int -> string)
      returns (ghost sent': seq<Outgoing>)
      requires i < |layers| && DrainedUpTo(r, i, sent, dataType, countBytes)
      modifies this, socket
      ensures DrainedUpTo(r, i + 1, sent', dataType, countBytes)
      ensures socket == old(socket) && (socket != null ==> socket.readScript == old(socket.readScript))
      ensures connectionState == old(connectionState) && isConnected == old(isConnected) && isConnecting == old(isConnecting)
      ensures threadRunning == old(threadRunning) && outgoingThreadRunning == old(outgoingThreadRunning) && forwarded == old(forwarded)
    {
      ghost var script := SendScript();
      ghost var layers0, outgoing0, lost0 := layers, outgoing, lostConnection;
      ghost var written := if socket != null then socket.written else [];
      ghost var drains := Drains(layers[i], outgoing);
      ghost var usable := Usable();
      DrainLayer(i, dataType, countBytes);
      if drains {
        SendSeriesOne(script, usable, pollRetries, dataType,
          Outgoing(i, layers0[i].subjectPrefix + EntriesBytes(outgoing0[layers0[i].identifier.value], countBytes)));
        DrainAdvance(r, i, sent, dataType, countBytes, pollRetries, layers0, outgoing0, script, lost0, socket != null, written);
        var step := Outgoing(i, layers0[i].subjectPrefix + EntriesBytes(outgoing0[layers0[i].identifier.value], countBytes));
        sent' := sent + [step];
      } else {
        DrainPass(r, i, sent, dataType, countBytes, pollRetries, layers0, outgoing0, script, lost0, socket != null, written);
        sent' := sent;
      }
    }

    /** The drain loop over every layer, in order. */
    method DrainLayers(ghost r: DrainRound, dataType: string, countBytes: int -> string) returns (ghost sent: seq<Outgoing>)
      requires DrainedUpTo(r, 0, [], dataType, countBytes)
      modifies this, socket
      ensures DrainedUpTo(r, |layers|, sent, dataType, countBytes)
      ensures socket == old(socket) && (socket != null ==> socket.readScript == old(socket.readScript))
      ensures connectionState == old(connectionState) && isConnected == old(isConnected) && isConnecting == old(isConnecting)
      ensures threadRunning == old(threadRunning) && outgoingThreadRunning == old(outgoingThreadRunning) && forwarded == old(forwarded)
    {
      sent := [];
      var i := 0;
      while i < |layers|
        invariant i <= |layers|
        invariant DrainedUpTo(r, i, sent, dataType, countBytes)
        invariant socket == old(socket) && (socket != null ==> socket.readScript == old(socket.readScript))
        invariant connectionState == old(connectionState) && isConnected == old(isConnected) && isConnecting == old(isConnecting)
        invariant threadRunning == old(threadRunning) && outgoingThreadRunning == old(outgoingThreadRunning) && forwarded == old(forwarded)
      {
        sent := DrainStep(r, i, sent, dataType, countBytes);
        i := i + 1;
      }
    }

    /** One round of `outgoing_data_message_loop` once the gate has opened:
        the state shows SendingData, each layer's pending subject is sent and
        its map cleared, then the previous state comes back. */
    method OutgoingDataMessageRound(dataType: string, countBytes: int -> string)
      requires Valid()
      modifies this, socket
      ensures socket == old(socket)
      ensures var plan := DrainFrom(old(layers), 0, old(outgoing), countBytes);
        var log := SendSeries(old(SendScript()), old(Usable()), pollRetries, dataType, plan.sent);
        && outgoing == plan.pending
        && lostConnection == (old(lostConnection) || log.failed)
        && SendScript() == log.rest
        && (socket != null ==> socket.written == old(socket.written) + log.delivered)
        && |layers| == |old(layers)|
        && forall k :: 0 <= k < |layers| ==>
             layers[k] == old(layers[k]).(hasSentInitialData := old(layers[k]).hasSentInitialData || WasSent(plan.sent, k))
      ensures socket != null ==> socket.readScript == old(socket.readScript)
      ensures connectionState == old(connectionState) && isConnected == old(isConnected) && isConnecting == old(isConnecting)
      ensures threadRunning == old(threadRunning) && outgoingThreadRunning == old(outgoingThreadRunning) && forwarded == old(forwarded)
      ensures Valid()
    {
      ghost var plan := DrainFrom(layers, 0, outgoing, countBytes);
      ghost var written := if socket != null then socket.written else [];
      ghost var r := DrainRound(layers, Usable(), lostConnection, plan,
        SendSeries(SendScript(), Usable(), pollRetries, dataType, plan.sent), written);
      var previous := SetConnectionState(SendingData);
      DrainBegins(r, dataType, countBytes, pollRetries, outgoing, SendScript(), lostConnection, socket != null, written);
      ghost var sent := DrainLayers(r, dataType, countBytes);
      DrainEnds(r, sent, dataType, countBytes, pollRetries, layers, outgoing, SendScript(), lostConnection,
                socket != null, if socket != null then socket.written else []);
      var _ := SetConnectionState(previous);
    }

    /** The outcome of `read_socket` on the socket's next read. */
    function Received(): (r: Result<string>)
      reads this, socket
      ensures r == Err(AttributeError) <==> socket == null
      ensures r.Ok? ==> |r.value| >= 1
    {
      if socket == null then Err(AttributeError)
      else if !socket.open || |socket.readScript| == 0 then Err(DisconnectionException)
      else
        match socket.readScript[0]
        case SocketError => Err(DisconnectionException)
        case Bytes(data) => if |data| < 1 then Err(DisconnectionException) else Ok(data)
    }

    /** The next read, parsed as a SIMP frame. */
    function ReceivedFrame(): Result<Simp.Frame>
      reads this, socket
    {
      match Received()
      case Err(e) => Err(e)
      case Ok(data) => Simp.ParseMessage(data)
    }

    /** One read consumed the head of the read script and left the rest as it was. */
    twostate predicate ConsumedOneRead()
      reads this, socket
    {
      socket == old(socket)
      && (socket != null ==>
            && socket.readScript == (if |old(socket.readScript)| > 0 then old(socket.readScript)[1..] else [])
            && socket.sendScript == old(socket.sendScript) && socket.written == old(socket.written)
            && socket.open == old(socket.open))
    }

    /** `read_socket`: a failed or empty read raises `DisconnectionException`,
        and a missing socket raises `AttributeError`. */
    method ReadSocket() returns (r: Result<string>)
      modifies socket
      ensures r == old(Received())
      ensures ConsumedOneRead()
    {
      if socket == null {
        return Err(AttributeError);
      }
      var outcome := socket.Recv();
      match outcome
      case SocketError =>
        r := Err(DisconnectionException);
      case Bytes(data) =>
        if |data| < 1 {
          return Err(DisconnectionException);
        }
        r := Ok(data);
    }

    /** `receive_handshake`: a Connection message moves the viewer to Connected
        and starts the outgoing loop; any other message is ignored. The result
        says whether the handshake arrived. */
    method ReceiveHandshake() returns (r: Result<bool>)
      requires Valid()
      modifies this, socket
      ensures var f := old(ReceivedFrame());
        r == if f.Err? then Err(f.error) else Ok(f.value.messageType == ConnectionCode)
      ensures r == Ok(true) ==> connectionState == Connected && isConnected && !isConnecting && outgoingThreadRunning
      ensures r != Ok(true) ==>
        && connectionState == old(connectionState) && isConnected == old(isConnected)
        && isConnecting == old(isConnecting) && outgoingThreadRunning == old(outgoingThreadRunning)
      ensures ConsumedOneRead() && Valid()
      ensures lostConnection == old(lostConnection) && threadRunning == old(threadRunning)
      ensures layers == old(layers) && outgoing == old(outgoing) && forwarded == old(forwarded)
    {
      var data :- ReadSocket();
      var frame :- Simp.ParseMessage(data);
      if frame.messageType != ConnectionCode {
        return Ok(false);
      }
      var _ := SetConnectionState(Connected);
      outgoingThreadRunning := true;
      r := Ok(true);
    }

    /** The loop of `receive_message` over the layers: the message for each
        layer whose identifier is `identifier`. */
    method RouteMessage(identifier: string, messageType: string, subject: string, offset: nat) returns (handed: seq<Delivery>)
      ensures handed == Route(layers, identifier, messageType, subject, offset)
    {
      handed := [];
      for i := 0 to |layers|
        invariant handed == Route(layers[..i], identifier, messageType, subject, offset)
      {
        assert layers[..i + 1][..i] == layers[..i];
        if layers[i].identifier == Some(identifier) {
          handed := handed + [Delivery(i, messageType, subject, offset)];
        }
      }
      assert layers[..|layers|] == layers;
    }

    /** The work of `receive_message` on the text read: a frame that does not
        parse is an error; otherwise the deliveries it makes to the layers. */
    method DispatchMessage(data: string) returns (r: Result<seq<Delivery>>)
      ensures Simp.ParseMessage(data).Err? ==> r == Err(Simp.ParseMessage(data).error)
      ensures Simp.ParseMessage(data).Ok? ==> r == Ok(Deliveries(layers, Simp.ParseMessage(data).value))
    {
      var frame :- Simp.ParseMessage(data);
      if frame.messageType == ConnectionCode {
        return Ok([]);
      }
      var identifier := Simp.ReadString(frame.subject, 0);
      if identifier.Err? {
        return Ok([]);
      }
      var guiName := Simp.ReadString(frame.subject, identifier.value.next);
      if guiName.Err? {
        return Ok([]);
      }
      var handed := RouteMessage(identifier.value.value, frame.messageType, frame.subject, guiName.value.next);
      r := Ok(handed);
    }

    /** `receive_message`: a data message goes to every layer with the
        identifier its subject starts with; Connection messages and subjects
        whose identifier or gui name cannot be read are dropped. */
    method ReceiveMessage() returns (r: Result<()>)
      modifies this, socket
      ensures var f := old(ReceivedFrame());
        && (f.Err? ==> r == Err(f.error) && forwarded == old(forwarded))
        && (f.Ok? ==> r == Ok(()) && forwarded == old(forwarded) + Deliveries(layers, f.value))
      ensures ConsumedOneRead()
      ensures connectionState == old(connectionState) && isConnected == old(isConnected) && isConnecting == old(isConnecting)
      ensures lostConnection == old(lostConnection) && threadRunning == old(threadRunning) && outgoingThreadRunning == old(outgoingThreadRunning)
      ensures layers == old(layers) && outgoing == old(outgoing)
    {
      var data :- ReadSocket();
      var handed :- DispatchMessage(data);
      forwarded := forwarded + handed;
      r := Ok(());
    }

    /** `disconnect_from_openspace`: nothing without a socket; otherwise both
        loops are told to stop, the socket is shut and dropped, every layer
        will resend its data, and the state is Disconnected. A second call
        therefore changes nothing. */
    method DisconnectFromOpenSpace()
      modifies this, socket
      ensures old(socket) == null ==>
        && connectionState == old(connectionState) && isConnected == old(isConnected) && isConnecting == old(isConnecting)
        && lostConnection == old(lostConnection) && threadRunning == old(threadRunning)
        && outgoingThreadRunning == old(outgoingThreadRunning) && layers == old(layers)
      ensures old(socket) != null ==>
        && !old(socket).open && old(socket).written == old(socket.written)
        && !threadRunning && !outgoingThreadRunning && !lostConnection
        && connectionState == Disconnected && !isConnected && !isConnecting
        && |layers| == |old(layers)|
        && forall k :: 0 <= k < |layers| ==> layers[k] == old(layers[k]).(hasSentInitialData := false)
      ensures socket == null && outgoing == old(outgoing) && forwarded == old(forwarded)
      ensures Valid() <== old(Valid())
    {
      if socket == null {
        return;
      }
      outgoingThreadRunning := false;
      threadRunning := false;
      socket.Shutdown();
      socket := null;
      var reset := layers;
      for i := 0 to |reset|
        invariant |reset| == |layers|
        invariant forall k :: 0 <= k < i ==> reset[k] == layers[k].(hasSentInitialData := false)
        invariant forall k :: i <= k < |reset| ==> reset[k] == layers[k]
      {
        reset := reset[i := reset[i].(hasSentInitialData := false)];
      }
      layers := reset;
      lostConnection := false;
      var _ := SetConnectionState(Disconnected);
    }

    /** The socket part of `reset_socket`: on an address that normalises, the
        viewer holds the newly created socket and then, if `connection` is
        not null, the connected one; `null` stands for `create_connection`
        raising. An invalid address resets the state to Disconnected and
        raises a bare `Exception`; a `ValueError` escapes with nothing changed. */
    method ResetSocket(text: string, integral: string -> Option<bool>, created: Net.Socket, connection: Net.Socket?)
      returns (r: Result<Address>)
      modifies this
      ensures var a := NormaliseAddress(text, integral);
        && (a.Err? && a.error.SimpError? ==>
              && r == Err(GenericException("")) && socket == old(socket)
              && connectionState == Disconnected && !isConnected && !isConnecting)
        && (a.Err? && !a.error.SimpError? ==>
              r == a && socket == old(socket) && connectionState == old(connectionState))
        && (a.Ok? && connection == null ==> r == Err(OSError) && socket == created)
        && (a.Ok? && connection != null ==> r == a && socket == connection)
        && (!(a.Err? && a.error.SimpError?) ==>
              connectionState == old(connectionState) && isConnected == old(isConnected) && isConnecting == old(isConnecting))
      ensures lostConnection == old(lostConnection) && threadRunning == old(threadRunning) && outgoingThreadRunning == old(outgoingThreadRunning)
      ensures layers == old(layers) && outgoing == old(outgoing) && forwarded == old(forwarded)
    {
      var a := NormaliseAddress(text, integral);
      if a.Err? {
        if a.error.SimpError? {
          var _ := SetConnectionState(Disconnected);
          return Err(GenericException(""));
        }
        return a;
      }
      socket := created;
      if connection == null {
        return Err(OSError);
      }
      socket := connection;
      r := a;
    }

    /** `request_listen` for at most `fuel` passes of its loop: a lost
        connection or a timed-out handshake raises, a read or parse failure
        escapes, and every way out runs `disconnect_from_openspace`. While
        connecting the handshake is polled at most 21 times. */
    method RequestListen(fuel: nat) returns (exit: ListenExit, handshakes: nat)
      requires Valid()
      modifies this, socket
      ensures handshakes <= HandshakePolls + 1
      ensures exit == HandshakeTimeout ==> handshakes == HandshakePolls + 1
      ensures fuel > 0 && !old(threadRunning) ==> exit == Stopped
      ensures fuel > 0 && old(threadRunning) && old(lostConnection) ==> exit == LostConnection
      ensures exit == Paused ==> socket == old(socket) && layers == old(layers)
      ensures exit != Paused ==> socket == null
      ensures exit != Paused && old(socket) != null ==>
        && connectionState == Disconnected && !isConnected && !isConnecting
        && !lostConnection && !threadRunning && !outgoingThreadRunning
        && forall k :: 0 <= k < |layers| ==> !layers[k].hasSentInitialData
      ensures Valid()
    {
      handshakes := 0;
      var outcome: Option<ListenExit> := None;
      var steps := fuel;
      while outcome.None? && steps > 0
        invariant Valid() && socket == old(socket) && layers == old(layers)
        invariant threadRunning == old(threadRunning) && lostConnection == old(lostConnection)
        invariant handshakes <= HandshakePolls + 1
        invariant outcome == Some(HandshakeTimeout) ==> handshakes == HandshakePolls + 1
        invariant outcome != Some(Paused)
        invariant steps <= fuel && (outcome.Some? ==> steps < fuel)
        invariant steps < fuel && !old(threadRunning) ==> outcome == Some(Stopped)
        invariant steps < fuel && old(threadRunning) && old(lostConnection) ==> outcome == Some(LostConnection)
        decreases steps
      {
        steps := steps - 1;
        if !threadRunning {
          outcome := Some(Stopped);
        } else if lostConnection {
          outcome := Some(LostConnection);
        } else if isConnecting {
          if handshakes > HandshakePolls {
            outcome := Some(HandshakeTimeout);
          } else {
            handshakes := handshakes + 1;
            var r := ReceiveHandshake();
            if r.Err? {
              outcome := Some(Raised(r.error));
            }
          }
        } else if isConnected {
          var r := ReceiveMessage();
          if r.Err? {
            outcome := Some(Raised(r.error));
          }
        }
      }
      if outcome.None? {
        return Paused, handshakes;
      }
      exit := outcome.value;
      DisconnectFromOpenSpace();
    }
  }
}
