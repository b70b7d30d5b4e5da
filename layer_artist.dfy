/** The legacy OpenSpace layer artist: the fixed-offset parser for the update
    messages OpenSpace sends back and the application of the update to the
    first layer carrying the identifier, the update subjects sent when a
    layer's properties change in glue, `clear`, and the module-wide
    `will_send_message` flag that keeps an update received from OpenSpace
    from being echoed back. Floating-point parsing and formatting, the colour
    conversion, the random identifier and the point-data tail of a PDAT
    subject are inputs. */
module LayerArtist {
  import opened Python
  import Net

  const Conn: string := "CONN"
  const Disc: string := "DISC"
  const PointData: string := "PDAT"
  const RemoveNode: string := "RSGN"
  const UpdateColor: string := "UPCO"
  const UpdateOpacity: string := "UPOP"
  const UpdateSize: string := "UPSI"
  const ToggleVisibility: string := "TOVI"

  /** A message handed to `send_simp_message`. */
  datatype Message = Message(messageType: string, subject: string)

  /** What the modelled code takes from outside: whether the viewer has its
      longitude and latitude attributes, `str(round(alpha, 7))`, `str(size)`,
      `float()` (`None` where it raises), the UPCO value parser followed by
      `to_hex`, the identifier `uuid4()` would give and the part of a PDAT
      subject after the identifier (`None` where building it raises). */
  datatype Environment = Environment(
    coordsSet: bool,
    showAlpha: real -> string,
    showSize: real -> string,
    parseFloat: string -> Option<real>,
    parseColor: string -> Result<string>,
    freshUuid: string,
    pointTail: Option<string>)

  /** The module-wide `will_send_message`, shared by every artist. */
  class EchoFlag {
    var willSendMessage: bool

    constructor ()
      ensures willSendMessage
    {
      willSendMessage := true;
    }
  }

  /** The glue layer state an artist reads and an update writes. A subset
      layer carries the identity of its current subset state. */
  class LayerState {
    var alpha: real
    var size: real
    var visible: bool
    var color: string
    var isSubset: bool
    var subsetState: nat

    constructor (alpha: real, size: real, visible: bool, color: string, isSubset: bool, subsetState: nat)
      ensures this.alpha == alpha && this.size == size && this.visible == visible && this.color == color
      ensures this.isSubset == isSubset && this.subsetState == subsetState
    {
      this.alpha, this.size, this.visible, this.color := alpha, size, visible, color;
      this.isSubset, this.subsetState := isSubset, subsetState;
    }
  }

  // ---------------------------------------------------------------- outgoing subjects

  /** `str(len(identifier)) + identifier + str(len(value)) + value`, the UPOP and UPSI subject. */
  function UpdateSubject(identifier: string, value: string): (s: string)
    ensures |s| >= |identifier| + |value| + 2 && s[|s| - |value|..] == value
  {
    Str(|identifier|) + identifier + Str(|value|) + value
  }

  /** `str(len(identifier)) + identifier + "T"` or `"F"`, the TOVI subject. */
  function VisibilitySubject(identifier: string, visible: bool): (s: string)
    ensures |s| >= |identifier| + 2 && s[|s| - 1] == (if visible then 'T' else 'F')
  {
    Str(|identifier|) + identifier + (if visible then "T" else "F")
  }

  /** The PDAT message `send_point_data` sends for a new identifier. */
  function PointDataMessage(identifier: string, tail: string): Message
  {
    Message(PointData, Str(|identifier|) + identifier + tail)
  }

  /** The update message for a batch of changed properties: opacity first,
      then size, then visibility; none when none of the three changed. */
  function UpdateMessage(changed: set<string>, identifier: string, alpha: real, size: real, visible: bool, env: Environment): (m: Option<Message>)
    ensures m.None? <==> "alpha" !in changed && "size" !in changed && "visible" !in changed
    ensures m.Some? ==> |m.value.subject| > 0
  {
    if "alpha" in changed then Some(Message(UpdateOpacity, UpdateSubject(identifier, env.showAlpha(alpha))))
    else if "size" in changed then Some(Message(UpdateSize, UpdateSubject(identifier, env.showSize(size))))
    else if "visible" in changed then Some(Message(ToggleVisibility, VisibilitySubject(identifier, visible)))
    else None
  }

  /** An update message carries the type of the first changed property in
      the order opacity, size, visibility, whatever else changed with it. */
  lemma UpdatePrecedence(changed: set<string>, identifier: string, alpha: real, size: real, visible: bool, env: Environment)
    ensures var m := UpdateMessage(changed, identifier, alpha, size, visible, env);
      && ("alpha" in changed ==> m == Some(Message(UpdateOpacity, UpdateSubject(identifier, env.showAlpha(alpha)))))
      && ("alpha" !in changed && "size" in changed ==> m == Some(Message(UpdateSize, UpdateSubject(identifier, env.showSize(size)))))
      && ("alpha" !in changed && "size" !in changed && "visible" in changed ==>
            m == Some(Message(ToggleVisibility, VisibilitySubject(identifier, visible))))
  {
  }

  /** What an artist shows of itself to `_on_attribute_change`. */
  datatype Snapshot = Snapshot(
    hasSocket: bool, uuid: Option<string>, tracked: Option<nat>,
    alpha: real, size: real, visible: bool, isSubset: bool, subsetState: nat)

  /** The artist's identifier and tracked subset state after the callback, and
      the messages it sent. */
  datatype Reaction = Reaction(uuid: Option<string>, tracked: Option<nat>, sent: seq<Message>)

  /** What `send_point_data` does: a new identifier always, and the PDAT
      message when its subject can be built. */
  function SendPointData(env: Environment): (r: seq<Message>)
    ensures |r| <= 1 && forall j :: 0 <= j < |r| ==> r[j].messageType == PointData
  {
    if env.pointTail.Some? then [PointDataMessage(env.freshUuid, env.pointTail.value)] else []
  }

  /** `_on_attribute_change` on the artist `s` with the popped `changed` set. */
  function React(s: Snapshot, willSend: bool, changed: set<string>, force: bool, env: Environment): (r: Reaction)
    ensures |r.sent| <= 2
    ensures r.uuid == s.uuid || r.uuid == Some(env.freshUuid)
    ensures r.tracked == s.tracked || (s.isSubset && r.tracked == Some(s.subsetState))
    ensures forall j :: 0 <= j < |r.sent| && r.sent[j].messageType == RemoveNode ==>
      j == 0 && s.uuid.Some? && r.sent[j].subject == s.uuid.value
  {
    var same := Reaction(s.uuid, s.tracked, []);
    if !s.hasSocket || !env.coordsSet || (changed == {} && !force) then same
    else if s.uuid.Some? then
      if !willSend then same
      else match UpdateMessage(changed, s.uuid.value, s.alpha, s.size, s.visible, env)
        case Some(m) => Reaction(s.uuid, s.tracked, [m])
        case None =>
          if s.isSubset then
            if s.tracked == Some(s.subsetState) then same
            else Reaction(Some(env.freshUuid), Some(s.subsetState), [Message(RemoveNode, s.uuid.value)] + SendPointData(env))
          else
            Reaction(Some(env.freshUuid), s.tracked, [Message(RemoveNode, s.uuid.value)] + SendPointData(env))
    else
      Reaction(Some(env.freshUuid), if s.isSubset then Some(s.subsetState) else s.tracked, SendPointData(env))
  }

  /** Echo suppression: while `will_send_message` is down an artist that has
      an identifier sends nothing and changes nothing. */
  lemma EchoSuppressed(s: Snapshot, changed: set<string>, force: bool, env: Environment)
    requires s.uuid.Some?
    ensures React(s, false, changed, force, env) == Reaction(s.uuid, s.tracked, [])
  {
  }

  /** Nothing is sent without a socket, without longitude and latitude, or
      when nothing changed and the update is not forced. */
  lemma NothingToSend(s: Snapshot, willSend: bool, changed: set<string>, force: bool, env: Environment)
    requires !s.hasSocket || !env.coordsSet || (changed == {} && !force)
    ensures React(s, willSend, changed, force, env) == Reaction(s.uuid, s.tracked, [])
  {
  }

  /** For a layer OpenSpace already knows, a change to opacity, size or
      visibility sends exactly one update message and nothing else. */
  lemma OneUpdatePerBatch(s: Snapshot, changed: set<string>, force: bool, env: Environment)
    requires s.hasSocket && env.coordsSet && s.uuid.Some?
    requires "alpha" in changed || "size" in changed || "visible" in changed
    ensures var r := React(s, true, changed, force, env);
      && |r.sent| == 1 && r.sent[0].messageType in {UpdateOpacity, UpdateSize, ToggleVisibility}
      && r.uuid == s.uuid && r.tracked == s.tracked
  {
  }

  /** A layer OpenSpace does not know yet gets a new identifier, and its point
      data is the only thing sent. */
  lemma FirstSendIsPointData(s: Snapshot, changed: set<string>, force: bool, env: Environment)
    requires s.hasSocket && env.coordsSet && s.uuid.None? && (changed != {} || force)
    requires env.pointTail.Some?
    ensures React(s, true, changed, force, env).sent == [PointDataMessage(env.freshUuid, env.pointTail.value)]
    ensures React(s, false, changed, force, env).uuid == Some(env.freshUuid)
  {
  }

  // ---------------------------------------------------------------- the inbound parser

  /** `int(s)` on a field of the message: `ValueError` unless it is a decimal integer. */
  function IntField(s: string): (r: Result<int>)
    ensures r.Ok? <==> ParseInt(s).Some?
    ensures r.Ok? ==> Some(r.value) == ParseInt(s)
    ensures r.Err? ==> r.error == ValueError
  {
    match ParseInt(s)
    case None => Err(ValueError)
    case Some(n) => Ok(n)
  }

  /** The fixed-offset fields of an inbound message: the type, the subject,
      the identifier and the bounds of the value-length field after it. */
  datatype Header = Header(messageType: string, subject: string, identifier: string, start: int, end: int)

  /** The value an update carries, and what applying it sets. */
  datatype Change = SetColor(hex: string) | SetAlpha(alpha: real) | SetSize(size: real) | SetVisible(visible: bool) | NoChange

  /** The header of an inbound message: type at 0..4, a decimal subject length
      at 4..8, the subject from 8 on, a two-character identifier length, the
      identifier, and a value-length field of two characters for UPCO and one
      for every other type. Slices follow Python's rules, so a short message
      yields short fields rather than an error. */
  function ReadHeader(m: string): (r: Result<Header>)
    ensures r.Err? ==> r.error == ValueError
    ensures r.Ok? ==> r.value.end - r.value.start == (if r.value.messageType == UpdateColor then 2 else 1)
  {
    var messageType := Slice(m, 0, 4);
    var n :- IntField(Slice(m, 4, 8));
    var subject := Slice(m, 8, 8 + n);
    var idLength :- IntField(Slice(subject, 0, 2));
    var start := 2 + idLength;
    Ok(Header(messageType, subject, Slice(subject, 2, start), start, start + (if messageType == UpdateColor then 2 else 1)))
  }

  /** The value of an update for its matching layer: the value-length field,
      then the value itself; TOVI carries a single character, `F` meaning hidden. */
  function ReadChange(h: Header, env: Environment): (r: Result<Change>)
    ensures h.messageType == ToggleVisibility ==>
      r == (match At(h.subject, h.start) case Err(e) => Err(e) case Ok(c) => Ok(SetVisible(c != 'F')))
    ensures h.messageType !in {UpdateColor, UpdateOpacity, UpdateSize, ToggleVisibility} ==> r == Ok(NoChange)
    ensures r.Ok? && r.value.SetAlpha? ==> h.messageType == UpdateOpacity
    ensures r.Ok? && r.value.SetSize? ==> h.messageType == UpdateSize
  {
    if h.messageType == UpdateColor then
      var n :- IntField(Slice(h.subject, h.start, h.end));
      var hex :- env.parseColor(Slice(h.subject, h.end + 1, h.end + n - 1));
      Ok(SetColor(hex))
    else if h.messageType == UpdateOpacity || h.messageType == UpdateSize then
      var n :- IntField(Slice(h.subject, h.start, h.end));
      match env.parseFloat(Slice(h.subject, h.end, h.end + n))
      case None => Err(ValueError)
      case Some(v) => Ok(if h.messageType == UpdateOpacity then SetAlpha(v) else SetSize(v))
    else if h.messageType == ToggleVisibility then
      var c :- At(h.subject, h.start);
      Ok(SetVisible(c != 'F'))
    else Ok(NoChange)
  }

  /** A message in the layout the parser reads: type, four-digit subject length, subject. */
  function LegacyFrame(messageType: string, subject: string): string
  {
    messageType + ZeroPad(|subject|, 4) + subject
  }

  /** `str(n)` read back with `int()`. */
  lemma ParseIntStr(n: nat)
    ensures ParseInt(Str(n)) == Some(n)
  {
    StrValue(n);
  }

  /** `str(n)` is two characters long for a two-digit `n`. */
  lemma StrTwoDigits(n: nat)
    requires 10 <= n <= 99
    ensures |Str(n)| == 2
  {
    StrLength(n, 1);
    StrLength(n, 2);
  }

  /** The frame's type, length field and subject sit at their fixed offsets. */
  lemma FrameFields(messageType: string, subject: string)
    requires |messageType| == 4 && |subject| < 10000
    ensures var m := LegacyFrame(messageType, subject);
      && Slice(m, 0, 4) == messageType
      && ParseInt(Slice(m, 4, 8)) == Some(|subject|)
      && Slice(m, 8, 8 + |subject|) == subject
  {
    var m := LegacyFrame(messageType, subject);
    var field := ZeroPad(|subject|, 4);
    ZeroPadField(|subject|, 4);
    ParseIntZeroPad(|subject|, 4);
    assert m == messageType + field + subject;
    assert m[..4] == messageType;
    assert m[4..8] == field;
    assert m[8..] == subject;
  }

  /** A subject that starts with a two-digit identifier length gives back the identifier. */
  lemma SubjectFields(identifier: string, rest: string)
    requires 10 <= |identifier| <= 99
    ensures var subject := Str(|identifier|) + identifier + rest;
      && ParseInt(Slice(subject, 0, 2)) == Some(|identifier|)
      && Slice(subject, 2, 2 + |identifier|) == identifier
  {
    var subject := Str(|identifier|) + identifier + rest;
    StrTwoDigits(|identifier|);
    ParseIntStr(|identifier|);
    assert subject[..2] == Str(|identifier|);
    assert subject[2..2 + |identifier|] == identifier;
  }

  /** The header of a framed subject that starts with a two-digit identifier length. */
  lemma HeaderOfFrame(messageType: string, identifier: string, rest: string)
    requires |messageType| == 4 && 10 <= |identifier| <= 99
    requires |Str(|identifier|) + identifier + rest| < 10000
    ensures var subject := Str(|identifier|) + identifier + rest;
      var start := 2 + |identifier|;
      ReadHeader(LegacyFrame(messageType, subject))
        == Ok(Header(messageType, subject, identifier, start, start + (if messageType == UpdateColor then 2 else 1)))
  {
    var subject := Str(|identifier|) + identifier + rest;
    FrameFields(messageType, subject);
    SubjectFields(identifier, rest);
    HeaderFromFields(LegacyFrame(messageType, subject), messageType, subject, identifier);
  }

  /** `ReadHeader` in terms of the fields it finds. */
  lemma HeaderFromFields(m: string, messageType: string, subject: string, identifier: string)
    requires Slice(m, 0, 4) == messageType
    requires ParseInt(Slice(m, 4, 8)) == Some(|subject|) && Slice(m, 8, 8 + |subject|) == subject
    requires ParseInt(Slice(subject, 0, 2)) == Some(|identifier|) && Slice(subject, 2, 2 + |identifier|) == identifier
    ensures var start := 2 + |identifier|;
      ReadHeader(m) == Ok(Header(messageType, subject, identifier, start, start + (if messageType == UpdateColor then 2 else 1)))
  {
  }

  /** An opacity or size subject, framed the way the parser reads it, gives
      back the identifier and the value its text denotes. */
  lemma UpdateRoundTrip(messageType: string, identifier: string, value: string, env: Environment)
    requires messageType == UpdateOpacity || messageType == UpdateSize
    requires 10 <= |identifier| <= 99 && 1 <= |value| <= 9
    ensures var h := ReadHeader(LegacyFrame(messageType, UpdateSubject(identifier, value)));
      && h.Ok? && h.value.identifier == identifier
      && ReadChange(h.value, env) == match env.parseFloat(value)
         case None => Err(ValueError)
         case Some(v) => Ok(if messageType == UpdateOpacity then SetAlpha(v) else SetSize(v))
  {
    var rest := Str(|value|) + value;
    StrLength(|value|, 1);
    assert UpdateSubject(identifier, value) == Str(|identifier|) + identifier + rest;
    StrTwoDigits(|identifier|);
    HeaderOfFrame(messageType, identifier, rest);
    var subject := UpdateSubject(identifier, value);
    var start := 2 + |identifier|;
    assert subject == (Str(|identifier|) + identifier) + rest;
    assert Slice(subject, start, start + 1) == Str(|value|);
    ParseIntStr(|value|);
    assert Slice(subject, start + 1, start + 1 + |value|) == value;
  }

  /** A visibility subject, framed the way the parser reads it, gives back the
      identifier and the visibility it was built from. */
  lemma VisibilityRoundTrip(identifier: string, visible: bool, env: Environment)
    requires 10 <= |identifier| <= 99
    ensures var h := ReadHeader(LegacyFrame(ToggleVisibility, VisibilitySubject(identifier, visible)));
      && h.Ok? && h.value.identifier == identifier
      && ReadChange(h.value, env) == Ok(SetVisible(visible))
  {
    var flag := if visible then "T" else "F";
    StrTwoDigits(|identifier|);
    HeaderOfFrame(ToggleVisibility, identifier, flag);
    var subject := VisibilitySubject(identifier, visible);
    assert subject[2 + |identifier|] == flag[0];
  }

  // ---------------------------------------------------------------- the artist

  /** The index of the first layer whose identifier is `identifier`, or the number of layers. */
  function FirstMatch(layers: seq<Artist>, identifier: string): (k: nat)
    reads set j | 0 <= j < |layers| :: layers[j]
    ensures k <= |layers|
    ensures forall j :: 0 <= j < k ==> layers[j].uuid != Some(identifier)
    ensures k < |layers| ==> layers[k].uuid == Some(identifier)
  {
    if layers == [] then 0
    else if layers[0].uuid == Some(identifier) then 0
    else 1 + FirstMatch(layers[1..], identifier)
  }

  /** A legacy layer artist: its identifier in OpenSpace, whether it holds a
      socket, the subset state it last sent, and the messages it has sent. */
  class Artist {
    var uuid: Option<string>
    var hasSocket: bool
    /** `_state`, the subset state of the last point data sent. */
    var tracked: Option<nat>
    var outbox: seq<Message>
    const state: LayerState
    const flag: EchoFlag

    constructor (state: LayerState, flag: EchoFlag, hasSocket: bool)
      ensures this.state == state && this.flag == flag && this.hasSocket == hasSocket
      ensures uuid.None? && tracked.None? && outbox == []
    {
      this.state, this.flag, this.hasSocket := state, flag, hasSocket;
      uuid, tracked, outbox := None, None, [];
    }

    function Snap(): Snapshot
      reads this, state
    {
      Snapshot(hasSocket, uuid, tracked, state.alpha, state.size, state.visible, state.isSubset, state.subsetState)
    }

    /** `remove_scene_graph_node`. */
    method RemoveSceneGraphNode()
      requires uuid.Some?
      modifies this
      ensures outbox == old(outbox) + [Message(RemoveNode, old(uuid).value)]
      ensures uuid == old(uuid) && tracked == old(tracked) && hasSocket == old(hasSocket)
    {
      outbox := outbox + [Message(RemoveNode, uuid.value)];
    }

    /** `send_point_data`: takes a new identifier and sends the PDAT message
        unless building its subject raises. */
    method SendPointDataNow(env: Environment)
      modifies this
      ensures uuid == Some(env.freshUuid) && outbox == old(outbox) + SendPointData(env)
      ensures tracked == old(tracked) && hasSocket == old(hasSocket)
    {
      uuid := Some(env.freshUuid);
      if env.pointTail.Some? {
        var identifier := env.freshUuid;
        var subject := Str(|identifier|) + identifier + env.pointTail.value;
        outbox := outbox + [Message(PointData, subject)];
      }
    }

    /** `clear`: tells OpenSpace to drop the layer and forgets its identifier;
        nothing happens without a socket or an identifier. */
    method Clear()
      modifies this
      ensures !old(hasSocket) || old(uuid).None? ==> uuid == old(uuid) && outbox == old(outbox)
      ensures old(hasSocket) && old(uuid).Some? ==>
        uuid.None? && outbox == old(outbox) + [Message(RemoveNode, old(uuid).value)]
      ensures tracked == old(tracked) && hasSocket == old(hasSocket)
    {
      if !hasSocket {
        return;
      }
      if uuid.None? {
        return;
      }
      RemoveSceneGraphNode();
      uuid := None;
    }

    /** `_on_attribute_change` with the popped set of changed properties. */
    method OnAttributeChange(changed: set<string>, force: bool, env: Environment)
      modifies this
      ensures var r := React(old(Snap()), flag.willSendMessage, changed, force, env);
        uuid == r.uuid && tracked == r.tracked && outbox == old(outbox) + r.sent
      ensures hasSocket == old(hasSocket)
    {
      if !hasSocket {
        return;
      }
      if !env.coordsSet {
        return;
      }
      if |changed| == 0 && !force {
        return;
      }
      if uuid.Some? {
        if !flag.willSendMessage {
          return;
        }
        var messageType := "";
        var subject := "";
        var identifier := uuid.value;
        var lengthOfIdentifier := Str(|identifier|);
        if "alpha" in changed {
          messageType := UpdateOpacity;
          var value := env.showAlpha(state.alpha);
          subject := lengthOfIdentifier + identifier + Str(|value|) + value;
        } else if "size" in changed {
          messageType := UpdateSize;
          var value := env.showSize(state.size);
          subject := lengthOfIdentifier + identifier + Str(|value|) + value;
        } else if "visible" in changed {
          messageType := ToggleVisibility;
          var value := if state.visible then "T" else "F";
          subject := lengthOfIdentifier + identifier + value;
        }
        if subject != "" {
          outbox := outbox + [Message(messageType, subject)];
          return;
        }
        if state.isSubset {
          if tracked != Some(state.subsetState) {
            tracked := Some(state.subsetState);
            RemoveSceneGraphNode();
            SendPointDataNow(env);
          }
          return;
        }
      }
      Clear();
      if state.isSubset {
        tracked := Some(state.subsetState);
      }
      SendPointDataNow(env);
    }

    /** `receive_message`: reads one legacy message and applies it to the
        first of `layers` carrying its identifier. The flag is lowered while
        the value is written and the written layer's callback runs, and raised
        again once the message is processed; a failed or empty read returns
        quietly, and a malformed field raises before anything changes. */
    method ReceiveMessage(received: Net.ReadOutcome, layers: seq<Artist>, env: Environment) returns (r: Result<()>)
      requires forall j :: 0 <= j < |layers| ==> layers[j].flag == flag
      modifies flag, set j | 0 <= j < |layers| :: layers[j].state, set j | 0 <= j < |layers| :: layers[j]
      ensures ArtistsKept(layers)
      ensures var outcome := Received(received, old(FirstMatchOf(received, layers)), |layers|, env);
        && r == outcome.result
        && flag.willSendMessage == (if outcome.processed then true else old(flag.willSendMessage))
        && StatesKept(layers, if outcome.change.Some? then layers[outcome.target].state else null)
        && (outcome.change.Some? ==>
              Values(layers[outcome.target].state) == Apply(old(Values(layers[outcome.target].state)), outcome.change.value))
    {
      if received.SocketError? {
        return Ok(());
      }
      var message := received.data;
      if |message| < 1 {
        return Ok(());
      }
      r := ProcessMessage(message, layers, env);
    }

    /** The part of `receive_message` after a non-empty read. */
    method ProcessMessage(message: string, layers: seq<Artist>, env: Environment) returns (r: Result<()>)
      requires forall j :: 0 <= j < |layers| ==> layers[j].flag == flag
      modifies flag, set j | 0 <= j < |layers| :: layers[j].state, set j | 0 <= j < |layers| :: layers[j]
      ensures ArtistsKept(layers)
      ensures var outcome := Processed(message, old(FirstMatchIn(message, layers)), |layers|, env);
        && r == outcome.result
        && flag.willSendMessage == (if outcome.processed then true else old(flag.willSendMessage))
        && StatesKept(layers, if outcome.change.Some? then layers[outcome.target].state else null)
        && (outcome.change.Some? ==>
              Values(layers[outcome.target].state) == Apply(old(Values(layers[outcome.target].state)), outcome.change.value))
    {
      var header :- ReadLegacyHeader(message);
      r := Deliver(header, layers, env);
    }

    /** The part of `receive_message` after the header is read: the search
        for the layer, the value, the write and the raised flag. */
    method Deliver(header: Header, layers: seq<Artist>, env: Environment) returns (r: Result<()>)
      requires forall j :: 0 <= j < |layers| ==> layers[j].flag == flag
      modifies flag, set j | 0 <= j < |layers| :: layers[j].state, set j | 0 <= j < |layers| :: layers[j]
      ensures ArtistsKept(layers)
      ensures var outcome := Delivered(header, old(FirstMatch(layers, header.identifier)), |layers|, env);
        && r == outcome.result
        && flag.willSendMessage == (if outcome.processed then true else old(flag.willSendMessage))
        && StatesKept(layers, if outcome.change.Some? then layers[outcome.target].state else null)
        && (outcome.change.Some? ==>
              Values(layers[outcome.target].state) == Apply(old(Values(layers[outcome.target].state)), outcome.change.value))
    {
      var i := FindLayer(layers, header.identifier);
      if i < |layers| {
        var change :- ReadChange(header, env);
        layers[i].ApplyUpdate(change, env);
      }
      flag.willSendMessage := true;
      r := Ok(());
    }

    /** Writes the value of an update into the layer state with the flag
        lowered, and runs the callback glue runs on that write. */
    method ApplyUpdate(change: Change, env: Environment)
      requires uuid.Some?
      modifies flag, state, this
      ensures Values(state) == Apply(old(Values(state)), change)
      ensures outbox == old(outbox) && uuid == old(uuid) && tracked == old(tracked) && hasSocket == old(hasSocket)
      ensures change != NoChange ==> !flag.willSendMessage
      ensures change == NoChange ==> flag.willSendMessage == old(flag.willSendMessage) && unchanged(state)
    {
      match change
      case SetColor(hex) =>
        flag.willSendMessage := false;
        state.color := hex;
        OnAttributeChange({"color"}, false, env);
      case SetAlpha(v) =>
        flag.willSendMessage := false;
        state.alpha := v;
        OnAttributeChange({"alpha"}, false, env);
      case SetSize(v) =>
        flag.willSendMessage := false;
        state.size := v;
        OnAttributeChange({"size"}, false, env);
      case SetVisible(b) =>
        flag.willSendMessage := false;
        state.visible := b;
        OnAttributeChange({"visible"}, false, env);
      case NoChange =>
    }
  }

  /** The offset arithmetic of `receive_message` that locates its fields. */
  method ReadLegacyHeader(message: string) returns (r: Result<Header>)
    ensures r == ReadHeader(message)
  {
    var start, end := 0, 4;
    var messageType := Slice(message, start, end);
    start, end := start + 4, end + 4;
    var lengthOfSubject :- IntField(Slice(message, start, end));
    start, end := start + 4, end + lengthOfSubject;
    var subject := Slice(message, start, end);
    start, end := 0, 2;
    var lengthOfIdentifier :- IntField(Slice(subject, start, end));
    start, end := start + 2, end + lengthOfIdentifier;
    var identifier := Slice(subject, start, end);
    start := start + lengthOfIdentifier;
    end := end + (if messageType == UpdateColor then 2 else 1);
    r := Ok(Header(messageType, subject, identifier, start, end));
  }

  /** The `for layer in layers` search for the first layer with the identifier. */
  method FindLayer(layers: seq<Artist>, identifier: string) returns (i: nat)
    ensures i == FirstMatch(layers, identifier)
  {
    i := 0;
    while i < |layers| && layers[i].uuid != Some(identifier)
      invariant i <= |layers|
      invariant forall j :: 0 <= j < i ==> layers[j].uuid != Some(identifier)
    {
      i := i + 1;
    }
  }

  /** Where a message lands: the index of the first layer carrying its
      identifier, when the header can be read. */
  function FirstMatchIn(message: string, layers: seq<Artist>): nat
    reads set j | 0 <= j < |layers| :: layers[j]
  {
    match ReadHeader(message)
    case Ok(h) => FirstMatch(layers, h.identifier)
    case Err(_) => |layers|
  }

  function FirstMatchOf(received: Net.ReadOutcome, layers: seq<Artist>): nat
    reads set j | 0 <= j < |layers| :: layers[j]
  {
    if received.Bytes? then FirstMatchIn(received.data, layers) else |layers|
  }

  /** What processing a received message comes to: the result, whether it got
      as far as raising the flag, and the change written to layer `target`. */
  datatype Outcome = Outcome(result: Result<()>, processed: bool, target: nat, change: Option<Change>)

  /** The outcome of `receive_message` when the first layer with the
      identifier read is at index `target` (or there is none). */
  function Received(received: Net.ReadOutcome, target: nat, count: nat, env: Environment): (r: Outcome)
    ensures r.target == target && (r.change.Some? ==> target < count && r.change.value != NoChange)
  {
    if received.SocketError? || |received.data| < 1 then Outcome(Ok(()), false, target, None)
    else Processed(received.data, target, count, env)
  }

  /** The outcome of a non-empty message. */
  function Processed(message: string, target: nat, count: nat, env: Environment): (r: Outcome)
    ensures r.target == target && (r.change.Some? ==> target < count && r.change.value != NoChange)
  {
    match ReadHeader(message)
    case Err(e) => Outcome(Err(e), false, target, None)
    case Ok(h) => Delivered(h, target, count, env)
  }

  /** The outcome once the header `h` is read. */
  function Delivered(h: Header, target: nat, count: nat, env: Environment): (r: Outcome)
    ensures r.target == target && (r.change.Some? ==> target < count && r.change.value != NoChange)
  {
    if target >= count then Outcome(Ok(()), true, target, None)
    else
      match ReadChange(h, env)
      case Err(e) => Outcome(Err(e), false, target, None)
      case Ok(NoChange) => Outcome(Ok(()), true, target, None)
      case Ok(c) => Outcome(Ok(()), true, target, Some(c))
  }

  /** No artist's identifier, tracked state, socket or sent messages changed. */
  twostate predicate ArtistsKept(layers: seq<Artist>)
    reads set j | 0 <= j < |layers| :: layers[j]
  {
    forall j :: 0 <= j < |layers| ==>
      && layers[j].outbox == old(layers[j].outbox) && layers[j].uuid == old(layers[j].uuid)
      && layers[j].tracked == old(layers[j].tracked) && layers[j].hasSocket == old(layers[j].hasSocket)
  }

  /** Every layer state other than `except` is as it was. */
  twostate predicate StatesKept(layers: seq<Artist>, except: LayerState?)
    reads set j | 0 <= j < |layers| :: layers[j], set j | 0 <= j < |layers| :: layers[j].state
  {
    forall j :: 0 <= j < |layers| && layers[j].state != except ==> unchanged(layers[j].state)
  }

  datatype StateValues = StateValues(alpha: real, size: real, visible: bool, color: string, isSubset: bool, subsetState: nat)

  function Values(s: LayerState): StateValues
    reads s
  {
    StateValues(s.alpha, s.size, s.visible, s.color, s.isSubset, s.subsetState)
  }

  /** The state after writing the change: one property set, the rest kept. */
  function Apply(v: StateValues, c: Change): StateValues
  {
    match c
    case SetColor(hex) => v.(color := hex)
    case SetAlpha(a) => v.(alpha := a)
    case SetSize(z) => v.(size := z)
    case SetVisible(b) => v.(visible := b)
    case NoChange => v
  }
}
