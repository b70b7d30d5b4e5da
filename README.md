# glue-openspace: the SIMP link between glue and OpenSpace

This project models the part of the glue-openspace plugin that talks to
OpenSpace over a TCP socket, and proves properties of that model.

- **The SIMP text protocol** (`simp.py`):
  - A frame is the protocol version `1.8`, a four-character message type, the
    subject length as fifteen zero-padded digits, then the subject.
  - Sending retries up to `POLL_RETRIES` times. When every attempt fails, the
    viewer is marked as having lost its connection.
  - Parsing checks the version and cuts the subject to the declared length.
  - Subjects hold `;`-terminated tokens, and `\;` does not end a token. The
    token readers are for strings, integers, hexadecimal floats and
    `[r;g;b;a;]` colors.
- **The data viewer** (`viewer.py`):
  - the flags that follow the connection state;
  - one round of the outgoing-data drain, which builds one DATA subject per
    layer with pending attributes, clears that layer's map and sends the
    subject;
  - the readiness test that gates the drain;
  - the listen loop, whose handshake counter times out after 21 polls;
  - reading the socket, the handshake and data receivers, disconnection, and
    the address normalisation of `reset_socket`.
- **The legacy layer artist** (`layer_artist.py`):
  - the attribute-change callback, which picks an opacity, size or visibility
    update (in that order), or else resends the point data under a fresh
    identifier;
  - echo suppression through the module-wide `will_send_message` flag;
  - clearing a layer;
  - the offset-arithmetic parser of inbound update messages, and applying the
    update to the first layer with the identifier.
- **The list serialisers** (`utils.py`): comma-terminated value lists, each
    preceded by its length as nine zero-padded digits.

Python's own rules are modelled exactly where the code relies on them, in
module `Python`:

- slicing, with negative and out-of-range bounds;
- `s[i]` raising `IndexError`;
- `int()` on decimal text;
- `str()` and `format(n, '0Nd')` of a non-negative integer;
- `str.split` and ASCII `str.lower`.

The socket is module `Net`'s `Socket` class. Scripts fix the outcome of each
`sendall` (success or failure) and each `recv` (bytes or a socket error). It
records what it accepted in `written`.

Modules:

- `Python`: `python.dfy`
- `Net`: `net.dfy`
- `Simp`: `simp.dfy`
- `Utils`: `utils.dfy`
- `Viewer`: `viewer.dfy`
- `LayerArtist`: `layer_artist.dfy`

## Model

| member | source | states |
|---|---|---|
| Python.Str | glue_openspace_thesis/layer_artist.py:125 | `str(n)` is a non-empty digit string with no leading zero |
| Python.StrValue | glue_openspace_thesis/layer_artist.py:274 | reading back `str(n)` as decimal digits gives `n` |
| Python.StrLength | glue_openspace_thesis/layer_artist.py:129-133 | `str(n)` has at most `k` digits exactly when `n < 10^k` |
| Python.ZeroPadField | glue_openspace_thesis/simp.py:40 | `format(n, '0Nd')` is all digits and denotes `n`; it is at least `N` long, and exactly `N` long iff `n < 10^N` |
| Python.ParseIntZeroPad | glue_openspace_thesis/simp.py:79 | `int(format(n, '0Nd')) == n` |
| Python.ZeroPad | glue_openspace_thesis/simp.py:40 | `format(n, '0Nd')` is all digits and at least `N` characters long |
| Python.ParseInt | glue_openspace_thesis/simp.py:79 | `int()` refuses the empty text, yields a negative value only after `-`, and reads a digit string as the number it denotes |
| Python.Clamp | glue_openspace_thesis/simp.py:68 | a slice bound lands inside the sequence, and an in-range bound is kept |
| Python.Slice | glue_openspace_thesis/simp.py:83 | `s[i:j]` is the ordinary slice for in-range bounds, runs to the end when `j` is past it, and is empty when `j <= i` |
| Python.At | glue_openspace_thesis/layer_artist.py:350 | `s[i]` raises `IndexError` exactly when `i` is outside `-len(s) .. len(s)-1` |
| Python.Lower | glue_openspace_thesis/viewer.py:508 | the model's `lower()` keeps the length and lower-cases each ASCII letter in place; Python's Unicode mapping is not modelled |
| Python.Split | glue_openspace_thesis/viewer.py:515 | `split(c)` always returns at least one part |
| Python.SplitNone | glue_openspace_thesis/viewer.py:520 | a text without the separator splits into itself alone |
| Python.SplitCons | glue_openspace_thesis/viewer.py:515 | `a + c + b` with no `c` in `a` splits into `a` followed by the parts of `b` |
| Python.SplitParts | glue_openspace_thesis/viewer.py:515 | no part holds the separator, and there is one more part than separators |
| Net.Socket.SendAll | glue_openspace_thesis/simp.py:54 | consumes one send outcome; it succeeds only on an open socket whose outcome says so, and only then is the frame added to what was written |
| Net.Socket.Recv | glue_openspace_thesis/viewer.py:441 | consumes one read outcome and returns it; a closed or exhausted socket gives a socket error |
| Net.Socket.Shutdown | glue_openspace_thesis/viewer.py:568-569 | closes the socket and keeps what it wrote and what its scripts hold |
| Simp.Code | glue_openspace_thesis/simp.py:19-29 | every message-type code is four characters |
| Simp.CodeInjective | glue_openspace_thesis/simp.py:19-29 | distinct message types have distinct codes |
| Simp.BuildFrame | glue_openspace_thesis/simp.py:40-41 | the frame starts with the version and the type, holds at least the 15-character length field, and ends with the subject |
| Simp.ParseMessage | glue_openspace_thesis/simp.py:64-85 | only `DisconnectionException` and `ValueError` are raised; a parsed frame starts with the version, its type is at most four characters and its subject fits in what follows the header |
| Simp.FrameLayout | glue_openspace_thesis/simp.py:40-41 | the header is exactly 22 characters: version at 0..3, type at 3..7, the length field at 7..22 reading back as the subject length, then the subject |
| Simp.ParseVersionMismatch | glue_openspace_thesis/simp.py:66-71 | the parse raises `DisconnectionException` exactly when the first three characters are not `1.8` |
| Simp.ParseFields | glue_openspace_thesis/simp.py:73-85 | with a matching version and a readable length `n`, the type is characters 3..7, and the subject is the next `n` characters or whatever the buffer still holds |
| Simp.FrameRoundTrip | glue_openspace_thesis/simp.py:64-85 | parsing a built frame, whatever follows it, gives back its type and subject |
| Simp.AttemptsBound | glue_openspace_thesis/simp.py:50-58 | the retry loop makes at most `POLL_RETRIES` calls, delivers iff one of them succeeds, stops right after the first success, and uses the whole budget when none succeeds |
| Simp.SendSimpMessage | glue_openspace_thesis/simp.py:39-61 | the frame is written once if some attempt succeeds and not at all otherwise; the lost flag is raised when nothing was delivered and otherwise keeps its value; the send script loses exactly the attempts made |
| Simp.IsEndOfCurrentValue | glue_openspace_thesis/simp.py:88-95 | raises at or past the end and on a last character that is not `;`; otherwise true exactly on an unescaped `;` that is not the first character |
| Simp.Scan | glue_openspace_thesis/simp.py:153-162 | the reading loop either raises `SimpError` or returns the text from its start up to a `;` and the offset just past it, within the message |
| Simp.ScanCharacterisation | glue_openspace_thesis/simp.py:153-162 | the token scan succeeds iff an unescaped `;` lies ahead, stops at the first one and returns the text before it; otherwise it raises the error named by where the message ends |
| Simp.TokenRoundTrip | glue_openspace_thesis/simp.py:153-162 | a token whose `;` are all escaped, followed by `;`, reads back as itself with the offset just past the `;` |
| Simp.ReadString | glue_openspace_thesis/simp.py:153-162 | returns the text up to the first unescaped `;` and the offset just past it, and raises when there is none |
| Simp.ReadInt | glue_openspace_thesis/simp.py:113-127 | the token read as with `read_string` and converted with `int()`; a token that does not convert raises `SimpError` |
| Simp.ReadFloat | glue_openspace_thesis/simp.py:97-111 | the token converted by the hexadecimal float decoder, which stops at the first terminator |
| Simp.FloatAdvances | glue_openspace_thesis/simp.py:97-111 | a float token always moves the offset forward and stays within the message |
| Simp.ColorBrackets | glue_openspace_thesis/simp.py:135-150 | a color starting with anything but `[` is refused with that character; an accepted color ends with `]`, and the offset is just past it |
| Simp.ReadColor | glue_openspace_thesis/simp.py:135-150 | `[`, four float tokens and `]`, with `IndexError` past the end and `SimpError` on a wrong bracket |
| Simp.ReadSingleColor | glue_openspace_thesis/simp.py:129-133 | the color of `read_color`, with one more character skipped |
| Utils.LengthPrefixField | glue_openspace_thesis/utils.py:65-67 | the nine-digit prefix reads back as the body's length, and is exactly nine characters when the body is shorter than 10^9 |
| Utils.EncodeValueList | glue_openspace_thesis/utils.py:58-67 | the loop builds the length-prefixed list of every value followed by `,`, in order |
| Utils.GetLuminosityData | glue_openspace_thesis/utils.py:56-68 | a missing-attribute error for a missing column, otherwise the length-prefixed comma list of the column |
| Utils.GetVelocityData | glue_openspace_thesis/utils.py:71-83 | a missing-attribute error for a missing column, otherwise the length-prefixed comma list of the column |
| Utils.FormatPointData | glue_openspace_thesis/utils.py:43-53 | `IndexError` when `y` or `z` is shorter than `x`; otherwise the three length-prefixed lists of x, y and z, each cut to `len(x)` |
| Utils.ReadBlockPrefixed | glue_openspace_thesis/utils.py:48-52 | a reader takes a length-prefixed body off the front and carries on with what follows it |
| Utils.ReadBlockCons | glue_openspace_thesis/utils.py:48-52 | one block in front of `n` readable blocks makes `n + 1` readable blocks |
| Utils.ReadAllBlocks | glue_openspace_thesis/utils.py:48-52 | any run of blocks reads back as the bodies it was made of |
| Utils.PointDataBlocks | glue_openspace_thesis/utils.py:52 | the point-data string reads back as exactly the x, y and z lists, in that order |
| Utils.CommaListCons | glue_openspace_thesis/utils.py:62-63 | read front first, the list is the first value, a comma, then the list of the rest |
| Utils.CommaListSplit | glue_openspace_thesis/utils.py:62-63 | with no comma inside a value, the list splits at commas into the values followed by one empty text, and holds one comma per value |
| Utils.PointDataEntries | glue_openspace_thesis/utils.py:43-46 | each coordinate list holds exactly one comma-terminated entry per point |
| Viewer.DataViewer.constructor | glue_openspace_thesis/viewer.py:119-145 | a new viewer is disconnected, with no socket, no running loops, nothing pending and both flags down |
| Viewer.DataViewer.SetConnectionState | glue_openspace_thesis/viewer.py:254-282 | returns the old state and stores the new one; Connected sets connected and clears connecting; Disconnected clears both; Connecting sets connecting only; SendingData changes neither; nothing else changes |
| Viewer.EntriesBytesLength | glue_openspace_thesis/viewer.py:368-374 | every pending entry adds at least its key and `;`, so a non-empty map never yields an empty subject |
| Viewer.EntriesBytesPrefix | glue_openspace_thesis/viewer.py:368-374 | the bytes of the first `j + 1` entries are those of the first `j`, then entry `j` |
| Viewer.BuildLayerSubject | glue_openspace_thesis/viewer.py:367-374 | the subject is the layer's prefix followed by each entry: key, `;`, the four-byte count when there is more than one value, then the data |
| Viewer.Ready | glue_openspace_thesis/viewer.py:338-345 | the gate without its mutex test: ready exactly when some identifier has pending entries, so the empty-map test adds nothing |
| Viewer.DataViewer.OutgoingDataMessageIsReady | glue_openspace_thesis/viewer.py:338-345 | false for an empty map, and otherwise true exactly when some identifier's map is non-empty |
| Viewer.DrainFrom | glue_openspace_thesis/viewer.py:357-383 | a round keeps the identifiers of the outgoing map and sends at most one subject per layer |
| Viewer.FlagSent | glue_openspace_thesis/viewer.py:383 | sending for layer `i` sets its `has_sent_initial_data` and leaves every other layer as it was |
| Viewer.FlagSkipped | glue_openspace_thesis/viewer.py:358-365 | a skipped layer keeps its flag |
| Viewer.DrainOrderCons | glue_openspace_thesis/viewer.py:357-383 | the subject for layer `i`, put in front of the sends for later layers on the map with `i`'s entries cleared, keeps the drain's order |
| Viewer.DrainSent | glue_openspace_thesis/viewer.py:357-383 | the round sends in layer order, only for layers with a non-empty identifier and pending entries, and each subject is the prefix plus the entries as they were |
| Viewer.DrainClears | glue_openspace_thesis/viewer.py:357-376 | after the round, the map of every identifier some layer carries is empty, the others are untouched, and no identifier is added or removed |
| Viewer.DrainComplete | glue_openspace_thesis/viewer.py:357-381 | every carried identifier that had entries gets a subject sent for a layer that carries it |
| Viewer.DrainSettles | glue_openspace_thesis/viewer.py:338-345 | after the round the readiness test is false exactly when every identifier with entries belongs to some layer |
| Viewer.DrainAdvance | glue_openspace_thesis/viewer.py:362-383 | draining layer `i` moves its subject from the plan to what was sent, empties its map and sets its flag |
| Viewer.DrainPass | glue_openspace_thesis/viewer.py:358-365 | a layer that does not drain changes nothing |
| Viewer.DrainBegins | glue_openspace_thesis/viewer.py:354-357 | a round about to start has sent nothing and has its whole plan ahead |
| Viewer.DrainEnds | glue_openspace_thesis/viewer.py:357-385 | a finished round has sent its plan, left the planned map, set the flags of the layers sent for, and written the planned frames |
| Viewer.SendSeriesOne | glue_openspace_thesis/viewer.py:380-381 | one subject is one run of the retry loop |
| Viewer.SendSeriesCons | glue_openspace_thesis/viewer.py:357-381 | sending one subject and then the rest is the same as sending them all |
| Viewer.SendSeriesComplete | glue_openspace_thesis/viewer.py:380-381 | no send failed exactly when every subject was delivered, and then the frames went out in drain order |
| Viewer.DataViewer.DrainLayer | glue_openspace_thesis/viewer.py:358-365 | a layer with a missing or empty identifier, no map or an empty map is skipped with nothing changed; otherwise its subject is sent |
| Viewer.DataViewer.SendLayer | glue_openspace_thesis/viewer.py:362-383 | the layer's map is emptied, its flag set, and the frame of its subject goes through the retry loop |
| Viewer.DataViewer.DrainStep | glue_openspace_thesis/viewer.py:357-383 | one pass of the layer loop carries the round's plan forward |
| Viewer.DataViewer.DrainLayers | glue_openspace_thesis/viewer.py:357-384 | the loop over all layers completes the round's plan |
| Viewer.DataViewer.OutgoingDataMessageRound | glue_openspace_thesis/viewer.py:354-385 | the round sends what `DrainFrom` plans, in order. It leaves the planned map and sets the flags of the layers sent for. The lost flag is raised iff some send failed. The previous connection state comes back |
| Viewer.DataViewer.Received | glue_openspace_thesis/viewer.py:438-452 | the next read: `AttributeError` exactly when there is no socket, and a successful read is never empty |
| Viewer.DataViewer.ReadSocket | glue_openspace_thesis/viewer.py:438-452 | a socket error or an empty read raises `DisconnectionException`; otherwise the data; one read is consumed |
| Viewer.DataViewer.ReceiveHandshake | glue_openspace_thesis/viewer.py:455-473 | a Connection frame moves the viewer to Connected and starts the outgoing loop; any other frame changes nothing; a read or parse error is raised |
| Viewer.HandshakeRecognises | glue_openspace_thesis/viewer.py:461-466 | a frame built for a four-character type completes the handshake exactly when that type is `CONN` |
| Viewer.RouteExact | glue_openspace_thesis/viewer.py:496-498 | a message reaches exactly the layers with the identifier read, once each, in layer order, unchanged |
| Viewer.Route | glue_openspace_thesis/viewer.py:496-498 | at most one delivery per layer, each to an existing layer carrying the identifier, with the message unchanged |
| Viewer.Deliveries | glue_openspace_thesis/viewer.py:483-498 | nothing for a Connection frame; otherwise each delivery goes to an existing layer that has an identifier, with the frame's type and subject and an offset inside the subject |
| Viewer.DataViewer.RouteMessage | glue_openspace_thesis/viewer.py:496-498 | the layer loop hands the message to the layers `Route` names |
| Viewer.DeliveriesOfDataSubject | glue_openspace_thesis/viewer.py:488-498 | a data subject with two leading tokens goes to the layers carrying the first token, with the offset just past both |
| Viewer.DataViewer.DispatchMessage | glue_openspace_thesis/viewer.py:479-502 | a frame that does not parse raises its error; otherwise the deliveries made: none for `CONN` or an unreadable token |
| Viewer.DataViewer.ReceiveMessage | glue_openspace_thesis/viewer.py:475-502 | read errors and parse errors are raised; otherwise every delivery is appended to the forwarded messages, and nothing else changes |
| Viewer.AnyNonIntegral | glue_openspace_thesis/viewer.py:522 | false iff every part is integral; true only when some part is not; `ValueError` only when some part is no number |
| Viewer.SplitHostPort | glue_openspace_thesis/viewer.py:508-518 | a lower-cased text shorter than 8 is refused; a result has no `:` in host or port, and the host is never `localhost` |
| Viewer.CheckNumerals | glue_openspace_thesis/viewer.py:520-524 | four dot parts always pass; otherwise passing means every part and the port are integral numerals |
| Viewer.SplitAddress | glue_openspace_thesis/viewer.py:515 | `host:port` splits at its one `:` |
| Viewer.SplitHostPortText | glue_openspace_thesis/viewer.py:508-518 | a lower-case `host:port`, with or without `tcp://`, yields its host (`localhost` rewritten) and its port |
| Viewer.NormaliseFourParts | glue_openspace_thesis/viewer.py:520-529 | a host with four dot parts connects with its port, or with 4700 when the port is empty, whatever the numeral test says |
| Viewer.LoopbackParts | glue_openspace_thesis/viewer.py:517-520 | `127.0.0.1` has four dot parts |
| Viewer.NormaliseLocalhost | glue_openspace_thesis/viewer.py:508-529 | `localhost:port` connects to `127.0.0.1`, with port 4700 when the port is empty |
| Viewer.NormaliseAddress | glue_openspace_thesis/viewer.py:508-529 | a normalised host is never `localhost` and holds no `:`; a port text is non-empty and holds no `:`; the only errors are `ValueError` and `SimpError` |
| Viewer.LowerNoUpper | glue_openspace_thesis/viewer.py:508 | lower-casing leaves a text without capitals unchanged |
| Viewer.DataViewer.ResetSocket | glue_openspace_thesis/viewer.py:505-534 | On an address that normalises, the socket is the connection made, and `OSError` escapes when the connection fails. A refused address moves the viewer to Disconnected and raises a bare `Exception`. A `ValueError` escapes and changes nothing |
| Viewer.DataViewer.DisconnectFromOpenSpace | glue_openspace_thesis/viewer.py:559-581 | Without a socket nothing changes. Otherwise both loops stop, the socket is shut down and dropped, every layer's flag is cleared, the lost flag is reset, and the state is Disconnected |
| Viewer.DataViewer.RequestListen | glue_openspace_thesis/viewer.py:400-436 | Polls the handshake at most 21 times, and a timeout comes only after all 21. A loop that is not running exits at once. So does a lost connection. Every exit disconnects: no socket, Disconnected, both loops stopped, every layer's flag cleared |
| LayerArtist.EchoFlag.constructor | glue_openspace_thesis/layer_artist.py:32 | `will_send_message` starts raised |
| LayerArtist.Artist.constructor | glue_openspace_thesis/layer_artist.py:51-71 | a new artist has no identifier, no tracked subset state and has sent nothing |
| LayerArtist.UpdateMessage | glue_openspace_thesis/layer_artist.py:127-159 | no update exactly when none of opacity, size and visibility changed; an update subject is never empty |
| LayerArtist.UpdatePrecedence | glue_openspace_thesis/layer_artist.py:127-159 | opacity wins over size and size over visibility, whatever else changed with them |
| LayerArtist.UpdateSubject | glue_openspace_thesis/layer_artist.py:125-148 | the UPOP and UPSI subject holds the identifier, the value and two length fields, and ends with the value |
| LayerArtist.VisibilitySubject | glue_openspace_thesis/layer_artist.py:150-159 | the TOVI subject holds the identifier and a length field, and ends with `T` or `F` as the layer is visible or not |
| LayerArtist.SendPointData | glue_openspace_thesis/layer_artist.py:187-233 | `send_point_data` sends at most one message, and only PDAT |
| LayerArtist.React | glue_openspace_thesis/layer_artist.py:100-184 | at most two messages; the identifier is kept or replaced by the fresh one; the tracked state changes only for a subset, to its subset state; an RSGN message comes first and removes the old identifier |
| LayerArtist.EchoSuppressed | glue_openspace_thesis/layer_artist.py:118-120 | with the flag down, an artist that has an identifier sends nothing and changes nothing |
| LayerArtist.NothingToSend | glue_openspace_thesis/layer_artist.py:106-115 | without a socket, without longitude and latitude, or with nothing changed and no force, nothing is sent or changed |
| LayerArtist.OneUpdatePerBatch | glue_openspace_thesis/layer_artist.py:118-165 | for a known layer, a change to opacity, size or visibility sends exactly one UPOP, UPSI or TOVI message and keeps the identifier |
| LayerArtist.FirstSendIsPointData | glue_openspace_thesis/layer_artist.py:177-184 | a layer OpenSpace does not know gets a fresh identifier, even with the flag down, and its point data is the only message |
| LayerArtist.Artist.RemoveSceneGraphNode | glue_openspace_thesis/layer_artist.py:236-239 | sends one RSGN message carrying the identifier |
| LayerArtist.Artist.SendPointDataNow | glue_openspace_thesis/layer_artist.py:187-233 | a fresh identifier always, and the PDAT message when its subject can be built |
| LayerArtist.Artist.Clear | glue_openspace_thesis/layer_artist.py:366-374 | with a socket and an identifier, sends RSGN and forgets the identifier; otherwise nothing changes |
| LayerArtist.Artist.OnAttributeChange | glue_openspace_thesis/layer_artist.py:100-184 | the identifier, tracked subset state and messages sent are those `React` gives for the artist's state before the call |
| LayerArtist.IntField | glue_openspace_thesis/layer_artist.py:266 | `int()` of a field succeeds exactly on decimal text, and otherwise raises `ValueError` |
| LayerArtist.ReadHeader | glue_openspace_thesis/layer_artist.py:260-282 | errors are only `ValueError`; the value-length field is two characters for UPCO and one otherwise |
| LayerArtist.ReadLegacyHeader | glue_openspace_thesis/layer_artist.py:260-282 | the offset arithmetic computes `ReadHeader` |
| LayerArtist.ReadChange | glue_openspace_thesis/layer_artist.py:287-358 | TOVI reads one character (`F` means hidden, `IndexError` past the end); other unknown types change nothing; opacity and size values come only from UPOP and UPSI |
| LayerArtist.ParseIntStr | glue_openspace_thesis/layer_artist.py:274 | `int(str(n)) == n` |
| LayerArtist.StrTwoDigits | glue_openspace_thesis/layer_artist.py:273-274 | `str(n)` of a two-digit number fills the two-character field |
| LayerArtist.FrameFields | glue_openspace_thesis/layer_artist.py:261-269 | type, four-digit length and subject sit at their fixed offsets |
| LayerArtist.SubjectFields | glue_openspace_thesis/layer_artist.py:272-277 | a subject starting with a two-digit identifier length gives back the identifier |
| LayerArtist.HeaderOfFrame | glue_openspace_thesis/layer_artist.py:260-282 | the header of a framed subject is its type, subject, identifier and the value-length offsets |
| LayerArtist.HeaderFromFields | glue_openspace_thesis/layer_artist.py:260-282 | the header in terms of the fields found at their offsets |
| LayerArtist.UpdateRoundTrip | glue_openspace_thesis/layer_artist.py:325-346 | an opacity or size subject built by the callback and framed for the parser gives back the identifier and the value its text denotes |
| LayerArtist.VisibilityRoundTrip | glue_openspace_thesis/layer_artist.py:349-357 | a visibility subject built by the callback gives back the identifier and the visibility it was built from |
| LayerArtist.FirstMatch | glue_openspace_thesis/layer_artist.py:284-285 | the index of the first layer with the identifier, every earlier layer lacking it, or the number of layers when none has it |
| LayerArtist.FindLayer | glue_openspace_thesis/layer_artist.py:284-285 | the layer loop stops at `FirstMatch` |
| LayerArtist.Received | glue_openspace_thesis/layer_artist.py:248-258 | a change is only ever made to an existing layer, and is never the empty change |
| LayerArtist.Processed | glue_openspace_thesis/layer_artist.py:260-282 | as `Received`, once the message is non-empty |
| LayerArtist.Delivered | glue_openspace_thesis/layer_artist.py:284-363 | as `Received`, once the header is read |
| LayerArtist.Artist.ApplyUpdate | glue_openspace_thesis/layer_artist.py:320-357 | exactly one property is written, with the flag lowered; the artist's identifier, tracked state, socket and sent messages are kept; `NoChange` leaves state and flag alone |
| LayerArtist.Artist.ReceiveMessage | glue_openspace_thesis/layer_artist.py:248-364 | A failed or empty read returns quietly. A malformed field raises before anything changes. Otherwise the update goes to the first matching layer and the flag is raised again. Every other layer state and every artist's identifier, tracked state, socket and sent messages are kept |
| LayerArtist.Artist.ProcessMessage | glue_openspace_thesis/layer_artist.py:260-364 | the part of `receive_message` after a non-empty read, with the same guarantees |
| LayerArtist.Artist.Deliver | glue_openspace_thesis/layer_artist.py:284-363 | the part of `receive_message` after the header, with the same guarantees |

## Left out

- The Qt interface is not modelled: buttons, text fields, message boxes and
  `qApp.processEvents()`. The address text is a parameter of `ResetSocket`.
- Logging, `print` and the debug output are not modelled, because they change
  no state the protocol reads.
- Threads, the `Condition` wait and the mutex are not modelled. The drain runs
  as one sequential round once the gate `outgoing_data_message_is_ready` has
  opened. The mutex test of that gate is dropped. The release inside the
  per-layer loop (viewer.py:378) would be unbalanced when run sequentially,
  and is left out.
- `time.sleep` is not modelled, because it has no effect on state.
- The socket is a script of outcomes, set by the caller. Real network I/O is
  not modelled.
- `bytes` and `str` are the same in the model, and so are the utf-8 and ascii
  decodes. A decode that fails is not modelled:
  - Viewer.DataViewer.ReceiveHandshake: invalid UTF-8 makes the `decode` at
    viewer.py:458 raise `UnicodeDecodeError`, and the listen loop then
    disconnects. The model parses the frame instead.
  - LayerArtist.Artist.ReceiveMessage: a non-ASCII byte makes the `decode` at
    layer_artist.py:252 raise, and the bare `except` at lines 253-254 returns
    with nothing changed. The model processes the message. For example, a
    TOVI value `é` leaves `visible` unchanged in Python, while the model sets
    it to true.

  In Python 3 `parse_message` compares the version slice of the
  `bytes` the viewer hands it against the text `'1.8'`. The model compares
  text.
- `int()` is modelled as an optional sign followed by decimal digits. The
  surrounding whitespace and the `_` separators Python also accepts are not
  modelled.
- Floats are parameters and are not computed:
  - the `hex_to_float` decoder;
  - `str(round(alpha, 7))` and `str(size)`;
  - `float()` on inbound values;
  - the UPCO triple parser together with `to_hex`, as `parseColor`;
  - `float(n).is_integer()`, as `integral`.
- The values the environment supplies are inputs: `uuid4()`, the coordinate
  columns after conversion, and the point-data tail of the PDAT subject
  (colour, opacity, size, gui name, point data).
- The astropy `SkyCoord` conversion in `get_point_data` (utils.py:7-41) is not
  modelled. Only the string assembly at lines 43-53 is.
- The layer artist imports `send_simp_message` and `WAIT_TIME` from `utils`
  (layer_artist.py:17), but the `utils.py` modelled here defines neither. So
  the layer artist's sends are recorded as an outbox of (type, subject)
  messages.
  `self.redraw()` is not modelled.
- Several names the viewer uses are defined outside this model's files, so
  they are parameters:
  - `simp.MessageType`, named here `ConnectionCode` and the data type;
  - `simp.DELIM`;
  - `get_identifier_str` and `get_subject_prefix`, as fields of `LayerView`;
  - `int32_to_bytes`, as `countBytes`.
- `POLL_RETRIES` is the viewer's `pollRetries`.
- Viewer.DataViewer.RequestListen: the loop runs for at most `fuel` passes.
  In the original, only another thread clearing `_thread_running` ends the
  loop in the connected state. That cut-off is the `Paused` exit.
- Viewer.DataViewer.ReceiveHandshake: `layer.update(force=True)` on every
  layer is not modelled, because the layer's class is not part of this model.
  Starting the outgoing thread is modelled as setting a flag, and its
  `is_alive()` test is not modelled.
- Viewer.DataViewer.ResetSocket: the socket created at viewer.py:527 is the
  parameter `created`, and the viewer holds it when `create_connection`
  fails. Only its `settimeout(0.0)` is not modelled. `create_connection` is
  the parameter `connection`, which is null when the call raises. The
  `messagebox_on_error` wrapper is not modelled.
- Viewer.DataViewer.ReceiveMessage: the layer's `receive_message`
  (viewer.py:498) belongs to a class that is not part of this model, and is
  taken to return normally. The model records every delivery as made. In the
  original, a `SimpError` raised there would reach the handler at
  viewer.py:500-502, and the later matching layers would get nothing.
- Python.Lower: only ASCII letters are lower-cased, one character for one.
  Python's `str.lower()` applies the full Unicode case mapping, which can
  lengthen the text (`'İ'.lower()` is two code points). So for an address
  with such letters the model can fail the `len(ip) < 8` test at viewer.py:509
  where Python passes it. For example, `"İİİİİİİ"` makes Python raise
  `ValueError` at the split with nothing changed, while the model raises
  `SimpError` and moves the viewer to Disconnected.
- Utils.GetLuminosityData, Utils.GetVelocityData: a column missing from the
  data is `Err(KeyError)`. This stands in for the error glue's
  `Data.__getitem__` raises for an unknown attribute (its own
  `IncompatibleAttribute`), whose class is not part of this model.
- LayerArtist.Artist.OnAttributeChange: the `visible` branch that returns when
  `state.visible` is neither `True` nor `False` cannot occur. The model's
  visibility is a `bool`.
- The layer artist's `request_listen`, `start_socket_thread`,
  `shutdown_connection` and `close_actions` are not modelled. They are thread
  and socket plumbing around `receive_message`, which is modelled.
