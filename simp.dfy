/** The SIMP text protocol: building and parsing a frame, sending it with a
    bounded number of retries, and the cursor-style reader for
    `;`-terminated tokens in a subject. */
module Simp {
  import opened Python
  import Net

  const ProtocolVersion: string := "1.8"
  /** The token terminator, and the character that keeps it from ending a token. */
  const Sep: char := ';'
  const Escape: char := '\\'
  /** Width of the zero-padded decimal subject-length field. */
  const LengthWidth: nat := 15
  /** Version (3) + message type (4) + subject length (15). */
  const HeaderLength: nat := 22

  const UnexpectedEnd: string := "Unexpectedly reached the end of the message..."
  const MissingSeparator: string := "Reached end of message before reading separator character..."

  /** The message of the `SimpError` raised when a numeric token does not convert. */
  function BadNumber(token: string): string
  {
    "Error when trying to parse the float " + token
  }

  function BadBracket(expected: char, got: char): string
  {
    "Expected to read \"" + [expected] + "\", got " + [got] + " in \"readColor\""
  }

  datatype MessageType =
    | Connection | Disconnection | PointData | RemoveSceneGraphNode | Color
    | ColorMap | ColorMapAttributeData | Opacity | Size | Visibility

  /** The wire code of a message type. */
  function Code(t: MessageType): (code: string)
    ensures |code| == 4
  {
    match t
    case Connection => "CONN"
    case Disconnection => "DISC"
    case PointData => "PDAT"
    case RemoveSceneGraphNode => "RSGN"
    case Color => "FCOL"
    case ColorMap => "LCOL"
    case ColorMapAttributeData => "ATDA"
    case Opacity => "FOPA"
    case Size => "FPSI"
    case Visibility => "TOVI"
  }

  /** Distinct message types have distinct codes, so a code read off the wire names one type. */
  lemma CodeInjective(t: MessageType, u: MessageType)
    requires Code(t) == Code(u)
    ensures t == u
  {
  }

  // ---------------------------------------------------------------- frames

  /** The text `send_simp_message` writes: version, type, subject length, subject. */
  function BuildFrame(messageType: string, subject: string): (f: string)
    ensures StartsWith(f, ProtocolVersion + messageType)
    ensures |f| >= |ProtocolVersion + messageType| + LengthWidth + |subject| && f[|f| - |subject|..] == subject
  {
    ProtocolVersion + messageType + ZeroPad(|subject|, LengthWidth) + subject
  }

  /** For a 4-character type and a subject shorter than 10^15 the header is
      exactly 22 characters and each field sits at its fixed offset. */
  lemma FrameLayout(messageType: string, subject: string)
    requires |messageType| == 4 && |subject| < Pow10(LengthWidth)
    ensures var f := BuildFrame(messageType, subject);
      && |f| == HeaderLength + |subject|
      && f[..3] == ProtocolVersion
      && f[3..7] == messageType
      && f[7..HeaderLength] == ZeroPad(|subject|, LengthWidth)
      && f[HeaderLength..] == subject
  {
    ZeroPadField(|subject|, LengthWidth);
  }

  datatype Frame = Frame(messageType: string, subject: string)

  /** `parse_message`: a version mismatch raises `DisconnectionException`; an
      unreadable length field raises `ValueError`; otherwise the type and as much
      of the declared subject as the buffer holds. */
  function ParseMessage(m: string): (r: Result<Frame>)
    ensures r.Ok? ==> StartsWith(m, ProtocolVersion) && |r.value.messageType| <= 4
    ensures r.Ok? ==> |r.value.subject| <= |m| - (if |m| < HeaderLength then |m| else HeaderLength)
    ensures r.Err? ==> r.error == DisconnectionException || r.error == ValueError
  {
    if Slice(m, 0, 3) != ProtocolVersion then Err(DisconnectionException)
    else
      match ParseInt(Slice(m, 7, 22))
      case None => Err(ValueError)
      case Some(n) => Ok(Frame(Slice(m, 3, 7), Slice(m, 22, 22 + n)))
  }

  /** The parse is refused as a disconnection exactly when the first three
      characters are not the protocol version. */
  lemma ParseVersionMismatch(m: string)
    ensures ParseMessage(m) == Err(DisconnectionException) <==> (|m| < 3 || m[..3] != ProtocolVersion)
  {
    if |m| < 3 {
      assert |Slice(m, 0, 3)| < 3;
    }
  }

  /** On a matching version with a readable non-negative length `n`, the type is
      characters 3..7 and the subject is what follows the header, cut at `n`
      characters or at the end of the buffer, whichever comes first. */
  lemma ParseFields(m: string, n: nat)
    requires |m| >= HeaderLength && m[..3] == ProtocolVersion
    requires ParseInt(m[7..HeaderLength]) == Some(n)
    ensures ParseMessage(m) == Ok(Frame(m[3..7], m[HeaderLength..if HeaderLength + n <= |m| then HeaderLength + n else |m|]))
  {
    assert Slice(m, 0, 3) == m[..3];
    assert Slice(m, 7, 22) == m[7..HeaderLength];
    assert Slice(m, 3, 7) == m[3..7];
    if HeaderLength + n > |m| {
      assert Slice(m, 22, 22 + n) == m[HeaderLength..] == m[HeaderLength..|m|];
    }
  }

  /** A slice inside the first part of a concatenation is a slice of that part. */
  lemma PrefixSlice(f: string, rest: string, i: nat, j: nat)
    requires i <= j <= |f|
    ensures (f + rest)[i..j] == f[i..j]
  {
  }

  /** Parsing what `send_simp_message` builds gives back its type and subject,
      whatever follows the frame in the buffer. */
  lemma FrameRoundTrip(messageType: string, subject: string, rest: string)
    requires |messageType| == 4 && |subject| < Pow10(LengthWidth)
    ensures ParseMessage(BuildFrame(messageType, subject) + rest) == Ok(Frame(messageType, subject))
  {
    var f := BuildFrame(messageType, subject);
    var m := f + rest;
    FrameLayout(messageType, subject);
    ParseIntZeroPad(|subject|, LengthWidth);
    PrefixSlice(f, rest, 0, 3);
    PrefixSlice(f, rest, 3, 7);
    PrefixSlice(f, rest, 7, HeaderLength);
    PrefixSlice(f, rest, HeaderLength, |f|);
    ParseFields(m, |subject|);
  }

  // ---------------------------------------------------------------- sending

  function Tail(s: seq<bool>): seq<bool>
  {
    if |s| > 0 then s[1..] else []
  }

  /** What is left of a send script after `k` calls. */
  function Drop(s: seq<bool>, k: nat): seq<bool>
  {
    if k <= |s| then s[k..] else []
  }

  /** How many `sendall` calls the retry loop makes when the socket is `usable`
      and its coming outcomes are `script`. */
  function Attempts(script: seq<bool>, usable: bool, retries: nat): nat
  {
    if retries == 0 then 0
    else if usable && |script| > 0 && script[0] then 1
    else 1 + Attempts(Tail(script), usable, retries - 1)
  }

  /** Whether one of the first `retries` calls succeeds. */
  predicate Delivers(script: seq<bool>, usable: bool, retries: nat)
  {
    retries > 0 && ((usable && |script| > 0 && script[0]) || Delivers(Tail(script), usable, retries - 1))
  }

  /** The loop never exceeds its budget, stops at the first success, and uses
      the whole budget when nothing succeeds. */
  lemma {:induction false} AttemptsBound(script: seq<bool>, usable: bool, retries: nat)
    ensures Attempts(script, usable, retries) <= retries
    ensures Delivers(script, usable, retries) <==> exists j :: 0 <= j < retries && j < |script| && usable && script[j]
    ensures Delivers(script, usable, retries) ==>
      var k := Attempts(script, usable, retries);
      && 1 <= k <= |script| && script[k - 1]
      && forall j :: 0 <= j < k - 1 ==> !script[j]
    ensures !Delivers(script, usable, retries) ==> Attempts(script, usable, retries) == retries
  {
    if retries > 0 && !(usable && |script| > 0 && script[0]) {
      AttemptsBound(Tail(script), usable, retries - 1);
      if |script| > 0 {
        forall j | 0 <= j < retries - 1 && j < |Tail(script)| ensures Tail(script)[j] == script[j + 1] { }
        if exists j :: 0 <= j < retries && j < |script| && usable && script[j] {
          var j :| 0 <= j < retries && j < |script| && usable && script[j];
          assert j > 0;
          assert Tail(script)[j - 1] == script[j];
        }
      }
    }
  }

  /** `send_simp_message`: up to `pollRetries` attempts to write the frame,
      stopping at the first that succeeds; `lost` is the new value of
      `_lost_connection`, set when every attempt failed and otherwise left as it
      was. A missing socket makes every attempt fail. */
  method SendSimpMessage(sock: Net.Socket?, messageType: string, subject: string, pollRetries: nat, wasLost: bool)
    returns (attempts: nat, lost: bool)
    modifies sock
    ensures var script := if sock != null then old(sock.sendScript) else [];
      var usable := sock != null && old(sock.open);
      && attempts == Attempts(script, usable, pollRetries)
      && lost == (wasLost || !Delivers(script, usable, pollRetries))
      && (sock != null ==>
            sock.written == old(sock.written) +
              (if Delivers(script, usable, pollRetries) then [BuildFrame(messageType, subject)] else []))
    ensures sock != null ==> sock.sendScript == Drop(old(sock.sendScript), attempts)
    ensures sock != null ==> sock.readScript == old(sock.readScript) && sock.open == old(sock.open)
  {
    var frame := BuildFrame(messageType, subject);
    ghost var script := if sock != null then sock.sendScript else [];
    ghost var usable := sock != null && sock.open;
    ghost var rest := script;
    var sendRetries := 0;
    var messageSent := false;
    attempts := 0;
    while !messageSent && sendRetries < pollRetries
      invariant sendRetries <= pollRetries
      invariant sock != null ==> sock.open == old(sock.open) && sock.readScript == old(sock.readScript)
      invariant rest == Drop(script, sendRetries)
      invariant !messageSent ==> sock != null ==> sock.sendScript == rest && sock.written == old(sock.written)
      invariant messageSent ==> sock != null && sock.sendScript == Drop(script, attempts)
      invariant !messageSent ==> attempts == sendRetries
      invariant !messageSent ==> Attempts(script, usable, pollRetries) == sendRetries + Attempts(rest, usable, pollRetries - sendRetries)
      invariant !messageSent ==> Delivers(script, usable, pollRetries) == Delivers(rest, usable, pollRetries - sendRetries)
      invariant messageSent ==> attempts == Attempts(script, usable, pollRetries) && Delivers(script, usable, pollRetries)
      invariant messageSent ==> sock != null && sock.written == old(sock.written) + [frame]
      decreases pollRetries - sendRetries, !messageSent
    {
      var ok := false;
      if sock != null {
        ok := sock.SendAll(frame);
      }
      attempts := attempts + 1;
      if ok {
        messageSent := true;
      } else {
        sendRetries := sendRetries + 1;
        rest := Tail(rest);
      }
    }
    lost := wasLost || !messageSent;
  }

  // ---------------------------------------------------------------- token reader

  /** Position `p` holds a `;` that ends a token: not the first character and
      not preceded by `\`. */
  predicate UnescapedSep(m: string, p: int)
  {
    0 < p < |m| && m[p] == Sep && m[p - 1] != Escape
  }

  /** `is_end_of_current_value`. */
  function IsEndOfCurrentValue(m: string, offset: nat): (r: Result<bool>)
    ensures offset >= |m| ==> r == Err(SimpError(UnexpectedEnd))
    ensures offset == |m| - 1 && m[offset] != Sep ==> r == Err(SimpError(MissingSeparator))
    ensures r.Ok? <==> offset < |m| - 1 || (offset == |m| - 1 && m[offset] == Sep)
    ensures r.Ok? ==> (r.value <==> UnescapedSep(m, offset))
  {
    if offset >= |m| then Err(SimpError(UnexpectedEnd))
    else if |m| > 0 && offset == |m| - 1 && m[offset] != Sep then Err(SimpError(MissingSeparator))
    else Ok(offset > 0 && m[offset] == Sep && m[offset - 1] != Escape)
  }

  /** A value read from a subject and the offset just past it. */
  datatype Read<T> = Read(value: T, next: nat)

  /** What the scanning loop of the readers computes: started at `start`, it has
      reached `offset` without meeting the end of the value. */
  function Scan(m: string, start: nat, offset: nat): (r: Result<Read<string>>)
    requires start <= offset
    ensures r.Ok? ==> offset < r.value.next <= |m| && |r.value.value| == r.value.next - 1 - start
    ensures r.Err? ==> r.error.SimpError?
    decreases |m| - offset
  {
    match IsEndOfCurrentValue(m, offset)
    case Err(e) => Err(e)
    case Ok(atEnd) =>
      if atEnd then Ok(Read(m[start..offset], offset + 1)) else Scan(m, start, offset + 1)
  }

  predicate HasTerminator(m: string, offset: nat)
  {
    exists p :: offset <= p < |m| && UnescapedSep(m, p)
  }

  /** `next - 1` is the first unescaped `;` at or after `offset`. */
  predicate FirstTerminator(m: string, offset: nat, next: nat)
  {
    offset < next <= |m| && UnescapedSep(m, next - 1)
    && forall p :: offset <= p < next - 1 ==> !UnescapedSep(m, p)
  }

  /** The error a failed scan raises: a missing separator when the message ends
      in something other than `;` and the scan started inside it, otherwise an
      unexpected end. */
  function ScanFailure(m: string, offset: nat): string
  {
    if offset < |m| && m[|m| - 1] != Sep then MissingSeparator else UnexpectedEnd
  }

  /** The scan succeeds exactly when an unescaped `;` lies ahead; it then stops
      at the first one and yields everything before it, escapes kept; otherwise
      it fails with the error `ScanFailure` names. */
  lemma {:induction false} ScanCharacterisation(m: string, start: nat, offset: nat)
    requires start <= offset
    ensures Scan(m, start, offset).Ok? <==> HasTerminator(m, offset)
    ensures Scan(m, start, offset).Ok? ==>
      var t := Scan(m, start, offset).value;
      FirstTerminator(m, offset, t.next) && t.value == m[start..t.next - 1]
    ensures Scan(m, start, offset).Err? ==> Scan(m, start, offset).error == SimpError(ScanFailure(m, offset))
    decreases |m| - offset
  {
    var e := IsEndOfCurrentValue(m, offset);
    if e.Ok? && !e.value {
      ScanCharacterisation(m, start, offset + 1);
      if HasTerminator(m, offset) {
        var p :| offset <= p < |m| && UnescapedSep(m, p);
        assert p != offset;
      }
    }
  }

  /** The writer's side: a token in which every `;` is escaped and which does not
      end in `\`, written after `prefix` and followed by `;`, reads back as
      itself with the offset just past its terminator. */
  lemma {:induction false} TokenRoundTrip(prefix: string, token: string, rest: string)
    requires forall i :: 0 <= i < |token| && token[i] == Sep ==> i > 0 && token[i - 1] == Escape
    requires |prefix + token| > 0 && (prefix + token)[|prefix + token| - 1] != Escape
    ensures Scan(prefix + token + [Sep] + rest, |prefix|, |prefix|) == Ok(Read(token, |prefix| + |token| + 1))
  {
    var m := prefix + token + [Sep] + rest;
    var end := |prefix| + |token|;
    assert UnescapedSep(m, end);
    forall p | |prefix| <= p < end ensures !UnescapedSep(m, p) {
      assert m[p] == token[p - |prefix|];
      if m[p] == Sep { assert m[p - 1] == token[p - |prefix| - 1]; }
    }
    ScanCharacterisation(m, |prefix|, |prefix|);
    assert m[|prefix|..end] == token;
  }

  /** `read_string`: the text before the first unescaped `;` and the offset just
      past that `;`. */
  method ReadString(m: string, offset: nat) returns (r: Result<Read<string>>)
    ensures r == Scan(m, offset, offset)
    ensures r.Ok? <==> HasTerminator(m, offset)
    ensures r.Ok? ==> FirstTerminator(m, offset, r.value.next) && r.value.value == m[offset..r.value.next - 1]
    ensures r.Err? ==> r.error == SimpError(ScanFailure(m, offset))
  {
    ScanCharacterisation(m, offset, offset);
    var value := "";
    var i := offset;
    while true
      invariant offset <= i
      invariant i <= |m| || i == offset
      invariant i <= |m| ==> value == m[offset..i]
      invariant Scan(m, offset, i) == Scan(m, offset, offset)
      decreases |m| - i
    {
      var atEnd := IsEndOfCurrentValue(m, i);
      if atEnd.Err? {
        return Err(atEnd.error);
      }
      if atEnd.value {
        break;
      }
      value := value + [m[i]];
      i := i + 1;
    }
    r := Ok(Read(value, i + 1));
  }

  /** `read_int`: a token converted with `int()`. */
  method ReadInt(m: string, offset: nat) returns (r: Result<Read<int>>)
    ensures Scan(m, offset, offset).Err? ==> r == Err(Scan(m, offset, offset).error)
    ensures Scan(m, offset, offset).Ok? ==>
      var t := Scan(m, offset, offset).value;
      r == match ParseInt(t.value)
           case Some(v) => Ok(Read(v, t.next))
           case None => Err(SimpError(BadNumber(t.value)))
  {
    var t :- ReadString(m, offset);
    var v := ParseInt(t.value);
    if v.None? {
      return Err(SimpError(BadNumber(t.value)));
    }
    r := Ok(Read(v.value, t.next));
  }

  /** What `read_float` computes; `hexToFloat` stands for the conversion of the
      hexadecimal token, `None` when it raises. */
  function FloatAt<F>(m: string, offset: nat, hexToFloat: string -> Option<F>): Result<Read<F>>
  {
    match Scan(m, offset, offset)
    case Err(e) => Err(e)
    case Ok(t) =>
      match hexToFloat(t.value)
      case Some(v) => Ok(Read(v, t.next))
      case None => Err(SimpError(BadNumber(t.value)))
  }

  /** `read_float`, the imperative form of `FloatAt`. */
  method ReadFloat<F>(m: string, offset: nat, hexToFloat: string -> Option<F>) returns (r: Result<Read<F>>)
    ensures r == FloatAt(m, offset, hexToFloat)
    ensures r.Ok? ==> HasTerminator(m, offset) && FirstTerminator(m, offset, r.value.next)
  {
    var t :- ReadString(m, offset);
    var v := hexToFloat(t.value);
    if v.None? {
      return Err(SimpError(BadNumber(t.value)));
    }
    r := Ok(Read(v.value, t.next));
  }

  datatype Rgba<F> = Rgba(r: F, g: F, b: F, a: F)

  /** What `read_color` computes: `[`, four float tokens, `]`. Indexing past the
      end raises `IndexError`, a wrong bracket a `SimpError`. */
  function ColorAt<F>(m: string, offset: nat, hexToFloat: string -> Option<F>): Result<Read<Rgba<F>>>
  {
    if offset >= |m| then Err(IndexError)
    else if m[offset] != '[' then Err(SimpError(BadBracket('[', m[offset])))
    else
      var r :- FloatAt(m, offset + 1, hexToFloat);
      var g :- FloatAt(m, r.next, hexToFloat);
      var b :- FloatAt(m, g.next, hexToFloat);
      var a :- FloatAt(m, b.next, hexToFloat);
      if a.next >= |m| then Err(IndexError)
      else if m[a.next] != ']' then Err(SimpError(BadBracket(']', m[a.next])))
      else Ok(Read(Rgba(r.value, g.value, b.value, a.value), a.next + 1))
  }

  /** A color is accepted only between `[` and `]`, and reading it stops just past the `]`. */
  lemma ColorBrackets<F>(m: string, offset: nat, hexToFloat: string -> Option<F>)
    ensures offset < |m| && m[offset] != '[' ==> ColorAt(m, offset, hexToFloat) == Err(SimpError(BadBracket('[', m[offset])))
    ensures ColorAt(m, offset, hexToFloat).Ok? ==>
      var n := ColorAt(m, offset, hexToFloat).value.next;
      offset + 5 < n <= |m| && m[offset] == '[' && m[n - 1] == ']'
  {
    if ColorAt(m, offset, hexToFloat).Ok? {
      var r := FloatAt(m, offset + 1, hexToFloat).value;
      var g := FloatAt(m, r.next, hexToFloat).value;
      var b := FloatAt(m, g.next, hexToFloat).value;
      var a := FloatAt(m, b.next, hexToFloat).value;
      FloatAdvances(m, offset + 1, hexToFloat);
      FloatAdvances(m, r.next, hexToFloat);
      FloatAdvances(m, g.next, hexToFloat);
      FloatAdvances(m, b.next, hexToFloat);
    }
  }

  /** A float token occupies at least its `;`. */
  lemma FloatAdvances<F>(m: string, offset: nat, hexToFloat: string -> Option<F>)
    ensures FloatAt(m, offset, hexToFloat).Ok? ==> offset < FloatAt(m, offset, hexToFloat).value.next <= |m|
  {
    ScanCharacterisation(m, offset, offset);
  }

  /** `read_color`, the imperative form of `ColorAt`; what a color read
      promises is stated about `ColorAt` in `ColorBrackets`. */
  method ReadColor<F>(m: string, offset: nat, hexToFloat: string -> Option<F>) returns (r: Result<Read<Rgba<F>>>)
    ensures r == ColorAt(m, offset, hexToFloat)
  {
    if offset >= |m| {
      return Err(IndexError);
    }
    if m[offset] != '[' {
      return Err(SimpError(BadBracket('[', m[offset])));
    }
    var red :- ReadFloat(m, offset + 1, hexToFloat);
    var green :- ReadFloat(m, red.next, hexToFloat);
    var blue :- ReadFloat(m, green.next, hexToFloat);
    var alpha :- ReadFloat(m, blue.next, hexToFloat);
    var i := alpha.next;
    if i >= |m| {
      return Err(IndexError);
    }
    if m[i] != ']' {
      return Err(SimpError(BadBracket(']', m[i])));
    }
    r := Ok(Read(Rgba(red.value, green.value, blue.value, alpha.value), i + 1));
  }

  /** `read_single_color`: a color, then one more character skipped. */
  method ReadSingleColor<F>(m: string, offset: nat, hexToFloat: string -> Option<F>) returns (r: Result<Read<Rgba<F>>>)
    ensures ColorAt(m, offset, hexToFloat).Err? ==> r == ColorAt(m, offset, hexToFloat)
    ensures ColorAt(m, offset, hexToFloat).Ok? ==>
      var c := ColorAt(m, offset, hexToFloat).value;
      r == Ok(Read(c.value, c.next + 1))
  {
    var c :- ReadColor(m, offset, hexToFloat);
    r := Ok(Read(c.value, c.next + 1));
  }
}
