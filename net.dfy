/** An abstract TCP socket. The network is not modelled: what `sendall` and
    `recv` will do is a script fixed in advance, and the socket records the
    frames it accepted, so that callers can be specified against both. */
module Net {

  /** What one `recv(4096)` call produces: some text (possibly empty, which is
      how a closed peer shows itself), or a raised `socket.error`. */
  datatype ReadOutcome = Bytes(data: string) | SocketError

  class Socket {
    /** Outcomes of the coming `sendall` calls; once the script runs out every send fails. */
    var sendScript: seq<bool>
    /** Outcomes of the coming `recv` calls; once the script runs out every read fails. */
    var readScript: seq<ReadOutcome>
    /** Every message a `sendall` call delivered, oldest first. */
    var written: seq<string>
    var open: bool

    constructor (sendOutcomes: seq<bool>, readOutcomes: seq<ReadOutcome>)
      ensures sendScript == sendOutcomes && readScript == readOutcomes && written == [] && open
    {
      sendScript, readScript, written, open := sendOutcomes, readOutcomes, [], true;
    }

    /** `sendall(data)`: succeeds when the socket is open and the script says so. */
    method SendAll(data: string) returns (ok: bool)
      modifies this
      ensures ok == (open && |old(sendScript)| > 0 && old(sendScript)[0])
      ensures sendScript == if |old(sendScript)| > 0 then old(sendScript)[1..] else []
      ensures written == old(written) + (if ok then [data] else [])
      ensures readScript == old(readScript) && open == old(open)
    {
      ok := open && |sendScript| > 0 && sendScript[0];
      if |sendScript| > 0 { sendScript := sendScript[1..]; }
      if ok { written := written + [data]; }
    }

    /** `recv(4096)`: the next scripted outcome, or an error on a closed or exhausted socket. */
    method Recv() returns (r: ReadOutcome)
      modifies this
      ensures r == if open && |old(readScript)| > 0 then old(readScript)[0] else SocketError
      ensures readScript == if |old(readScript)| > 0 then old(readScript)[1..] else []
      ensures sendScript == old(sendScript) && written == old(written) && open == old(open)
    {
      r := if open && |readScript| > 0 then readScript[0] else SocketError;
      if |readScript| > 0 { readScript := readScript[1..]; }
    }

    /** `shutdown(SHUT_RDWR)` followed by `close()`. */
    method Shutdown()
      modifies this
      ensures !open
      ensures sendScript == old(sendScript) && readScript == old(readScript) && written == old(written)
    {
      open := false;
    }
  }
}
