/**
 * The server side of one broadcast stream. What `Recv` returns is a script
 * fixed when the connection opens; whether a `Send` fails is an oracle over
 * the number of earlier sends. Every status handed to `Send` is logged.
 */
module Transport {
  import opened Wrappers
  import opened Messages

  /** What one `Recv` yields: an envelope, `io.EOF`, or another transport error. */
  datatype RecvResult = Msg(env: Envelope) | Eof | Failed(error: Error)

  class BroadcastStream {
    /** The results of successive `Recv` calls; after the last one the client has closed the stream. */
    const inbox: seq<RecvResult>
    /** The outcome of the n-th `Send`: `None` on success. */
    const sendOutcome: nat -> Option<Error>
    /** How many entries of `inbox` have been received. */
    var pos: nat
    /** Every status passed to `Send`, in order. */
    var sent: seq<Status>

    constructor (inbox: seq<RecvResult>, sendOutcome: nat -> Option<Error>)
      ensures this.inbox == inbox && this.sendOutcome == sendOutcome
      ensures pos == 0 && sent == []
    {
      this.inbox := inbox;
      this.sendOutcome := sendOutcome;
      pos := 0;
      sent := [];
    }

    /** The next scripted result; `Eof` once the script is exhausted. */
    method Recv() returns (r: RecvResult)
      modifies this`pos
      ensures old(pos) < |inbox| ==> r == inbox[old(pos)] && pos == old(pos) + 1
      ensures old(pos) >= |inbox| ==> r == Eof && pos == old(pos)
    {
      if pos < |inbox| {
        r := inbox[pos];
        pos := pos + 1;
      } else {
        r := Eof;
      }
    }

    /** Send one response carrying `status`. */
    method Send(status: Status) returns (err: Option<Error>)
      modifies this`sent
      ensures sent == old(sent) + [status]
      ensures err == sendOutcome(|old(sent)|)
    {
      err := sendOutcome(|sent|);
      sent := sent + [status];
    }
  }
}
