/** Dialing a guest's vsock: the retry loop, one attempt of it, and what becomes of every
    connection the attempts open. */
module VsockDial {
  import opened Text

  type Port = n: nat | n < 0x1_0000_0000

  // ---------- errors ----------

  /** Errors as errors.As walks them: a wrapper, a net.Error, or neither. */
  datatype GoError =
    | Wrapped(cause: GoError)
    | NetError(temporary: bool)
    | OtherError
    | ConnectMsgError(cause: GoError)
    | AckError(cause: GoError)

  /** Temporary() of the first net.Error in the chain, if there is one. The last two kinds
      are net.Errors themselves, and unwrap no further. */
  predicate Temporary(err: GoError) {
    match err
    case Wrapped(cause) => Temporary(cause)
    case NetError(temporary) => temporary
    case OtherError => false
    case ConnectMsgError(_) => false
    case AckError(_) => true
  }

  predicate IsTemporaryNetErr(err: Option<GoError>) { err.Some? && Temporary(err.value) }

  function WrappedTimes(err: GoError, n: nat): GoError {
    if n == 0 then err else Wrapped(WrappedTimes(err, n - 1))
  }

  /** However often it is wrapped, a net.Error answers for itself, a failed connect message
      is not temporary, a failed acknowledgement is, and any other error is not. */
  lemma {:induction false} TemporaryThrough(n: nat, temporary: bool, cause: GoError)
    ensures Temporary(WrappedTimes(NetError(temporary), n)) <==> temporary
    ensures !Temporary(WrappedTimes(OtherError, n))
    ensures !Temporary(WrappedTimes(ConnectMsgError(cause), n))
    ensures Temporary(WrappedTimes(AckError(cause), n))
  {
    if n > 0 {
      TemporaryThrough(n - 1, temporary, cause);
    }
  }

  // ---------- the connect message ----------

  function ConnectMsg(port: Port): string { "CONNECT " + Decimal(port) + "\n" }

  /** The message is one line, and the port can be read back from it. */
  lemma {:induction false} ConnectMsgReads(port: Port)
    ensures var msg := ConnectMsg(port);
            && "CONNECT " <= msg && Until(msg, '\n') == |msg| - 1
            && Atoi(msg[8..|msg| - 1]) == Some(port)
  {
    var msg, head := ConnectMsg(port), "CONNECT " + Decimal(port);
    assert msg[|msg| - 1] == '\n' && msg[..|msg| - 1] == head;
    forall i | 0 <= i < |head|
      ensures head[i] != '\n'
    {
      if i >= 8 {
        assert head[i] == Decimal(port)[i - 8];
      }
    }
    UntilOf(head, '\n', "\n");
    assert msg[8..|msg| - 1] == Decimal(port);
    AtoiItoa(port);
  }

  // ---------- reading the acknowledgement ----------

  /** The line, the bytes after it that were read with it and are dropped, and what the
      connection still has to deliver. */
  datatype ReadResult = ReadResult(line: string, dropped: string, unread: seq<string>)

  function Flat(chunks: seq<string>): string {
    if chunks == [] then "" else chunks[0] + Flat(chunks[1..])
  }

  /** ReadString('\n') on a reader of its own: chunks are taken until one holds a newline.
      None: the deadline, or the end of the stream, came first. */
  function ReadLine(chunks: seq<string>): Option<ReadResult> {
    if chunks == [] then None
    else
      var n := Until(chunks[0], '\n');
      if n < |chunks[0]| then Some(ReadResult(chunks[0][..n + 1], chunks[0][n + 1..], chunks[1..]))
      else match ReadLine(chunks[1..])
        case None => None
        case Some(r) => Some(r.(line := chunks[0] + r.line))
  }

  /** r is the first line of flat, and no byte is invented or moved; None if it has none. */
  predicate FirstLine(flat: string, r: Option<ReadResult>) {
    match r
    case None => Until(flat, '\n') == |flat|
    case Some(r) => Until(flat, '\n') + 1 == |r.line| && r.line + (r.dropped + Flat(r.unread)) == flat
  }

  /** Whatever the chunks, the first line of their text is read. */
  lemma {:induction false} ReadsFirstLine(chunks: seq<string>)
    ensures FirstLine(Flat(chunks), ReadLine(chunks))
  {
    if chunks != [] {
      var chunk, rest := chunks[0], Flat(chunks[1..]);
      UntilWhole(chunk, '\n');
      if '\n' in chunk {
        var n := Until(chunk, '\n');
        UntilWithin(chunk, '\n', rest);
        Assoc(chunk[..n + 1], chunk[n + 1..], rest);
        assert chunk[..n + 1] + chunk[n + 1..] == chunk;
      } else {
        ReadsFirstLine(chunks[1..]);
        UntilPast(chunk, '\n', rest);
        if ReadLine(chunks[1..]).Some? {
          var r := ReadLine(chunks[1..]).value;
          Assoc(chunk, r.line, r.dropped + Flat(r.unread));
        }
      }
    }
  }

  lemma {:induction false} Assoc(a: string, b: string, c: string)
    ensures (a + b) + c == a + (b + c)
  {
  }

  lemma {:induction false} UntilWhole(s: string, sep: char)
    ensures Until(s, sep) == |s| <==> sep !in s
  {
    assert s[..|s|] == s;
  }

  lemma {:induction false} UntilWithin(head: string, sep: char, tail: string)
    requires Until(head, sep) < |head|
    ensures Until(head + tail, sep) == Until(head, sep)
  {
    if head[0] != sep {
      assert (head + tail)[1..] == head[1..] + tail;
      UntilWithin(head[1..], sep, tail);
    }
  }

  lemma {:induction false} UntilPast(head: string, sep: char, tail: string)
    requires sep !in head
    ensures Until(head + tail, sep) == |head| + Until(tail, sep)
  {
    if head == "" {
      assert head + tail == tail;
    } else {
      assert (head + tail)[1..] == head[1..] + tail;
      UntilPast(head[1..], sep, tail);
    }
  }

  // ---------- one attempt ----------

  /** What the world does to one attempt. `wrote` is how many bytes Write takes; the chunks
      are what arrives before the deadline, and readErr what ends them. */
  datatype Attempt =
    | DialFails(err: GoError)
    | Opens(writeErr: Option<GoError>, wrote: nat, chunks: seq<string>, readErr: GoError)

  const OK := "OK "

  predicate Written(port: Port, a: Attempt) {
    a.Opens? && a.writeErr.None? && a.wrote == |ConnectMsg(port)|
  }

  /** A complete line came back. */
  predicate Answered(port: Port, a: Attempt) {
    Written(port, a) && '\n' in Flat(a.chunks)
  }

  /** The answer the guest side promises. */
  predicate Acked(port: Port, a: Attempt) {
    Answered(port, a) && "OK " <= Flat(a.chunks)[..Until(Flat(a.chunks), '\n')]
  }

  /** The failures the loop goes on after. */
  predicate FailsTemporarily(port: Port, a: Attempt) {
    match a
    case DialFails(err) => Temporary(err)
    case Opens(_, _, _, _) => Written(port, a) && !Acked(port, a)
  }

  /** What ReadLine says of an attempt's chunks, said of their text. */
  lemma {:induction false} AnswerRead(port: Port, a: Attempt)
    requires Written(port, a)
    ensures ReadLine(a.chunks).Some? <==> Answered(port, a)
    ensures ReadLine(a.chunks).Some? ==> (OK <= ReadLine(a.chunks).value.line <==> Acked(port, a))
  {
    ReadsFirstLine(a.chunks);
    var flat := Flat(a.chunks);
    var n := Until(flat, '\n');
    if n == |flat| {
      assert flat[..n] == flat;
    } else {
      assert flat[n] == '\n';
      var line := flat[..n + 1];
      assert line[..n] == flat[..n];
      if OK <= flat[..n] {
        assert OK <= line;
      }
      if OK <= line {
        assert line[n] == '\n' && line[0] == 'O' && line[1] == 'K' && line[2] == ' ';
        assert OK <= line[..n];
      }
    }
  }

  /** The host's side of the connections: those ever opened, numbered in order, those still
      open, and what was written to each. */
  class Sockets {
    var made: nat
    var open: set<nat>
    var sent: map<nat, string>

    ghost predicate Valid()
      reads this
    {
      && (forall id :: id in open ==> id < made)
      && (forall id :: id in sent ==> id < made)
    }

    constructor ()
      ensures Valid() && made == 0 && open == {} && sent == map[]
    {
      made, open, sent := 0, {}, map[];
    }

    method Open() returns (id: nat)
      requires Valid()
      modifies this
      ensures Valid() && id == old(made) && made == old(made) + 1
      ensures open == old(open) + {id} && sent == old(sent)
    {
      id := made;
      made, open := made + 1, open + {id};
    }

    method Close(id: nat)
      requires Valid()
      modifies this`open
      ensures Valid() && open == old(open) - {id}
    {
      open := open - {id};
    }

    method Write(id: nat, text: string)
      requires Valid() && id < made
      modifies this`sent
      ensures Valid() && sent == old(sent)[id := text]
    {
      sent := sent[id := text];
    }
  }

  function Least(a: nat, b: nat): nat { if a <= b then a else b }

  /** tryConnect after the socket is open. `seen` is the error variable the deferred close
      looks at: the last return leaves it nil. */
  method Handshake(s: Sockets, id: nat, port: Port, a: Attempt)
    returns (err: Option<GoError>, seen: Option<GoError>)
    requires s.Valid() && id < s.made && a.Opens?
    modifies s`sent
    ensures s.Valid() && s.sent == old(s.sent)[id := ConnectMsg(port)[..Least(a.wrote, |ConnectMsg(port)|)]]
    ensures err.None? <==> Acked(port, a)
    ensures seen.None? <==> Answered(port, a)
    ensures err.Some? ==> if Written(port, a) then err.value.AckError? else err.value.ConnectMsgError?
  {
    var msg := ConnectMsg(port);
    s.Write(id, msg[..Least(a.wrote, |msg|)]);
    seen := if a.writeErr.Some? then a.writeErr else if a.wrote != |msg| then Some(OtherError) else None;
    if seen.Some? {
      return Some(ConnectMsgError(Wrapped(seen.value))), seen;
    }
    AnswerRead(port, a);
    var read := ReadLine(a.chunks);
    if read.None? {
      seen := Some(a.readErr);
      return Some(AckError(Wrapped(a.readErr))), seen;
    }
    if !(OK <= read.value.line) {
      return Some(AckError(OtherError)), seen;
    }
    err := None;
  }

  /** tryConnect. A connection is returned exactly when the attempt is acknowledged; what
      was opened and not returned is closed exactly when no complete line came back. */
  method TryConnect(s: Sockets, port: Port, a: Attempt) returns (conn: Option<nat>, err: Option<GoError>)
    requires s.Valid()
    modifies s
    ensures s.Valid() && s.made == old(s.made) + (if a.Opens? then 1 else 0)
    ensures s.open == old(s.open) + (if Answered(port, a) then {old(s.made)} else {})
    ensures s.sent == if a.Opens? then old(s.sent)[old(s.made) := ConnectMsg(port)[..Least(a.wrote, |ConnectMsg(port)|)]]
                      else old(s.sent)
    ensures conn == if Acked(port, a) then Some(old(s.made)) else None
    ensures err.None? <==> Acked(port, a)
    ensures IsTemporaryNetErr(err) <==> FailsTemporarily(port, a)
  {
    if a.DialFails? {
      return None, Some(Wrapped(a.err));
    }
    var id := s.Open();
    var seen;
    err, seen := Handshake(s, id, port, a);
    conn := if err.None? then Some(id) else None;
    if seen.Some? {
      s.Close(id);
    }
  }

  // ---------- the loop ----------

  /** What the select receives. */
  datatype Event = Done | Tick(attempt: Attempt)

  datatype Outcome = Connected(conn: nat) | Cancelled | Failed(err: GoError) | StillTrying

  /** Events the loop goes on after. */
  predicate GoesOn(port: Port, e: Event) {
    e.Tick? && FailsTemporarily(port, e.attempt)
  }

  /** How many connections the first k events open. */
  function Opened(events: seq<Event>, k: nat): nat
    requires k <= |events|
  {
    if k == 0 then 0
    else Opened(events, k - 1) + (if events[k - 1].Tick? && events[k - 1].attempt.Opens? then 1 else 0)
  }

  /** Answers that were complete lines but not the promised one. */
  predicate BadAck(port: Port, e: Event) {
    e.Tick? && Answered(port, e.attempt) && !Acked(port, e.attempt)
  }

  function BadAcks(port: Port, events: seq<Event>, k: nat): nat
    requires k <= |events|
  {
    if k == 0 then 0 else BadAcks(port, events, k - 1) + (if BadAck(port, events[k - 1]) then 1 else 0)
  }

  /** The connections the first k events leave open without returning them, if the first
      one opened is numbered `base`. */
  function Leaked(port: Port, events: seq<Event>, base: nat, k: nat): set<nat>
    requires k <= |events|
  {
    if k == 0 then {}
    else Leaked(port, events, base, k - 1) + (if BadAck(port, events[k - 1]) then {base + Opened(events, k - 1)} else {})
  }

  /** One is leaked for each bad answer. */
  lemma {:induction false} LeakedCount(port: Port, events: seq<Event>, base: nat, k: nat)
    requires k <= |events|
    ensures |Leaked(port, events, base, k)| == BadAcks(port, events, k)
    ensures forall id :: id in Leaked(port, events, base, k) ==> base <= id < base + Opened(events, k)
  {
    if k > 0 {
      LeakedCount(port, events, base, k - 1);
    }
  }

  /** Nothing leaks exactly when every complete answer to come back was the promised one. */
  lemma {:induction false} NoLeakIff(port: Port, events: seq<Event>, base: nat, k: nat)
    requires k <= |events|
    ensures Leaked(port, events, base, k) == {} <==> forall j :: 0 <= j < k ==> !BadAck(port, events[j])
  {
    if k > 0 {
      NoLeakIff(port, events, base, k - 1);
    }
  }

  /** What the books come to: nothing but the returned connection is newly open exactly
      when no answer was bad, and each bad answer is one connection more. */
  lemma {:induction false} BooksBalance(port: Port, events: seq<Event>, base: nat, k: nat, open: set<nat>, returned: set<nat>)
    requires k <= |events| && forall id :: id in open ==> id < base
    requires returned == {}
             || (k > 0 && returned == {base + Opened(events, k - 1)} && !BadAck(port, events[k - 1]))
    ensures var all := open + Leaked(port, events, base, k) + returned;
            && (all == open + returned <==> forall j :: 0 <= j < k ==> !BadAck(port, events[j]))
            && |all| == |open| + BadAcks(port, events, k) + |returned|
  {
    var leaked := Leaked(port, events, base, k);
    NoLeakIff(port, events, base, k);
    LeakedCount(port, events, base, k);
    if returned != {} {
      LeakedCount(port, events, base, k - 1);
      assert leaked == Leaked(port, events, base, k - 1);
    }
    assert forall id :: id in leaked ==> id !in open && id !in returned;
    DisjointSum(open, leaked, returned);
  }

  lemma {:induction false} DisjointSum(a: set<nat>, b: set<nat>, c: set<nat>)
    requires forall id :: id in b ==> id !in a && id !in c
    requires forall id :: id in c ==> id !in a
    ensures a + b + c == a + c <==> b == {}
    ensures |a + b + c| == |a| + |b| + |c|
  {
    assert (a + b) !! c && a !! b;
    if a + b + c == a + c {
      forall id
        ensures id !in b
      {
        assert id in b ==> id in a + b + c;
      }
    }
  }

  /** The outcome is that of the first event that is not a temporary failure. */
  predicate Decided(port: Port, events: seq<Event>, out: Outcome, used: nat) {
    && used <= |events|
    && (out.StillTrying? ==> used == |events|)
    && (forall j :: 0 <= j < (if out.StillTrying? then used else used - 1) ==> GoesOn(port, events[j]))
    && (!out.StillTrying? ==>
          && 0 < used && !GoesOn(port, events[used - 1])
          && (out.Cancelled? <==> events[used - 1].Done?)
          && (out.Connected? <==> events[used - 1].Tick? && Acked(port, events[used - 1].attempt))
          && (out.Failed? ==> !Temporary(out.err)))
  }

  /** The loop in dial. */
  method Attempts(s: Sockets, port: Port, events: seq<Event>) returns (out: Outcome, used: nat)
    requires s.Valid()
    modifies s
    ensures s.Valid() && Decided(port, events, out, used)
    ensures out.Connected? ==>
              && out.conn == old(s.made) + Opened(events, used - 1)
              && out.conn in s.sent && s.sent[out.conn] == ConnectMsg(port)
    ensures s.made == old(s.made) + Opened(events, used)
    ensures s.open == old(s.open) + Leaked(port, events, old(s.made), used) + (if out.Connected? then {out.conn} else {})
  {
    used := 0;
    while used < |events|
      invariant 0 <= used <= |events| && s.Valid()
      invariant forall j :: 0 <= j < used ==> GoesOn(port, events[j])
      invariant s.made == old(s.made) + Opened(events, used)
      invariant s.open == old(s.open) + Leaked(port, events, old(s.made), used)
    {
      var e := events[used];
      used := used + 1;
      match e
      case Done =>
        return Cancelled, used;
      case Tick(a) =>
        var conn, err := TryConnect(s, port, a);
        if !IsTemporaryNetErr(err) {
          if err.Some? {
            return Failed(Wrapped(err.value)), used;
          }
          return Connected(conn.value), used;
        }
    }
    out := StillTrying;
  }

  /** dial. The first event that is not a temporary failure decides, and decides all by
      itself; beyond what was open already, only a returned connection and those with a bad
      answer stay open. */
  method Dial(s: Sockets, port: Port, events: seq<Event>) returns (out: Outcome, used: nat)
    requires s.Valid()
    modifies s
    ensures s.Valid() && Decided(port, events, out, used)
    ensures out.Connected? ==>
              && out.conn == old(s.made) + Opened(events, used - 1)
              && out.conn in s.sent && s.sent[out.conn] == ConnectMsg(port)
    ensures s.made == old(s.made) + Opened(events, used)
    ensures s.open == old(s.open) + Leaked(port, events, old(s.made), used) + (if out.Connected? then {out.conn} else {})
    // nothing else is newly open exactly when no answer was bad; each bad one costs a connection
    ensures s.open == old(s.open) + (if out.Connected? then {out.conn} else {})
            <==> forall j :: 0 <= j < used ==> !BadAck(port, events[j])
    ensures |s.open| == |old(s.open)| + BadAcks(port, events, used) + (if out.Connected? then 1 else 0)
  {
    out, used := Attempts(s, port, events);
    BooksBalance(port, events, old(s.made), used, old(s.open), if out.Connected? then {out.conn} else {});
  }
}
