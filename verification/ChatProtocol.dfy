/**
 The chat application's wire protocol: the message printer, the splitter and
 the dispatcher on the receiving side, and the command parser and word joiner
 in front of them on the sending side.
 */
module ChatProtocol {
  import opened ChatText
  import P = PeerTable

  const MAX_MESSAGE_LENGTH: nat := 100
  const MAX_ARGUMENTS: nat := 32
  const MAX_INPUT_BUFFER: nat := 256
  const MAX_CMD: nat := 32
  const SEND_BUFFER: nat := 256

  const WIRE: set<char> := {' ', '\n'}   // delimiters of the splitter
  const INPUT: set<char> := {' '}        // delimiters of the command parser

  datatype MessageType = Unknown | Connected | Terminated | Send | Exit

  function Prefix(t: MessageType): string {
    match t
    case Send => "send"
    case Terminated => "terminate"
    case Connected => "connect"
    case Exit => "exit"
    case Unknown => "unknown"
  }

  function TypeOf(word: string): MessageType {
    if word == "connect" then Connected
    else if word == "terminate" then Terminated
    else if word == "send" then Send
    else if word == "exit" then Exit
    else Unknown
  }

  // ---- Splitting ----

  /** All tokens but the last `max - 1`-th and later, then those joined, each slot bounded. */
  function Fields(s: string, max: nat): (r: seq<string>)
    requires max > 0
    ensures |r| <= max
  {
    FieldsOf(Tokens(Cut(s, MAX_MESSAGE_LENGTH * max - 1), WIRE), max)
  }

  function FieldsOf(ts: seq<string>, max: nat): (r: seq<string>)
    requires max > 0
    ensures |r| == if |ts| < max then |ts| else max
  {
    if |ts| < max then CutAll(ts)
    else CutAll(ts[..max - 1]) + [Cut(Join(ts[max - 1..]), MAX_MESSAGE_LENGTH - 1)]
  }

  function CutAll(ts: seq<string>): (r: seq<string>)
    ensures |r| == |ts|
  {
    if ts == [] then [] else CutAll(ts[..|ts| - 1]) + [Cut(ts[|ts| - 1], MAX_MESSAGE_LENGTH - 1)]
  }

  /** `strncat` into a slot: append what still fits. */
  function Append(slot: string, s: string, capacity: nat): string
    requires |slot| <= capacity
  {
    slot + Cut(s, capacity - |slot|)
  }

  lemma {:induction false} AppendCut(whole: string, s: string, capacity: nat)
    ensures |Cut(whole, capacity)| <= capacity
    ensures Append(Cut(whole, capacity), s, capacity) == Cut(whole + s, capacity)
  {
    if |whole| > capacity {
      assert (whole + s)[..capacity] == whole[..capacity];
    } else if |whole + s| > capacity {
      assert (whole + s)[..capacity] == whole + s[..capacity - |whole|];
    }
  }

  lemma {:induction false} JoinSnoc(ws: seq<string>, w: string)
    requires ws != []
    ensures Join(ws + [w]) == Join(ws) + " " + w
  {
    if |ws| == 1 {
      assert (ws + [w])[1..] == [w];
    } else {
      assert (ws + [w])[1..] == ws[1..] + [w];
      JoinSnoc(ws[1..], w);
      assert ws[0] + " " + (Join(ws[1..]) + " " + w) == ws[0] + " " + Join(ws[1..]) + " " + w;
    }
  }

  /** One more token into slots that already hold those of `ts`. */
  lemma {:induction false} FieldsSnoc(ts: seq<string>, t: string, max: nat)
    requires max > 0
    ensures var r, r' := FieldsOf(ts, max), FieldsOf(ts + [t], max);
      if |ts| < max then r' == r + [Cut(t, MAX_MESSAGE_LENGTH - 1)]
      else
        && |r[max - 1]| < MAX_MESSAGE_LENGTH
        && var spaced := Append(r[max - 1], " ", MAX_MESSAGE_LENGTH - 1);
        && |spaced| < MAX_MESSAGE_LENGTH
        && r' == r[max - 1 := Append(spaced, t, MAX_MESSAGE_LENGTH - 1)]
  {
    var r, r' := FieldsOf(ts, max), FieldsOf(ts + [t], max);
    var n := MAX_MESSAGE_LENGTH - 1;
    assert (ts + [t])[..|ts|] == ts;
    if |ts| + 1 < max {
      assert r' == r + [Cut(t, n)];
    } else if |ts| + 1 == max {
      assert (ts + [t])[..max - 1] == ts && (ts + [t])[max - 1..] == [t];
      assert r' == r + [Cut(t, n)];
    } else {
      var tail := ts[max - 1..];
      assert (ts + [t])[..max - 1] == ts[..max - 1] && (ts + [t])[max - 1..] == tail + [t];
      JoinSnoc(tail, t);
      AppendCut(Join(tail), " ", n);
      AppendCut(Join(tail) + " ", t, n);
      assert r' == r[max - 1 := Cut(Join(tail) + " " + t, n)];
    }
  }

  /** The slots hold the fields of the tokens `done`. */
  ghost predicate Stored(output: array<string>, done: seq<string>, max: nat)
    requires 0 < max <= output.Length
    reads output
  {
    output[..|FieldsOf(done, max)|] == FieldsOf(done, max)
  }

  /** Store one more token: a slot of its own while there are slots, then onto the last one. */
  method PutToken(output: array<string>, tokens: nat, token: string, max: nat, ghost done: seq<string>)
    requires 0 < max <= output.Length && tokens == |done| && Stored(output, done, max)
    modifies output
    ensures Stored(output, done + [token], max)
  {
    FieldsSnoc(done, token, max);
    ghost var before := FieldsOf(done, max);
    if tokens < max {
      output[tokens] := Cut(token, MAX_MESSAGE_LENGTH - 1);
      assert output[..tokens + 1] == before + [Cut(token, MAX_MESSAGE_LENGTH - 1)];
    } else {
      assert output[max - 1] == before[max - 1];
      var spaced := Append(output[max - 1], " ", MAX_MESSAGE_LENGTH - 1);
      output[max - 1] := Append(spaced, token, MAX_MESSAGE_LENGTH - 1);
      assert output[..max] == before[max - 1 := output[max - 1]];
    }
  }

  /** The splitter's loop over the tokens of its copy of the text. */
  method StoreTokens(buffer: string, output: array<string>, max: nat) returns (tokens: nat)
    requires 0 < max <= output.Length
    modifies output
    ensures tokens == |Tokens(buffer, WIRE)| && Stored(output, Tokens(buffer, WIRE), max)
  {
    var pos := 0;
    tokens := 0;
    ghost var done: seq<string>, left: seq<string> := [], Tokens(buffer, WIRE);
    assert buffer[0..] == buffer;
    var found := true;
    while found
      invariant pos <= |buffer| && tokens == |done|
      invariant left == Tokens(buffer[pos..], WIRE) && done + left == Tokens(buffer, WIRE)
      invariant !found ==> left == []
      invariant Stored(output, done, max)
      decreases |buffer| - pos, found
    {
      var token, next;
      found, token, next := NextToken(buffer, pos, WIRE);
      if found {
        PutToken(output, tokens, token, max, done);
        tokens := tokens + 1;
        done, left, pos := done + [token], left[1..], next;
      }
    }
    assert done == Tokens(buffer, WIRE);
  }

  method SplitString(s: string, output: array<string>, max: nat) returns (count: nat)
    requires 0 < max <= output.Length
    modifies output
    ensures count == |Fields(s, max)| && output[..count] == Fields(s, max)
  {
    var buffer := Cut(s, MAX_MESSAGE_LENGTH * max - 1);
    count := StoreTokens(buffer, output, max);
    count := if count > max then max else count;
  }

  // ---- Printing ----

  /** The text of a message; the body only travels in `send`. */
  function Line(t: MessageType, ip: string, port: P.Port, body: string): string {
    match t
    case Unknown => "unknown"
    case Send => Prefix(t) + " " + ip + " " + Decimal(port) + " " + body
    case _ => Prefix(t) + " " + ip + " " + Decimal(port)
  }

  /** `snprintf` into a buffer of the given size: a text that does not fit is cut and refused. */
  method BuildMessageBuffer(size: nat, t: MessageType, ip: string, port: P.Port, body: string)
    returns (ok: bool, buffer: string)
    requires size > 0
    ensures ok <==> |Line(t, ip, port, body)| < size
    ensures buffer == Cut(Line(t, ip, port, body), size - 1)
  {
    var head := Prefix(t);
    match t {
      case Unknown => buffer := "unknown";
      case Send => buffer := head + " " + ip + " " + Decimal(port) + " " + body;
      case Connected => buffer := head + " " + ip + " " + Decimal(port);
      case Terminated => buffer := head + " " + ip + " " + Decimal(port);
      case Exit => buffer := head + " " + ip + " " + Decimal(port);
    }
    var written := |buffer|;
    buffer := Cut(buffer, size - 1);
    return written < size, buffer;
  }

  // ---- Receiving ----

  /** What receiving one text comes to. */
  datatype Handled =
    | Ignored                        // an empty text
    | NoCommand                      // white space only: the command buffer is read uninitialised
    | Default(text: string)
    | AddPeer(ip: string, port: P.Port)
    | RemovePeer(ip: string)
    | Message(ip: string, portText: string, text: string)
    | Leaving(ip: string)
    | TooFewWords(t: MessageType)

  function MaxWords(t: MessageType): nat {
    match t
    case Connected => 4
    case Terminated => 3
    case Send => 4
    case Exit => 3
    case Unknown => 1
  }

  function Handle(t: MessageType, words: seq<string>): Handled {
    match t
    case Connected => if |words| >= 3 then AddPeer(words[1], Atoi(words[2]) % 0x1_0000) else TooFewWords(t)
    case Terminated => if |words| >= 2 then RemovePeer(words[1]) else TooFewWords(t)
    case Send => if |words| >= 4 then Message(words[1], words[2], words[3]) else TooFewWords(t)
    case Exit => if |words| >= 2 then Leaving(words[1]) else TooFewWords(t)
    case Unknown => TooFewWords(t)
  }

  function Receive(msg: string): Handled {
    if msg == "" then Ignored
    else if Tokens(msg, SPACES) == [] then NoCommand
    else
      var t := TypeOf(Tokens(msg, SPACES)[0]);
      if t.Unknown? then Default(msg) else Handle(t, Fields(msg, MaxWords(t)))
  }

  /** One `recv` of at most 99 bytes from what `send` put on the wire, at most 100. */
  function OnWire(line: string): string {
    Cut(line, MAX_MESSAGE_LENGTH)
  }

  function Received(wire: string): string {
    Cut(wire, MAX_MESSAGE_LENGTH - 1)
  }

  /** The peer table after a received text. */
  function TableAfter(t: P.Table, fd: int, h: Handled): P.Table {
    match h
    case AddPeer(ip, port) => P.Add(t, ip, port, fd)
    case RemovePeer(_) => P.RemoveByFd(t, fd)
    case _ => t
  }

  /** A strategy: split by the word count of its type, and run its handler on the words. */
  method RunStrategy(peers: P.PeerConnectionManager, fd: int, msg: string, t: MessageType) returns (h: Handled)
    requires peers.Valid()
    modifies peers`connectionCount, peers.peers
    ensures h == Handle(t, Fields(msg, MaxWords(t)))
    ensures peers.Valid() && peers.Value() == TableAfter(old(peers.Value()), fd, h)
  {
    var words := new string[MAX_ARGUMENTS](_ => "");
    var count := SplitString(msg, words, MaxWords(t));
    h := Handle(t, words[..count]);
    if h.AddPeer? {
      var added := peers.AddPeer(h.ip, h.port, fd);
    } else if h.RemovePeer? {
      var removed := peers.RemovePeerBySocket(fd);
    }
  }

  /** The receive dispatch: find the strategy of the command's type. */
  method HandleMessageReceive(peers: P.PeerConnectionManager, fd: int, msg: string) returns (h: Handled)
    requires peers.Valid()
    modifies peers`connectionCount, peers.peers
    ensures h == Receive(msg)
    ensures peers.Valid() && peers.Value() == TableAfter(old(peers.Value()), fd, h)
  {
    if msg == "" {
      return Ignored;
    }
    assert msg[0..] == msg;
    var found, command, _ := NextToken(msg, 0, SPACES);
    if !found {
      return NoCommand;
    }
    var t := TypeOf(command);
    var strategies := [Connected, Terminated, Send, Exit];
    var i := 0;
    while i < |strategies|
      invariant 0 <= i <= |strategies|
      invariant forall j :: 0 <= j < i ==> strategies[j] != t
      invariant peers.Valid() && peers.Value() == old(peers.Value())
    {
      if strategies[i] == t {
        h := RunStrategy(peers, fd, msg, t);
        return h;
      }
      i := i + 1;
    }
    assert strategies[0] != t && strategies[1] != t && strategies[2] != t && strategies[3] != t;
    return Default(msg);
  }

  // ---- Sending ----

  /** A typed line, parsed; `None` when there is no word in it. */
  datatype Command = None | Command(name: string, arguments: seq<string>)

  function Parse(input: string): Command {
    var ts := Tokens(Cut(input, MAX_INPUT_BUFFER - 1), INPUT);
    if ts == [] then None
    else Command(Cut(ts[0], MAX_CMD - 1), if |ts| <= MAX_ARGUMENTS then ts[1..] else ts[1..][..MAX_ARGUMENTS])
  }

  method ParseUserInput(input: string) returns (c: Command)
    ensures c == Parse(input)
  {
    var buffer := Cut(input, MAX_INPUT_BUFFER - 1);
    ghost var ts := Tokens(buffer, INPUT);
    assert buffer[0..] == buffer;
    var found, word, pos := NextToken(buffer, 0, INPUT);
    if !found {
      return None;
    }
    assert ts[1..] == Tokens(buffer[pos..], INPUT);
    var arguments: seq<string> := [];
    while true
      invariant pos <= |buffer| && |arguments| <= MAX_ARGUMENTS
      invariant arguments + Tokens(buffer[pos..], INPUT) == ts[1..]
      decreases |buffer| - pos
    {
      var more, token, next := NextToken(buffer, pos, INPUT);
      if !more || |arguments| >= MAX_ARGUMENTS {
        break;
      }
      assert arguments + ([token] + Tokens(buffer[next..], INPUT)) == (arguments + [token]) + Tokens(buffer[next..], INPUT);
      assert token == ts[1 + |arguments|];
      TokensAreShort(buffer, INPUT, 1 + |arguments|);
      arguments := arguments + [Cut(token, MAX_INPUT_BUFFER - 1)];
      pos := next;
    }
    AllParsed(arguments, Tokens(buffer[pos..], INPUT), ts[1..]);
    return Command(Cut(word, MAX_CMD - 1), arguments);
  }

  lemma AllParsed(arguments: seq<string>, rest: seq<string>, ts: seq<string>)
    requires arguments + rest == ts && |arguments| <= MAX_ARGUMENTS && (rest == [] || |arguments| == MAX_ARGUMENTS)
    ensures arguments == if |ts| < MAX_ARGUMENTS then ts else ts[..MAX_ARGUMENTS]
  {
  }

  /** The body that `execute_send` builds from the arguments after the peer's index. */
  method JoinArguments(arguments: seq<string>) returns (message: string)
    requires |arguments| >= 2
    ensures message == Cut(Join(arguments[1..]), MAX_MESSAGE_LENGTH)
  {
    message := "";
    var offset, i := 0, 1;
    while i < |arguments|
      invariant 1 <= i <= |arguments| && offset == |message| <= MAX_MESSAGE_LENGTH
      invariant message == Cut(Joined(arguments, i), MAX_MESSAGE_LENGTH)
    {
      AppendCut(Joined(arguments, i), arguments[i], MAX_MESSAGE_LENGTH);
      message := Append(message, arguments[i], MAX_MESSAGE_LENGTH);
      offset := |message|;
      AppendCut(Joined(arguments, i) + arguments[i], " ", MAX_MESSAGE_LENGTH);
      if i < |arguments| - 1 && offset < MAX_MESSAGE_LENGTH {
        message := Append(message, " ", MAX_MESSAGE_LENGTH);
        offset := offset + 1;
      }
      JoinedStep(arguments, i);
      i := i + 1;
    }
    assert arguments[1..i] == arguments[1..];
  }

  /** What the joining loop has put down before argument `i`: a separator follows all but the last. */
  ghost function Joined(arguments: seq<string>, i: nat): string
    requires 1 <= i <= |arguments|
  {
    Join(arguments[1..i]) + if 1 < i < |arguments| then " " else ""
  }

  lemma {:induction false} JoinedStep(arguments: seq<string>, i: nat)
    requires 1 <= i < |arguments|
    ensures Joined(arguments, i + 1) == Joined(arguments, i) + arguments[i] + if i < |arguments| - 1 then " " else ""
  {
    assert arguments[1..i + 1] == arguments[1..i] + [arguments[i]];
    if i > 1 {
      JoinSnoc(arguments[1..i], arguments[i]);
    }
  }

  lemma {:induction false} TokensAreShort(s: string, d: set<char>, k: nat)
    requires k < |Tokens(s, d)|
    ensures |Tokens(s, d)[k]| <= |s|
    decreases |s|
  {
    if s[0] in d {
      TokensAreShort(s[1..], d, k);
    } else if k > 0 {
      TokensAreShort(s[WordLength(s, d)..], d, k - 1);
    }
  }

  /** What goes out on a socket. */
  datatype Packet = Packet(fd: int, text: string)

  /** The peer in a slot of the table can be sent to. */
  predicate Reaches(peers: P.Slots, index: int) {
    0 <= index < P.MAX_PEERS && peers[index].active
  }

  /** `execute_send`: join the words, look the peer up by its slot, print, and send. */
  function SendTo(peers: P.Slots, arguments: seq<string>, ip: string, port: P.Port): seq<Packet> {
    if |arguments| < 2 || !Reaches(peers, Atoi(arguments[0])) then []
    else
      var line := Line(Send, ip, port, Cut(Join(arguments[1..]), MAX_MESSAGE_LENGTH));
      if |line| < SEND_BUFFER then [Packet(peers[Atoi(arguments[0])].fd, OnWire(line))] else []
  }

  /** What a typed line puts on the wire if it is a `send`. */
  function SendCommand(peers: P.Slots, input: string, ip: string, port: P.Port): seq<Packet> {
    match Parse(input)
    case None => []
    case Command(name, arguments) => if name == "send" then SendTo(peers, arguments, ip, port) else []
  }

  method ExecuteSend(peers: P.PeerConnectionManager, arguments: seq<string>, ip: string, port: P.Port)
    returns (sent: seq<Packet>)
    requires peers.Valid()
    ensures sent == SendTo(peers.peers[..], arguments, ip, port)
  {
    if |arguments| < 2 {
      return [];
    }
    var message := JoinArguments(arguments);
    var receiver := peers.GetPeerByIndex(Atoi(arguments[0]));
    if receiver.NoPeer? {
      return [];
    }
    var ok, buffer := BuildMessageBuffer(SEND_BUFFER, Send, ip, port, message);
    if !ok {
      return [];
    }
    return [Packet(receiver.peer.fd, OnWire(buffer))];
  }
}
