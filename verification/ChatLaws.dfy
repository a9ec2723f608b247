/**
 What the chat protocol promises: receiving undoes building for every message
 type, and a typed `send` delivers its words unchanged exactly when the built
 line fits one receive.
 */
module ChatLaws {
  import opened ChatText
  import opened ChatProtocol
  import P = PeerTable

  /** An address the splitter keeps in one piece. */
  predicate Address(ip: string) {
    Word(ip, WIRE)
  }

  function Header(t: MessageType, ip: string, port: P.Port): string {
    Prefix(t) + " " + ip + " " + Decimal(port)
  }

  lemma PrefixIsWord(t: MessageType)
    ensures Word(Prefix(t), SPACES) && Word(Prefix(t), WIRE)
    ensures TypeOf(Prefix(t)) == t
  {
  }

  /** The command word of a built line is its type's prefix, whatever follows. */
  lemma {:induction false} CommandOf(t: MessageType, rest: string)
    ensures Tokens(Prefix(t) + " " + rest, SPACES) == [Prefix(t)] + Tokens(rest, SPACES)
    ensures Tokens(Prefix(t) + " " + rest, WIRE) == [Prefix(t)] + Tokens(rest, WIRE)
  {
    PrefixIsWord(t);
    TokensSpaced(Prefix(t), rest, SPACES);
    TokensSpaced(Prefix(t), rest, WIRE);
  }

  lemma {:induction false} TokensOfHeader(t: MessageType, ip: string, port: P.Port)
    requires Address(ip)
    ensures Tokens(Header(t, ip, port), WIRE) == [Prefix(t), ip, Decimal(port)]
    ensures Tokens(Header(t, ip, port), SPACES) != [] && Tokens(Header(t, ip, port), SPACES)[0] == Prefix(t)
  {
    var number := Decimal(port);
    assert Header(t, ip, port) == Prefix(t) + " " + (ip + " " + number);
    CommandOf(t, ip + " " + number);
    TokensSpaced(ip, number, WIRE);
    TokensLast(number, WIRE);
  }

  lemma Assoc(a: string, b: string, c: string)
    ensures a + b + c == a + (b + c)
  {
  }

  lemma {:induction false} Regroup(a: string, b: string, c: string)
    ensures a + " " + b + " " + c == a + " " + (b + " " + c)
  {
    Assoc(a + " " + b, " ", c);
    Assoc(a + " ", b, " " + c);
    Assoc(b, " ", c);
  }

  /** A `send` line, grouped to the right. */
  lemma {:induction false} LineParts(ip: string, port: P.Port, body: string)
    ensures Line(Send, ip, port, body) == Prefix(Send) + " " + (ip + " " + (Decimal(port) + " " + body))
  {
    Regroup(Prefix(Send) + " " + ip, Decimal(port), body);
    Regroup(Prefix(Send), ip, Decimal(port) + " " + body);
  }

  lemma {:induction false} DecimalIsWord(port: P.Port)
    ensures Word(Decimal(port), WIRE)
  {
    var s := Decimal(port);
    forall i | 0 <= i < |s|
      ensures s[i] !in WIRE
    {
      assert IsDigit(s[i]);
    }
  }

  lemma {:induction false} TokensAfterCommand(ip: string, port: P.Port, body: string)
    requires Address(ip)
    ensures Tokens(ip + " " + (Decimal(port) + " " + body), WIRE) == [ip, Decimal(port)] + Tokens(body, WIRE)
  {
    DecimalIsWord(port);
    TokensSpacedTwice(ip, Decimal(port), body, WIRE);
  }

  lemma {:induction false} TokensOfSend(ip: string, port: P.Port, body: string)
    requires Address(ip)
    ensures Tokens(Line(Send, ip, port, body), WIRE) == ["send", ip, Decimal(port)] + Tokens(body, WIRE)
    ensures Tokens(Line(Send, ip, port, body), SPACES) != [] && Tokens(Line(Send, ip, port, body), SPACES)[0] == "send"
  {
    var rest := ip + " " + (Decimal(port) + " " + body);
    LineParts(ip, port, body);
    CommandOf(Send, rest);
    TokensAfterCommand(ip, port, body);
    SendFirst(ip, Decimal(port), Tokens(body, WIRE));
  }

  lemma SendFirst(ip: string, number: string, tokens: seq<string>)
    ensures [Prefix(Send)] + ([ip, number] + tokens) == ["send", ip, number] + tokens
  {
  }

  lemma {:induction false} CutAllIsIdentity(ts: seq<string>)
    requires forall i :: 0 <= i < |ts| ==> |ts[i]| < MAX_MESSAGE_LENGTH
    ensures CutAll(ts) == ts
  {
    if ts != [] {
      CutAllIsIdentity(ts[..|ts| - 1]);
    }
  }

  lemma {:induction false} TokensShort(s: string, d: set<char>)
    ensures forall i :: 0 <= i < |Tokens(s, d)| ==> |Tokens(s, d)[i]| <= |s|
  {
    forall i | 0 <= i < |Tokens(s, d)|
      ensures |Tokens(s, d)[i]| <= |s|
    {
      TokensAreShort(s, d, i);
    }
  }

  lemma {:induction false} JoinTailLength(ts: seq<string>, k: nat)
    requires k <= |ts|
    ensures |Join(ts[k..])| <= |Join(ts)|
  {
    if k > 0 {
      JoinTailLength(ts[1..], k - 1);
      assert ts[1..][k - 1..] == ts[k..];
    }
  }

  /** A received text is short enough that no bound of the splitter bites. */
  lemma {:induction false} FieldsOfShortText(s: string, max: nat)
    requires |s| < MAX_MESSAGE_LENGTH && max > 0
    ensures var ts := Tokens(s, WIRE);
      Fields(s, max) == if |ts| < max then ts else ts[..max - 1] + [Join(ts[max - 1..])]
  {
    var ts := Tokens(s, WIRE);
    assert MAX_MESSAGE_LENGTH * max - 1 >= |s|;
    TokensShort(s, WIRE);
    if |ts| < max {
      CutAllIsIdentity(ts);
    } else {
      CutAllIsIdentity(ts[..max - 1]);
      JoinTailLength(ts, max - 1);
      JoinedTokensLength(s, WIRE);
    }
  }

  /** What the receiver should make of a built line, told from the line's own parts. */
  function Meaning(t: MessageType, ip: string, port: P.Port, body: string): Handled {
    match t
    case Connected => AddPeer(ip, port)
    case Terminated => RemovePeer(ip)
    case Exit => Leaving(ip)
    case Send =>
      if Tokens(body, WIRE) == [] then TooFewWords(Send)
      else Message(ip, Decimal(port), Join(Tokens(body, WIRE)))
    case Unknown => Default("unknown")
  }

  /**
   Receiving undoes building: a line of any type that fits one receive reaches
   the handler of the same type with the sender's exact address, and for
   `connect` with the exact port as a number.  A `send` body arrives with its
   white space normalised to single spaces.
   */
  lemma {:induction false} ReceiveUndoesBuild(t: MessageType, ip: string, port: P.Port, body: string)
    requires Address(ip) && |Line(t, ip, port, body)| < MAX_MESSAGE_LENGTH
    ensures Receive(Line(t, ip, port, body)) == Meaning(t, ip, port, body)
  {
    match t
    case Unknown => ReceiveUnknown();
    case Send => ReceiveUndoesSend(ip, port, body);
    case _ =>
      assert Line(t, ip, port, body) == Header(t, ip, port);
      ReceiveUndoesHeader(t, ip, port);
  }

  lemma {:induction false} ReceiveUnknown()
    ensures Receive("unknown") == Default("unknown")
  {
    TokensLast("unknown", SPACES);
  }

  lemma {:induction false} ReceiveUndoesHeader(t: MessageType, ip: string, port: P.Port)
    requires Address(ip) && |Header(t, ip, port)| < MAX_MESSAGE_LENGTH && !t.Send? && !t.Unknown?
    ensures Receive(Header(t, ip, port)) == Meaning(t, ip, port, "")
  {
    var line := Header(t, ip, port);
    PrefixIsWord(t);
    TokensOfHeader(t, ip, port);
    FieldsOfShortText(line, MaxWords(t));
    AtoiOfDecimal(port);
  }

  lemma {:induction false} ReceiveUndoesSend(ip: string, port: P.Port, body: string)
    requires Address(ip) && |Line(Send, ip, port, body)| < MAX_MESSAGE_LENGTH
    ensures Receive(Line(Send, ip, port, body)) == Meaning(Send, ip, port, body)
  {
    var line, words := Line(Send, ip, port, body), Tokens(body, WIRE);
    TokensOfSend(ip, port, body);
    FieldsOfShortText(line, MaxWords(Send));
    var ts := ["send", ip, Decimal(port)] + words;
    assert ts[3..] == words;
    assert words == [] ==> Join(words) == [];
  }

  /** A received `connect` stores the sender under exactly the address and port it printed. */
  lemma {:induction false} ConnectAddsSender(table: P.Table, fd: int, ip: string, port: P.Port, body: string)
    requires Address(ip) && |Line(Connected, ip, port, body)| < MAX_MESSAGE_LENGTH
    ensures TableAfter(table, fd, Receive(Line(Connected, ip, port, body))) == P.Add(table, ip, port, fd)
  {
    ReceiveUndoesBuild(Connected, ip, port, body);
  }

  /** Whatever text is received: which command it carries, and the words that its strategy gets. */
  predicate Commands(msg: string, command: string) {
    Tokens(msg, SPACES) != [] && Tokens(msg, SPACES)[0] == command
  }

  /** A `connect` with an address and a port. */
  predicate Connects(msg: string) {
    Commands(msg, "connect") && |Fields(msg, 4)| >= 3
  }

  /** A `terminate` with an address. */
  predicate Terminates(msg: string) {
    Commands(msg, "terminate") && |Fields(msg, 3)| >= 2
  }

  lemma {:induction false} ReceivedHandled(msg: string)
    ensures Connects(msg) ==> Receive(msg) == AddPeer(Fields(msg, 4)[1], Atoi(Fields(msg, 4)[2]) % 0x1_0000)
    ensures Terminates(msg) ==> Receive(msg) == RemovePeer(Fields(msg, 3)[1])
    ensures Receive(msg).AddPeer? ==> Connects(msg)
    ensures Receive(msg).RemovePeer? ==> Terminates(msg)
  {
  }

  /**
   What any received text does to the peer table: a `connect` with an address
   and a port adds, a `terminate` with an address removes the first active peer
   of the socket it came from and leaves all other slots alone, and every other
   text, too short ones included, leaves the whole table alone.
   */
  lemma {:induction false} ReceivingText(table: P.Table, fd: int, msg: string)
    ensures var after := TableAfter(table, fd, Receive(msg));
      && (Connects(msg) ==> after == P.Add(table, Fields(msg, 4)[1], Atoi(Fields(msg, 4)[2]) % 0x1_0000, fd))
      && (Terminates(msg) ==> LosesSender(table, fd, after))
      && (!Connects(msg) && !Terminates(msg) ==> after == table)
  {
    ReceivedHandled(msg);
    LosesSenderByFd(table, fd);
  }

  /** The first active slot with this socket is inactive now, nothing else changed; or nobody had the socket. */
  ghost predicate LosesSender(t: P.Table, fd: int, t': P.Table) {
    && (forall k: nat :: P.FirstByFd(t, fd, k) ==>
          && t'.count == t.count - 1 && t'.peers[k] == t.peers[k].(active := false)
          && (forall j :: 0 <= j < P.MAX_PEERS && j != k ==> t'.peers[j] == t.peers[j])
          && P.Roster(t'.peers) == P.Roster(t.peers[..k]) + P.Roster(t.peers[k + 1..]))
    && ((forall j :: 0 <= j < P.MAX_PEERS ==> !(t.peers[j].active && t.peers[j].fd == fd)) ==> t' == t)
  }

  lemma {:induction false} LosesSenderByFd(t: P.Table, fd: int)
    ensures LosesSender(t, fd, P.RemoveByFd(t, fd))
  {
    var t' := P.RemoveByFd(t, fd);
    forall k: nat | P.FirstByFd(t, fd, k)
      ensures t'.count == t.count - 1 && t'.peers[k] == t.peers[k].(active := false)
      ensures forall j :: 0 <= j < P.MAX_PEERS && j != k ==> t'.peers[j] == t.peers[j]
      ensures P.Roster(t'.peers) == P.Roster(t.peers[..k]) + P.Roster(t.peers[k + 1..])
    {
      P.RemoveByFdTakes(t, fd, k);
    }
    if forall j :: 0 <= j < P.MAX_PEERS ==> !(t.peers[j].active && t.peers[j].fd == fd) {
      P.RemoveByFdMisses(t, fd);
    }
  }

  /**
   A received line of each type, as the sender built it: `terminate` makes the
   sender's slot inactive and no other, `send`, `exit` and unknown lines leave
   every slot and the count alone.
   */
  lemma {:induction false} ReceivedLineTable(table: P.Table, fd: int, t: MessageType, ip: string, port: P.Port, body: string)
    requires Address(ip) && |Line(t, ip, port, body)| < MAX_MESSAGE_LENGTH
    ensures var after := TableAfter(table, fd, Receive(Line(t, ip, port, body)));
      && (t.Terminated? ==> LosesSender(table, fd, after))
      && (t.Send? || t.Exit? || t.Unknown? ==> after == table)
      && (t.Connected? ==> after == P.Add(table, ip, port, fd))
  {
    ReceiveUndoesBuild(t, ip, port, body);
    LosesSenderByFd(table, fd);
  }

  // ---- A typed send, end to end ----

  /** The text that `execute_send` is asked to deliver: the words after the index, at most 31 of them. */
  function TypedWords(input: string): seq<string> {
    var ts := Tokens(input, INPUT);
    if |ts| < 2 then [] else ts[2..if |ts| <= MAX_ARGUMENTS + 1 then |ts| else MAX_ARGUMENTS + 1]
  }

  /**
   Parsing keeps every word of a line that is not cut, up to 32 arguments: the
   command and the arguments, joined again, are the line with single spaces.
   */
  lemma {:induction false} ParseKeepsWords(input: string)
    requires |input| < MAX_INPUT_BUFFER
    ensures var ts := Tokens(input, INPUT);
      && (Parse(input).None? <==> ts == [])
      && (ts != [] && |ts[0]| < MAX_CMD && |ts| <= MAX_ARGUMENTS + 1 ==>
            Join([Parse(input).name] + Parse(input).arguments) == Join(ts))
      && (ts != [] ==> |Parse(input).arguments| == if |ts| <= MAX_ARGUMENTS then |ts| - 1 else MAX_ARGUMENTS)
      && (forall i :: 0 <= i < |ts| - 1 && i < MAX_ARGUMENTS ==> Parse(input).arguments[i] == ts[i + 1])
  {
    var ts := Tokens(input, INPUT);
    if ts != [] && |ts| <= MAX_ARGUMENTS + 1 {
      assert [ts[0]] + ts[1..] == ts;
      assert |ts| == MAX_ARGUMENTS + 1 ==> ts[1..][..MAX_ARGUMENTS] == ts[1..];
    }
  }

  lemma {:induction false} PortDigits(port: P.Port)
    ensures |Decimal(port)| <= 5
  {
    var a, b, c := port / 10, port / 100, port / 1000;
    assert a / 10 == b && b / 10 == c && c / 10 < 10;
    assert |Decimal(c)| <= 2;
    assert |Decimal(b)| <= 3;
    assert |Decimal(a)| <= 4;
  }

  lemma {:induction false} TypedWordsAreWords(input: string)
    requires '\n' !in input
    ensures Words(TypedWords(input), WIRE)
  {
    TokensAreWords(input, INPUT);
    var ts := Tokens(input, INPUT);
    forall i | 0 <= i < |ts|
      ensures Word(ts[i], WIRE)
    {
      forall j | 0 <= j < |ts[i]|
        ensures ts[i][j] !in WIRE
      {
        assert ts[i][j] in input;
      }
    }
  }

  /** The length of the line that carries `text` from this sender. */
  function LineLength(ip: string, port: P.Port, text: string): nat {
    |Header(Send, ip, port)| + 1 + |text|
  }

  lemma {:induction false} StartsWithSend(ip: string, port: P.Port, body: string, n: nat)
    requires 5 <= n <= |Line(Send, ip, port, body)|
    ensures Line(Send, ip, port, body)[..n] == Prefix(Send) + " " + Line(Send, ip, port, body)[5..n]
  {
    LineParts(ip, port, body);
    var line := Line(Send, ip, port, body);
    assert line[..5] == Prefix(Send) + " ";
    assert line[..n] == line[..5] + line[5..n];
  }

  /** A received text that opens with the command `send` can only show words that it has room for. */
  lemma {:induction false} ShownFits(msg: string, ip: string, number: string, text: string)
    requires |msg| < MAX_MESSAGE_LENGTH && Tokens(msg, SPACES) != [] && Tokens(msg, SPACES)[0] == "send"
    requires Receive(msg) == Message(ip, number, text)
    requires Tokens(msg, WIRE) != [] && Tokens(msg, WIRE)[0] == "send"
    ensures |Prefix(Send)| + |ip| + |number| + 3 + |text| <= |msg|
  {
    var ts, words := Tokens(msg, WIRE), Fields(msg, MaxWords(Send));
    FieldsOfShortText(msg, MaxWords(Send));
    assert Receive(msg) == Handle(Send, words);
    assert |words| == 4 && words == ts[..3] + [Join(ts[3..])];
    JoinedTokensLength(msg, WIRE);
    JoinFour(ts);
  }

  lemma {:induction false} TooLongIsCut(ip: string, port: P.Port, words: seq<string>)
    requires Address(ip) && Words(words, WIRE) && words != []
    requires LineLength(ip, port, Join(words)) >= MAX_MESSAGE_LENGTH
    ensures Receive(Received(OnWire(Line(Send, ip, port, Cut(Join(words), MAX_MESSAGE_LENGTH)))))
         != Message(ip, Decimal(port), Join(words))
  {
    var body := Cut(Join(words), MAX_MESSAGE_LENGTH);
    var line := Line(Send, ip, port, body);
    var msg := Received(OnWire(line));
    assert |line| == LineLength(ip, port, body) >= MAX_MESSAGE_LENGTH;
    assert msg == line[..MAX_MESSAGE_LENGTH - 1];
    StartsWithSend(ip, port, body, MAX_MESSAGE_LENGTH - 1);
    CommandOf(Send, line[5..MAX_MESSAGE_LENGTH - 1]);
    if Receive(msg) == Message(ip, Decimal(port), Join(words)) {
      ShownFits(msg, ip, Decimal(port), Join(words));
    }
  }

  lemma {:induction false} JoinFour(ts: seq<string>)
    requires |ts| >= 4
    ensures |Join(ts)| == |ts[0]| + |ts[1]| + |ts[2]| + 3 + |Join(ts[3..])|
  {
    assert ts[1..][1..] == ts[2..] && ts[2..][1..] == ts[3..];
    assert Join(ts[1..]) == ts[1] + " " + Join(ts[2..]);
    assert Join(ts[2..]) == ts[2] + " " + Join(ts[3..]);
  }

  /**
   For every list of words, however long: what the sender's side puts on the
   wire is shown by the receiver as exactly these words, joined by single
   spaces, with the sender's address and port, if and only if the whole line
   fits one receive of 99 bytes.
   */
  lemma {:induction false} DeliveredIff(ip: string, port: P.Port, words: seq<string>)
    requires Address(ip) && Words(words, WIRE) && words != []
    ensures Receive(Received(OnWire(Line(Send, ip, port, Cut(Join(words), MAX_MESSAGE_LENGTH)))))
         == Message(ip, Decimal(port), Join(words))
       <==> LineLength(ip, port, Join(words)) < MAX_MESSAGE_LENGTH
  {
    if LineLength(ip, port, Join(words)) < MAX_MESSAGE_LENGTH {
      TokensOfJoin(words, WIRE);
      assert Cut(Join(words), MAX_MESSAGE_LENGTH) == Join(words);
      assert |Line(Send, ip, port, Join(words))| == LineLength(ip, port, Join(words));
      ReceiveUndoesBuild(Send, ip, port, Join(words));
    } else {
      TooLongIsCut(ip, port, words);
    }
  }

  lemma TypedArguments(ts: seq<string>)
    requires |ts| >= 3
    ensures var arguments := if |ts| <= MAX_ARGUMENTS then ts[1..] else ts[1..][..MAX_ARGUMENTS];
      arguments[0] == ts[1] && arguments[1..] == ts[2..if |ts| <= MAX_ARGUMENTS + 1 then |ts| else MAX_ARGUMENTS + 1]
  {
  }

  /**
   End to end: a typed `send <index> <words>` is parsed, joined, printed, sent
   to the peer in that slot, received and split into exactly the typed words
   (the first 31 of them) if and only if the printed line fits one receive; and
   nothing is sent unless it is such a line and the slot holds an active peer.
   */
  lemma {:induction false} SendEndToEnd(peers: P.Slots, input: string, ip: string, port: P.Port)
    requires |input| < MAX_INPUT_BUFFER && '\n' !in input
    requires Address(ip) && |ip| < P.MAX_IP_ADDRESS_LENGTH
    ensures var ts, sent := Tokens(input, INPUT), SendCommand(peers, input, ip, port);
      && (sent != [] <==> |ts| >= 3 && ts[0] == "send" && Reaches(peers, Atoi(ts[1])))
      && (sent != [] ==>
            && |sent| == 1 && sent[0].fd == peers[Atoi(ts[1])].fd
            && (Receive(Received(sent[0].text)) == Message(ip, Decimal(port), Join(TypedWords(input)))
                <==> LineLength(ip, port, Join(TypedWords(input))) < MAX_MESSAGE_LENGTH))
  {
    var ts := Tokens(input, INPUT);
    if |ts| >= 3 && ts[0] == "send" {
      var words := TypedWords(input);
      var arguments := Parse(input).arguments;
      TypedArguments(ts);
      TypedWordsAreWords(input);
      PortDigits(port);
      DeliveredIff(ip, port, words);
    }
  }

  lemma {:induction false} ZeroIndex()
    ensures Atoi("0") == 0
  {
    AtoiOfDecimal(0);
    assert Decimal(0) == "0";
  }

  /**
   The documented 100 characters are too many: a message of that length, typed
   as one word, is put on the wire cut, and shown otherwise than it was typed.
   */
  lemma {:induction false} HundredCharactersAreCut(peers: P.Slots, ip: string, port: P.Port)
    returns (input: string, text: string)
    requires peers[0].active && Address(ip) && |ip| < P.MAX_IP_ADDRESS_LENGTH
    ensures |text| == MAX_MESSAGE_LENGTH && input == "send 0 " + text && TypedWords(input) == [text]
    ensures |SendCommand(peers, input, ip, port)| == 1
    ensures Receive(Received(SendCommand(peers, input, ip, port)[0].text)) != Message(ip, Decimal(port), text)
  {
    text := seq(MAX_MESSAGE_LENGTH, _ => 'a');
    input := "send 0 " + text;
    assert input == "send" + " " + ("0" + " " + text);
    TokensSpacedTwice("send", "0", text, INPUT);
    TokensLast(text, INPUT);
    assert Tokens(input, INPUT) == ["send", "0", text];
    assert Join([text]) == text;
    ZeroIndex();
    SendEndToEnd(peers, input, ip, port);
  }
}
