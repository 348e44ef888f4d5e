/** The remote-control client's activity: validating the address the user
    types, the wire message, the send throttle with its in-flight guard, the
    idle "stop" keep-alive and the connection bookkeeping. The single-worker
    executor is a FIFO queue of tasks that the environment runs one at a
    time; time is a parameter; the keep-alive thread is a flag plus a tick
    standing for one iteration of its loop. */
module Client {
  import opened JavaText
  import opened Joystick

  // ---------------------------------------------------------------------
  // IPv4 validation: ^((25[0-5]|2[0-4][0-9]|[01]?[0-9][0-9]?)\.){3}(25[0-5]|2[0-4][0-9]|[01]?[0-9][0-9]?)$

  predicate IsZeroOrOne(c: char) {
    c == '0' || c == '1'
  }

  /** [01]?[0-9][0-9]? : each optional part present or absent. */
  predicate ShortOctetPattern(t: string) {
    (|t| == 1 && IsDigit(t[0]))
    || (|t| == 2 && IsDigit(t[0]) && IsDigit(t[1]))
    || (|t| == 2 && IsZeroOrOne(t[0]) && IsDigit(t[1]))
    || (|t| == 3 && IsZeroOrOne(t[0]) && IsDigit(t[1]) && IsDigit(t[2]))
  }

  /** 25[0-5] | 2[0-4][0-9] | [01]?[0-9][0-9]? */
  predicate OctetPattern(t: string) {
    (|t| == 3 && t[0] == '2' && t[1] == '5' && '0' <= t[2] <= '5')
    || (|t| == 3 && t[0] == '2' && '0' <= t[1] <= '4' && IsDigit(t[2]))
    || ShortOctetPattern(t)
  }

  /** The pattern split at the three '.' characters it consumes, at indices
      i < j < k: four octet groups around them. */
  predicate SplitAt(ip: string, i: int, j: int, k: int) {
    0 <= i < j < k < |ip| && ip[i] == '.' && ip[j] == '.' && ip[k] == '.'
    && OctetPattern(ip[..i]) && OctetPattern(ip[i + 1..j])
    && OctetPattern(ip[j + 1..k]) && OctetPattern(ip[k + 1..])
  }

  /** isValidIp: Pattern.matcher(ip).matches() against the pattern above,
      that is, some choice of the three '.' splits the whole text into
      four octet groups. */
  predicate IsValidIp(ip: string) {
    exists i, j, k | 0 <= i < |ip| && 0 <= j < |ip| && 0 <= k < |ip| :: SplitAt(ip, i, j, k)
  }

  // The meaning of the pattern, stated independently of it.

  /** One to three ASCII digits whose decimal value is at most 255
      (leading zeros allowed). */
  predicate IsOctet(t: string) {
    1 <= |t| <= 3 && AllDigits(t) && DigitsValue(t) <= 255
  }

  /** The pieces between the '.' characters of s, empty pieces included,
      read from the left. */
  function Fields(s: string): (f: seq<string>)
    ensures 1 <= |f|
  {
    if s == [] then [[]]
    else
      var rest := Fields(s[1..]);
      if s[0] == '.' then [[]] + rest
      else [[s[0]] + rest[0]] + rest[1..]
  }

  /** Exactly four '.'-separated groups, each an octet. */
  predicate IsDottedQuad(s: string) {
    var f := Fields(s);
    |f| == 4 && forall k :: 0 <= k < 4 ==> IsOctet(f[k])
  }

  lemma DigitsValue3(t: string)
    requires |t| == 3 && AllDigits(t)
    ensures DigitsValue(t) == 100 * DigitValue(t[0]) + 10 * DigitValue(t[1]) + DigitValue(t[2])
  {
    assert t[..2][..1] == t[..1];
    assert t[..1][..0] == [];
    assert DigitsValue(t[..1]) == DigitValue(t[0]);
    assert DigitsValue(t[..2]) == DigitsValue(t[..1]) * 10 + DigitValue(t[1]);
  }

  lemma DigitsValue2(t: string)
    requires |t| == 2 && AllDigits(t)
    ensures DigitsValue(t) == 10 * DigitValue(t[0]) + DigitValue(t[1])
  {
    assert t[..1][..0] == [];
    assert DigitsValue(t[..1]) == DigitValue(t[0]);
  }

  /** The octet alternatives accept exactly the one-to-three-digit strings
      whose value is at most 255. */
  lemma OctetPatternIsOctet(t: string)
    ensures OctetPattern(t) <==> IsOctet(t)
  {
    if |t| == 3 && AllDigits(t) {
      DigitsValue3(t);
    } else if |t| == 2 && AllDigits(t) {
      DigitsValue2(t);
    } else if |t| == 1 && AllDigits(t) {
      assert t[..0] == [];
      assert DigitsValue(t) == DigitValue(t[0]);
    }
  }

  lemma OctetPatternHasNoDot(t: string)
    requires OctetPattern(t)
    ensures '.' !in t
  {
    OctetPatternIsOctet(t);
    assert forall c :: c in t ==> IsDigit(c);
  }

  /** Text without a '.' is a single field. */
  lemma {:induction false} FieldsNoDot(s: string)
    requires '.' !in s
    ensures Fields(s) == [s]
  {
    if s != [] {
      assert s[0] in s;
      assert s[1..] <= s[1..] && forall c :: c in s[1..] ==> c in s;
      FieldsNoDot(s[1..]);
      assert [s[0]] + s[1..] == s;
    }
  }

  /** A single field holds no '.'. */
  lemma {:induction false} OneField(s: string)
    requires |Fields(s)| == 1
    ensures '.' !in s
  {
    if s != [] {
      OneField(s[1..]);
      assert s == [s[0]] + s[1..];
    }
  }

  /** A dot-free piece before a '.' is the first field. */
  lemma {:induction false} FieldsCons(a: string, rest: string)
    requires '.' !in a
    ensures Fields(a + "." + rest) == [a] + Fields(rest)
  {
    var s := a + "." + rest;
    if a == [] {
      assert s[1..] == rest;
    } else {
      assert s[0] == a[0] && a[0] in a;
      assert s[1..] == a[1..] + "." + rest;
      assert forall c :: c in a[1..] ==> c in a;
      FieldsCons(a[1..], rest);
      var g := [a[1..]] + Fields(rest);
      assert g[0] == a[1..] && g[1..] == Fields(rest);
      assert [a[0]] + a[1..] == a;
    }
  }

  /** With two fields or more, the first one ends at the first '.'. */
  lemma {:induction false} FieldsSplit(s: string) returns (i: nat)
    requires |Fields(s)| >= 2
    ensures i < |s| && s[i] == '.' && '.' !in s[..i]
    ensures Fields(s) == [s[..i]] + Fields(s[i + 1..])
  {
    if s[0] == '.' {
      i := 0;
      assert s[..0] == [];
    } else {
      var j := FieldsSplit(s[1..]);
      i := j + 1;
      var f := Fields(s[1..]);
      assert f[0] == s[1..][..j] && f[1..] == Fields(s[i + 1..]);
      assert s[..i] == [s[0]] + s[1..][..j];
    }
  }

  /** FieldsSplit, for the text after the '.' at index i. */
  lemma FieldsSplitAfter(ip: string, i: nat) returns (j: nat)
    requires i < |ip| && |Fields(ip[i + 1..])| >= 2
    ensures i < j < |ip| && ip[j] == '.'
    ensures Fields(ip[i + 1..]) == [ip[i + 1..j]] + Fields(ip[j + 1..])
  {
    var j1 := FieldsSplit(ip[i + 1..]);
    SliceAfter(ip, i, j1);
    j := i + 1 + j1;
  }

  lemma SliceAfter(s: string, a: nat, b: nat)
    requires a + 1 + b < |s|
    ensures s[a + 1..][..b] == s[a + 1..a + 1 + b]
    ensures s[a + 1..][b] == s[a + 1 + b]
    ensures s[a + 1..][b + 1..] == s[a + 1 + b + 1..]
  {
  }

  lemma FourFields(f: seq<string>, a: string, b: string, c: string, d: string)
    requires f == [a] + ([b] + ([c] + [d]))
    ensures f == [a, b, c, d]
  {
  }

  /** Cutting at three '.' characters and putting the '.' back. */
  lemma JoinAt(s: string, i: nat)
    requires i < |s| && s[i] == '.'
    ensures s == s[..i] + "." + s[i + 1..]
  {
  }

  /** The text after the '.' at index i, cut at the '.' at index j. */
  lemma JoinAfter(ip: string, i: nat, j: nat)
    requires i < j < |ip| && ip[j] == '.'
    ensures ip[i + 1..] == ip[i + 1..j] + "." + ip[j + 1..]
  {
    SliceAfter(ip, i, j - i - 1);
    JoinAt(ip[i + 1..], j - i - 1);
  }

  lemma SplitAtJoin(ip: string, i: int, j: int, k: int)
    requires 0 <= i < j < k < |ip| && ip[i] == '.' && ip[j] == '.' && ip[k] == '.'
    ensures ip == ip[..i] + "." + (ip[i + 1..j] + "." + (ip[j + 1..k] + "." + ip[k + 1..]))
  {
    JoinAt(ip, i);
    JoinAfter(ip, i, j);
    JoinAfter(ip, j, k);
  }

  /** Any split the pattern makes is the split at the '.' characters. */
  lemma SplitAtFields(ip: string, i: int, j: int, k: int)
    requires SplitAt(ip, i, j, k)
    ensures Fields(ip) == [ip[..i], ip[i + 1..j], ip[j + 1..k], ip[k + 1..]]
  {
    var a, b, c, d := ip[..i], ip[i + 1..j], ip[j + 1..k], ip[k + 1..];
    OctetPatternHasNoDot(a);
    OctetPatternHasNoDot(b);
    OctetPatternHasNoDot(c);
    OctetPatternHasNoDot(d);
    SplitAtJoin(ip, i, j, k);
    FieldsNoDot(d);
    FieldsCons(c, d);
    FieldsCons(b, c + "." + d);
    FieldsCons(a, b + "." + (c + "." + d));
    FourFields(Fields(ip), a, b, c, d);
  }

  /** Four fields are found at three '.' characters, in order. */
  lemma FourFieldsSplit(ip: string) returns (i: int, j: int, k: int)
    requires |Fields(ip)| == 4
    ensures 0 <= i < j < k < |ip| && ip[i] == '.' && ip[j] == '.' && ip[k] == '.'
    ensures Fields(ip) == [ip[..i], ip[i + 1..j], ip[j + 1..k], ip[k + 1..]]
  {
    i := FieldsSplit(ip);
    j := FieldsSplitAfter(ip, i);
    k := FieldsSplitAfter(ip, j);
    OneField(ip[k + 1..]);
    FieldsNoDot(ip[k + 1..]);
    FourFields(Fields(ip), ip[..i], ip[i + 1..j], ip[j + 1..k], ip[k + 1..]);
  }

  /** isValidIp accepts a string exactly when it is four '.'-separated groups
      of one to three ASCII digits, each at most 255. */
  lemma IsValidIpIsDottedQuad(ip: string)
    ensures IsValidIp(ip) <==> IsDottedQuad(ip)
  {
    if IsValidIp(ip) {
      var i, j, k :| SplitAt(ip, i, j, k);
      SplitAtFields(ip, i, j, k);
      OctetPatternIsOctet(ip[..i]);
      OctetPatternIsOctet(ip[i + 1..j]);
      OctetPatternIsOctet(ip[j + 1..k]);
      OctetPatternIsOctet(ip[k + 1..]);
      assert IsDottedQuad(ip);
    }
    if IsDottedQuad(ip) {
      var f := Fields(ip);
      var i, j, k := FourFieldsSplit(ip);
      OctetPatternIsOctet(f[0]);
      OctetPatternIsOctet(f[1]);
      OctetPatternIsOctet(f[2]);
      OctetPatternIsOctet(f[3]);
      assert SplitAt(ip, i, j, k);
    }
  }

  /** Four octets joined by '.' are accepted. */
  lemma IsValidIpOfOctets(a: string, b: string, c: string, d: string)
    requires OctetPattern(a) && OctetPattern(b) && OctetPattern(c) && OctetPattern(d)
    ensures IsValidIp(a + "." + b + "." + c + "." + d)
  {
    var ip := a + "." + b + "." + c + "." + d;
    var i, j, k := |a|, |a| + 1 + |b|, |a| + 1 + |b| + 1 + |c|;
    assert ip[..i] == a && ip[i + 1..j] == b && ip[j + 1..k] == c && ip[k + 1..] == d;
    assert SplitAt(ip, i, j, k);
  }

  /** A first group that is not an octet is rejected, whatever follows. */
  lemma IsValidIpRejectsGroup(a: string, rest: string)
    requires '.' !in a && !OctetPattern(a)
    ensures !IsValidIp(a + "." + rest)
  {

  }

  /** Leading zeros are accepted; values above 255 and four digits are not. */
  lemma OctetPatternExamples()
    ensures OctetPattern("0") && OctetPattern("01") && OctetPattern("001") && OctetPattern("255")
    ensures !OctetPattern("256") && !OctetPattern("0001") && !OctetPattern("") && !OctetPattern("abc")
  {
  }

  /** Leading zeros pass in a whole address. */
  lemma LeadingZerosAccepted()
    ensures IsValidIp("192.168.001.01")
  {
    assert "192.168.001.01" == "192" + "." + "168" + "." + "001" + "." + "01";
    IsValidIpOfOctets("192", "168", "001", "01");
  }

  /** A group above 255 fails the whole address. */
  lemma GroupAbove255Rejected()
    ensures !IsValidIp("256.1.1.1")
  {
    assert "256.1.1.1" == "256" + "." + "1.1.1";
    IsValidIpRejectsGroup("256", "1.1.1");
  }

  /** Three groups are not an address. */
  lemma MissingGroupRejected()
    ensures !IsValidIp("1.2.3")
  {
    IsValidIpIsDottedQuad("1.2.3");
    assert "1.2.3" == "1" + "." + ("2" + "." + "3");
    FieldsCons("1", "2" + "." + "3");
    FieldsCons("2", "3");
    FieldsNoDot("3");
  }

  // ---------------------------------------------------------------------
  // Connect-click input validation

  datatype InputError = EmptyField | BadIpFormat | BadPortNumber | PortOutOfRange

  datatype Endpoint = Endpoint(ip: string, port: int)

  datatype Validation = Accepted(endpoint: Endpoint) | Rejected(error: InputError)

  /** The checks handleConnectClick makes, in order, before connecting:
      both fields non-empty after trimming, the address accepted by
      isValidIp, the port an int in 1..65535. */
  function ValidateConnectInput(ipText: string, portText: string): (v: Validation)
    ensures v.Accepted? ==>
              v.endpoint.ip == Trim(ipText) && IsValidIp(v.endpoint.ip) && 1 <= v.endpoint.port <= 65535
  {
    var ip := Trim(ipText);
    var portStr := Trim(portText);
    if ip == [] || portStr == [] then Rejected(EmptyField)
    else if !IsValidIp(ip) then Rejected(BadIpFormat)
    else match ParseInt(portStr)
      case None => Rejected(BadPortNumber)
      case Some(port) =>
        if port < 1 || port > 65535 then Rejected(PortOutOfRange)
        else Accepted(Endpoint(ip, port))
  }

  /** Each outcome of the checks, stated by what the trimmed fields are:
      the first failing check names the error, and an accepted endpoint is
      the trimmed dotted quad with the parsed port. */
  lemma ValidateConnectInputOutcomes(ipText: string, portText: string)
    ensures var r := ValidateConnectInput(ipText, portText);
            var ip, portStr := Trim(ipText), Trim(portText);
            var filled := ip != [] && portStr != [];
            && (r == Rejected(EmptyField) <==> !filled)
            && (r == Rejected(BadIpFormat) <==> filled && !IsDottedQuad(ip))
            && (r == Rejected(BadPortNumber) <==> filled && IsDottedQuad(ip) && ParseInt(portStr).None?)
            && (r == Rejected(PortOutOfRange) <==>
                  filled && IsDottedQuad(ip) && ParseInt(portStr).Some?
                  && !(1 <= ParseInt(portStr).value <= 65535))
            && (r.Accepted? <==>
                  filled && IsDottedQuad(ip) && ParseInt(portStr).Some?
                  && 1 <= ParseInt(portStr).value <= 65535)
            && (r.Accepted? ==> r.endpoint == Endpoint(ip, ParseInt(portStr).value))
  {
    IsValidIpIsDottedQuad(Trim(ipText));
  }

  // ---------------------------------------------------------------------
  // Wire format and direction text

  /** String.format(Locale.US, "Angle: %.0f, Speed: %.0f", angle, speed) for
      integral values: one line of the protocol. */
  function Message(angle: int, speed: int): (m: string)
    ensures '\n' !in m && '\r' !in m
  {
    IntToStringSingleLine(angle);
    IntToStringSingleLine(speed);
    var a := IntToString(angle);
    var s := IntToString(speed);
    assert '\n' !in "Angle: " && '\r' !in "Angle: ";
    assert '\n' !in ", Speed: " && '\r' !in ", Speed: ";
    "Angle: " + a + ", Speed: " + s
  }

  /** getDirectionText. */
  function DirectionText(d: Direction): (t: string)
    ensures t != "未知方向"
  {
    match d
    case UP => "↑ 正前方"
    case RIGHT => "→ 正右方"
    case DOWN => "↓ 正后方"
    case LEFT => "← 正左方"
    case UP_RIGHT => "↗ 右前方"
    case DOWN_RIGHT => "↘ 右后方"
    case DOWN_LEFT => "↙ 左后方"
    case UP_LEFT => "↖ 左前方"
    case NONE => "○ 停止状态"
  }

  /** Every direction has its own text: the display tells all nine apart. */
  lemma DirectionTextInjective(d: Direction, e: Direction)
    requires d != e
    ensures DirectionText(d) != DirectionText(e)
  {
    assert DirectionText(d)[0] != DirectionText(e)[0];
  }

  // ---------------------------------------------------------------------
  // Send throttle

  /** What sendData does with a request at time `now`. */
  datatype SendDecision =
    | Throttled       // less than 50 ms since lastSendTime: return at once
    | AlreadySending  // lastSendTime moves to now, but a send is in flight
    | Enqueued        // lastSendTime moves to now and a send task is queued

  const ThrottleMillis: int := 50

  function DecideSend(now: int, lastSendTime: int, isSending: bool): (r: SendDecision)
    ensures r == Throttled <==> now < lastSendTime + ThrottleMillis
    ensures r == Enqueued <==> now >= lastSendTime + ThrottleMillis && !isSending
  {
    if now - lastSendTime < ThrottleMillis then Throttled
    else if isSending then AlreadySending
    else Enqueued
  }

  /** The fields sendData reads and writes: the last send time, the
      in-flight flag, the executor queue and (ghost) the start times of the
      queued sends. */
  datatype SendBook = SendBook(lastSendTime: int, isSending: bool, tasks: seq<Task>, sendStarts: seq<int>)

  /** The bookkeeping after sendData(now, angle, speed) starting from b. */
  function AfterSendData(now: int, angle: int, speed: int, b: SendBook): SendBook {
    match DecideSend(now, b.lastSendTime, b.isSending)
    case Throttled => b
    case AlreadySending => b.(lastSendTime := now)
    case Enqueued =>
      SendBook(now, true, b.tasks + [SendTask(angle, speed)], b.sendStarts + [now])
  }

  /** Consecutive send starts are at least 50 ms apart. */
  ghost predicate RateLimited(starts: seq<int>) {
    forall i :: 0 <= i < |starts| - 1 ==> starts[i] + ThrottleMillis <= starts[i + 1]
  }

  /** In a rate-limited history any two starts are 50 ms apart per step between them. */
  lemma {:induction false} RateLimitedSpacing(starts: seq<int>, i: int, j: int)
    requires RateLimited(starts) && 0 <= i <= j < |starts|
    ensures starts[i] + ThrottleMillis * (j - i) <= starts[j]
    decreases j - i
  {
    if i < j {
      RateLimitedSpacing(starts, i + 1, j);
    }
  }

  // ---------------------------------------------------------------------
  // The activity's connection and sending state

  /** The java.net.Socket flags isConnectionValid reads. Closing or
      shutting down a socket and events on the peer's side are not modelled,
      so every stored socket is OpenSocket (see Invariant) and the test
      reduces to whether a socket is held. */
  datatype Socket = Socket(connected: bool, closed: bool, inputShutdown: bool, outputShutdown: bool)

  /** A socket as new Socket(host, port) returns it. */
  const OpenSocket: Socket := Socket(true, false, false, false)

  /** new PrintWriter(socket.getOutputStream(), true): auto-flushing. */
  datatype Writer = Writer(autoFlush: bool)

  /** A task for the single-thread executor. */
  datatype Task =
    | ConnectTask             // connectToServer
    | DisconnectTask          // disconnectFromServer
    | SendTask(angle: int, speed: int)  // the body queued by sendData

  function SendTasks(tasks: seq<Task>): nat {
    if tasks == [] then 0
    else (if tasks[0].SendTask? then 1 else 0) + SendTasks(tasks[1..])
  }

  lemma SendTasksAppend(a: seq<Task>, b: seq<Task>)
    ensures SendTasks(a + b) == SendTasks(a) + SendTasks(b)
  {
    if a != [] {
      assert (a + b)[0] == a[0];
      assert (a + b)[1..] == a[1..] + b;
      SendTasksAppend(a[1..], b);
    } else {
      assert a + b == b;
    }
  }

  /** What a connect-button click did. */
  datatype ClickOutcome = Disconnecting | Connecting(endpoint: Endpoint) | InputRejected(error: InputError)

  class MainActivity {
    var serverIp: Option<string>
    var port: int
    var clientSocket: Option<Socket>
    var writer: Option<Writer>
    var isConnected: bool
    var isSending: bool
    var lastSendTime: int
    /** stopSendingThread != null && stopSendingThread.isAlive() */
    var keepAliveRunning: bool
    /** Tasks handed to the executor and not yet run, oldest first. */
    var tasks: seq<Task>
    /** Every line passed to writer.println, in order. */
    var written: seq<string>
    /** The times at which sendData queued a send task. */
    ghost var sendStarts: seq<int>

    /** At most one send is in flight, and it is the one isSending reports;
        send starts are rate limited; a stored socket is the open one and a
        writer exists exactly when a socket does. */
    ghost predicate Valid()
      reads this
    {
      Invariant(false)
    }

    /** Valid, while the executor is (runningSend) or is not running a send
        task it has already taken off the queue. */
    ghost predicate Invariant(runningSend: bool)
      reads this
    {
      SendTasks(tasks) + (if runningSend then 1 else 0) == (if isSending then 1 else 0)
      && RateLimited(sendStarts)
      && (sendStarts != [] ==> sendStarts[|sendStarts| - 1] <= lastSendTime)
      && (clientSocket.Some? ==> clientSocket.value == OpenSocket)
      && (writer.Some? <==> clientSocket.Some?)
    }

    /** isConnectionValid: the socket exists, is connected, not closed, and
        neither direction is shut down. */
    function IsConnectionValid(): (r: bool)
      reads this
      ensures r ==> clientSocket.Some?
      ensures Valid() ==> (r <==> clientSocket.Some?)
    {
      match clientSocket
      case None => false
      case Some(s) => s.connected && !s.closed && !s.inputShutdown && !s.outputShutdown
    }

    constructor ()
      ensures Valid()
      ensures serverIp == None && port == 0 && clientSocket == None && writer == None
      ensures !isConnected && !isSending && lastSendTime == 0 && !keepAliveRunning
      ensures tasks == [] && written == []
    {
      serverIp, port := None, 0;
      clientSocket, writer := None, None;
      isConnected, isSending, lastSendTime := false, false, 0;
      keepAliveRunning := false;
      tasks, written := [], [];
      sendStarts := [];
    }

    /** The connection fields and the written lines are as they were. */
    twostate predicate ConnectionUnchanged()
      reads this
    {
      serverIp == old(serverIp) && port == old(port)
      && clientSocket == old(clientSocket) && writer == old(writer)
      && isConnected == old(isConnected) && written == old(written)
    }

    ghost function Book(): SendBook
      reads this
    {
      SendBook(lastSendTime, isSending, tasks, sendStarts)
    }

    /** sendData: the 50 ms throttle, then the in-flight guard, then one
        send task queued. */
    method SendData(now: int, angle: int, speed: int)
      requires Valid()
      modifies this
      ensures Valid()
      ensures Book() == AfterSendData(now, angle, speed, old(Book()))
      ensures ConnectionUnchanged() && keepAliveRunning == old(keepAliveRunning)
    {
      if now - lastSendTime < ThrottleMillis {
        return;
      }
      lastSendTime := now;
      if isSending {
        return;
      }
      isSending := true;
      SendTasksAppend(tasks, [SendTask(angle, speed)]);
      tasks := tasks + [SendTask(angle, speed)];
      sendStarts := sendStarts + [now];
    }

    /** closeConnection: a (0, 0) through sendData, then the writer and the
        socket are closed and dropped. */
    method CloseConnection(now: int)
      requires Valid()
      modifies this
      ensures Valid()
      ensures writer == None && clientSocket == None && !IsConnectionValid()
      ensures Book() == AfterSendData(now, 0, 0, old(Book()))
      ensures serverIp == old(serverIp) && port == old(port) && isConnected == old(isConnected)
      ensures written == old(written) && keepAliveRunning == old(keepAliveRunning)
    {
      SendData(now, 0, 0);
      if writer.Some? {
        writer := None;
      }
      if clientSocket.Some? {
        clientSocket := None;
      }
    }

    /** updateConnectionStatus, without its display update. */
    method UpdateConnectionStatus(connected: bool)
      modifies this`isConnected
      ensures isConnected == connected
    {
      isConnected := connected;
    }

    /** connectToServer: hand a connect task to the executor. It is called
        from the click handler (runningSend false) and from inside a running
        send task, whose send isSending still counts (runningSend true). */
    method ConnectToServer(ghost runningSend: bool)
      requires Invariant(runningSend)
      modifies this`tasks
      ensures Invariant(runningSend)
      ensures tasks == old(tasks) + [ConnectTask]
    {
      SendTasksAppend(tasks, [ConnectTask]);
      tasks := tasks + [ConnectTask];
    }

    /** disconnectFromServer: hand a disconnect task to the executor. */
    method DisconnectFromServer()
      requires Valid()
      modifies this`tasks
      ensures Valid()
      ensures tasks == old(tasks) + [DisconnectTask]
    {
      SendTasksAppend(tasks, [DisconnectTask]);
      tasks := tasks + [DisconnectTask];
    }

    /** handleConnectClick: disconnect when connected, whatever the fields
        hold; otherwise validate and, on success, store the endpoint and
        queue exactly one connect. */
    method HandleConnectClick(ipText: string, portText: string) returns (outcome: ClickOutcome)
      requires Valid()
      modifies this`serverIp, this`port, this`tasks
      ensures Valid()
      ensures isConnected ==> outcome == Disconnecting && tasks == old(tasks) + [DisconnectTask]
      ensures isConnected ==> serverIp == old(serverIp) && port == old(port)
      ensures !isConnected ==> ValidationApplied(ValidateConnectInput(ipText, portText), outcome)
    {
      if isConnected {
        DisconnectFromServer();
        return Disconnecting;
      }
      outcome := ApplyValidation(ValidateConnectInput(ipText, portText));
    }

    /** What a click does once the input is checked: an accepted endpoint is
        stored and one connect queued; a rejection changes nothing. */
    twostate predicate ValidationApplied(v: Validation, outcome: ClickOutcome)
      reads this
    {
      match v
      case Accepted(e) =>
        outcome == Connecting(e) && serverIp == Some(e.ip) && port == e.port
        && tasks == old(tasks) + [ConnectTask]
      case Rejected(err) =>
        outcome == InputRejected(err) && serverIp == old(serverIp) && port == old(port)
        && tasks == old(tasks)
    }

    method ApplyValidation(v: Validation) returns (outcome: ClickOutcome)
      requires Valid()
      modifies this`serverIp, this`port, this`tasks
      ensures Valid()
      ensures ValidationApplied(v, outcome)
    {
      match v
      case Rejected(err) =>
        outcome := InputRejected(err);
      case Accepted(e) =>
        serverIp := Some(e.ip);
        port := e.port;
        ConnectToServer(false);
        outcome := Connecting(e);
    }

    /** handleJoystickMovement, after its display update: nothing while
        disconnected; at rest, start the keep-alive unless one runs; moving,
        stop the keep-alive and send (angle, speed percent). */
    method HandleJoystickMovement(now: int, direction: Direction, angle: int, speed: int)
      requires Valid()
      modifies this
      ensures Valid()
      ensures ConnectionUnchanged()
      ensures !old(isConnected) ==> keepAliveRunning == old(keepAliveRunning) && Book() == old(Book())
      ensures old(isConnected) && direction == NONE ==> keepAliveRunning && Book() == old(Book())
      ensures old(isConnected) && direction != NONE ==>
                !keepAliveRunning
                && Book() == AfterSendData(now, angle, speed, old(Book()))
    {
      if isConnected {
        if direction == NONE {
          if !keepAliveRunning {
            keepAliveRunning := true;
          }
        } else {
          if keepAliveRunning {
            keepAliveRunning := false;
          }
          SendData(now, angle, speed);
        }
      }
    }

    /** One iteration of the keep-alive loop: while connected and the
        joystick is at rest, send (0, 0); otherwise the loop ends. */
    method KeepAliveTick(now: int, direction: Direction)
      requires Valid() && keepAliveRunning
      modifies this
      ensures Valid()
      ensures ConnectionUnchanged()
      ensures keepAliveRunning == (isConnected && direction == NONE)
      ensures isConnected && direction == NONE ==>
                Book() == AfterSendData(now, 0, 0, old(Book()))
      ensures !(isConnected && direction == NONE) ==> Book() == old(Book())
    {
      if isConnected && direction == NONE {
        SendData(now, 0, 0);
      } else {
        keepAliveRunning := false;
      }
    }

    /** The executor runs its oldest task. `socketOpens` says whether
        new Socket(serverIp, port) succeeds for a connect task, and
        `openedAt` is the time once it has. */
    method RunNextTask(now: int, socketOpens: bool, openedAt: int)
      requires Valid() && tasks != []
      modifies this
      ensures Valid()
      ensures serverIp == old(serverIp) && port == old(port) && keepAliveRunning == old(keepAliveRunning)
      ensures old(tasks[0]) == DisconnectTask ==>
                !isConnected && clientSocket == None && writer == None && written == old(written)
                && Book() == AfterSendData(now, 0, 0, old(Book()).(tasks := old(tasks[1..])))
      ensures old(tasks[0]) == ConnectTask && !socketOpens ==>
                !isConnected && clientSocket == None && writer == None && written == old(written)
                && Book() == AfterSendData(now, 0, 0, old(Book()).(tasks := old(tasks[1..])))
      ensures old(tasks[0]) == ConnectTask && socketOpens ==>
                isConnected && IsConnectionValid() && writer == Some(Writer(true)) && written == old(written)
                && Book() == AfterSendData(openedAt, 0, 0, AfterSendData(now, 0, 0,
                               old(Book()).(tasks := old(tasks[1..]))))
      ensures old(tasks[0]).SendTask? ==>
                !isSending && lastSendTime == old(lastSendTime) && sendStarts == old(sendStarts)
                && clientSocket == old(clientSocket) && writer == old(writer) && isConnected == old(isConnected)
                && (if old(IsConnectionValid())
                    then tasks == old(tasks[1..]) && written == old(written) + [Message(old(tasks[0]).angle, old(tasks[0]).speed)]
                    else tasks == old(tasks[1..]) + [ConnectTask] && written == old(written))
    {
      var t := tasks[0];
      SendTasksAppend([t], tasks[1..]);
      assert [t] + tasks[1..] == tasks;
      tasks := tasks[1..];
      match t
      case ConnectTask =>
        RunConnect(now, socketOpens, openedAt);
      case DisconnectTask =>
        RunDisconnect(now);
      case SendTask(angle, speed) =>
        RunSend(angle, speed);
    }

    /** The body of connectToServer's task: close what is open, then try
        the stored endpoint; on success mark connected and send (0, 0). */
    method RunConnect(now: int, socketOpens: bool, openedAt: int)
      requires Valid()
      modifies this
      ensures Valid()
      ensures serverIp == old(serverIp) && port == old(port) && keepAliveRunning == old(keepAliveRunning)
      ensures written == old(written) && isConnected == socketOpens
      ensures !socketOpens ==>
                clientSocket == None && writer == None
                && Book() == AfterSendData(now, 0, 0, old(Book()))
      ensures socketOpens ==>
                clientSocket == Some(OpenSocket) && writer == Some(Writer(true))
                && Book() == AfterSendData(openedAt, 0, 0, AfterSendData(now, 0, 0, old(Book())))
    {
      CloseConnection(now);
      if socketOpens {
        clientSocket := Some(OpenSocket);
        writer := Some(Writer(true));
        UpdateConnectionStatus(true);
        SendData(openedAt, 0, 0);
      } else {
        UpdateConnectionStatus(false);
      }
    }

    /** The body of disconnectFromServer's task. */
    method RunDisconnect(now: int)
      requires Valid()
      modifies this
      ensures Valid()
      ensures serverIp == old(serverIp) && port == old(port) && keepAliveRunning == old(keepAliveRunning)
      ensures !isConnected && clientSocket == None && writer == None && written == old(written)
      ensures Book() == AfterSendData(now, 0, 0, old(Book()))
    {
      CloseConnection(now);
      UpdateConnectionStatus(false);
    }

    /** The body of sendData's task: reconnect if the connection is not
        valid, write the line if there is a writer, clear isSending. */
    method RunSend(angle: int, speed: int)
      requires Invariant(true)
      modifies this
      ensures Valid()
      ensures serverIp == old(serverIp) && port == old(port) && keepAliveRunning == old(keepAliveRunning)
      ensures !isSending && lastSendTime == old(lastSendTime) && sendStarts == old(sendStarts)
      ensures clientSocket == old(clientSocket) && writer == old(writer) && isConnected == old(isConnected)
      ensures old(IsConnectionValid()) ==>
                tasks == old(tasks) && written == old(written) + [Message(angle, speed)]
      ensures !old(IsConnectionValid()) ==> tasks == old(tasks) + [ConnectTask] && written == old(written)
    {
      if !IsConnectionValid() {
        // connectionLock.wait(1000) cannot see this connect finish: it
        // runs on this same single worker, after the current task.
        ConnectToServer(true);
      }
      if writer.Some? {
        written := written + [Message(angle, speed)];
      }
      isSending := false;
    }

    // -------------------------------------------------------------------
    // A disconnect that reconnects

    /** A click on "disconnect" while connected and idle, followed by the
        executor running every task it is given, with the server still
        reachable: the disconnect task's closeConnection queues the stop as
        a send task, that task finds the socket gone and queues a connect,
        and the connect succeeds. The client ends up connected again. */
    method DisconnectClickReconnects(ipText: string, portText: string, now: int, later: int, reopenedAt: int)
      requires Valid() && isConnected && tasks == [] && !isSending
      requires now - lastSendTime >= ThrottleMillis
      modifies this
      ensures isConnected && IsConnectionValid()
      ensures written == old(written)
    {
      var outcome := HandleConnectClick(ipText, portText);
      assert tasks == [DisconnectTask];
      RunNextTask(now, false, 0);
      assert tasks == [SendTask(0, 0)];
      RunNextTask(later, false, 0);
      assert tasks == [ConnectTask];
      RunNextTask(later, true, reopenedAt);
    }

    /** closeConnection as its comment describes it: the stop line goes out
        on the open connection, then the writer and the socket are dropped.
        No task is queued. */
    method CloseConnectionStopFirst()
      requires Valid()
      modifies this`writer, this`clientSocket, this`written
      ensures Valid()
      ensures writer == None && clientSocket == None && !IsConnectionValid()
      ensures written == old(written) + if old(writer).Some? then [Message(0, 0)] else []
    {
      if writer.Some? {
        written := written + [Message(0, 0)];
        writer := None;
      }
      if clientSocket.Some? {
        clientSocket := None;
      }
    }

    /** The disconnect task with that close: the car is told to stop on the
        connection being closed, and the client stays disconnected because
        nothing is left queued that would reconnect it. */
    method RunDisconnectStopFirst()
      requires Valid()
      modifies this
      ensures Valid()
      ensures !isConnected && clientSocket == None && writer == None
      ensures Book() == old(Book())
      ensures serverIp == old(serverIp) && port == old(port) && keepAliveRunning == old(keepAliveRunning)
      ensures written == old(written) + if old(writer).Some? then [Message(0, 0)] else []
    {
      CloseConnectionStopFirst();
      UpdateConnectionStatus(false);
    }

    /** The same click with the disconnect task running that close: the stop
        line is written once on the connection being closed, and the client
        ends disconnected with nothing left queued. */
    method DisconnectClickStopFirst(ipText: string, portText: string)
      requires Valid() && isConnected && IsConnectionValid() && tasks == []
      modifies this
      ensures Valid()
      ensures !isConnected && !IsConnectionValid() && tasks == []
      ensures written == old(written) + [Message(0, 0)]
    {
      var outcome := HandleConnectClick(ipText, portText);
      assert tasks == [DisconnectTask] && SendTasks(tasks) == 0;
      tasks := tasks[1..];
      RunDisconnectStopFirst();
    }
  }
}
