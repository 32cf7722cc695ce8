/**
 * The Cumulus side of the GPS client protocol. A separate client process
 * talks to the receiver and connects back twice: channel 0 carries commands
 * and replies, channel 1 carries "data available" notifications. Every
 * message is framed as a 4-byte length (host byte order, taken here as
 * little-endian) followed by that many bytes.
 *
 * A channel is modelled by the bytes the client has sent that are not yet
 * read, and the messages written to it on the current connection. What the
 * operating system answers (accept, waitpid, access, vfork, the PATH
 * variable, the shutdown flag) is passed in.
 */
module GpsCon {
  import opened Text
  import opened Bits
  import Sentence

  /** Longest message readClientMessage accepts. */
  const MaxMessageLength := 256
  /** GET_MESSAGES requests one queryClient call may send. */
  const QueryLoops := 250
  /** ALIVE_TO, in milliseconds. */
  const AliveTimeout := 15000
  /** Seconds the destructor waits for the client to end. */
  const ShutdownWaits := 10

  /** The message keys of the client protocol; their text is not part of this model. */
  datatype Protocol = Protocol(
    getMessages: string, reply: string, negative: string, positive: string,
    notify: string, open: string, close: string, magic: string, version: string,
    connectionOn: string, connectionOff: string, dataAvailable: string,
    sendMessage: string, shutdown: string)

  /** The signals GpsCon emits, the messages it shows on the map, and its calls into the process. */
  datatype Event =
    | ConnectionOff
    | ConnectionOn
    | NewSentence(sentence: string)
    | UserMessage(text: string)
    | Terminate(pid: int)
    | ApplicationExit

  const InitFailed := "GPS initialization failed!"
  const ClientCrashed := "GPS daemon process crashed!"

  /** One client socket: open or not, the bytes waiting to be read, the messages written. */
  datatype Channel = Channel(open: bool, input: seq<Byte>, sent: seq<string>)

  /** What waitpid(pid, WNOHANG) returns, and whether errno is ECHILD. */
  datatype WaitResult = WaitResult(ret: int, noChild: bool)

  /** The parent's view of vfork(): a failure, or the new child's pid. */
  datatype ForkResult = ForkFailed | Forked(child: int)

  /** What the operating system answers during one supervision step. */
  datatype Host = Host(shutdown: bool, probe: WaitResult, pathVar: Option<string>, clientPath: string,
                       executables: set<string>, fork: ForkResult)

  /** The device and speed read from the configuration. */
  datatype GpsConfig = GpsConfig(device: string, ioSpeed: int)

  // ---------------------------------------------------------------------
  // Framing

  /** QString::toLatin1 on one character: `?` outside Latin-1. */
  function Latin1(c: char): Byte
  {
    if c as int < 256 then c as int else '?' as int
  }

  /** The bytes of msg.toLatin1().data() that strlen counts: those before the first NUL. */
  function CBytes(m: string): (r: seq<Byte>)
    ensures |r| <= |m|
    ensures forall i :: 0 <= i < |r| ==> r[i] != 0 && r[i] == Latin1(m[i])
    ensures |r| < |m| ==> Latin1(m[|r|]) == 0
  {
    if m == [] || Latin1(m[0]) == 0 then [] else [Latin1(m[0])] + CBytes(m[1..])
  }

  /** QString(buf) on a NUL-terminated buffer: the characters before the first NUL. */
  function FromCString(b: seq<Byte>): (r: string)
    ensures |r| <= |b|
    ensures forall i :: 0 <= i < |r| ==> r[i] as int == b[i] && b[i] != 0
    ensures |r| < |b| ==> b[|r|] == 0
  {
    if b == [] || b[0] == 0 then [] else [b[0] as char] + FromCString(b[1..])
  }

  /** A 4-byte unsigned integer, least significant byte first. */
  function LE32(b: seq<Byte>): nat
    requires |b| == 4
  {
    b[0] as int + 0x100 * (b[1] as int) + 0x1_0000 * (b[2] as int) + 0x100_0000 * (b[3] as int)
  }

  function LE32Bytes(n: nat): (r: seq<Byte>)
    requires n < 0x1_0000_0000
    ensures |r| == 4
  {
    [n % 0x100, n / 0x100 % 0x100, n / 0x1_0000 % 0x100, n / 0x100_0000]
  }

  /** The bytes writeClientMessage puts on the socket: strlen as a uint, then the string. */
  function EncodeFrame(m: string): (r: seq<Byte>)
    ensures |r| == 4 + |CBytes(m)|
  {
    var b := CBytes(m);
    LE32Bytes(|b| % 0x1_0000_0000) + b
  }

  function CloseChannel(c: Channel): Channel
  {
    c.(open := false, input := [])
  }

  /**
   * readClientMessage on one channel: the text read and the channel after.
   * A read that cannot get the bytes it asks for reports none, as does a
   * read of zero bytes; either closes the channel.
   */
  function ReadMessage(c: Channel): (string, Channel)
  {
    if !c.open then ("", c)
    else if |c.input| < 4 then ("", CloseChannel(c))
    else
      var len := LE32(c.input[..4]);
      var rest := c.input[4..];
      if len > MaxMessageLength then ("", c.(input := rest))
      else if len == 0 || |rest| < len then ("", CloseChannel(c))
      else (FromCString(rest[..len]), c.(input := rest[len..]))
  }

  /** writeClientMessage on one channel: a write to a closed socket fails and closes it again. */
  function WriteMessage(c: Channel, m: string): Channel
  {
    if c.open then c.(sent := c.sent + [m]) else c
  }

  // ---------------------------------------------------------------------
  // The connection's state

  datatype ConState = ConState(
    ch0: Channel, ch1: Channel, listening: bool, notifier: bool, timerRunning: bool,
    pid: int, childDead: bool, exe: string, device: string, ioSpeed: int,
    lastQuery: int, events: seq<Event>)

  function Write0(s: ConState, m: string): ConState
  {
    s.(ch0 := WriteMessage(s.ch0, m))
  }

  function Read0(s: ConState): (string, ConState)
  {
    var (m, c) := ReadMessage(s.ch0);
    (m, s.(ch0 := c))
  }

  function Read1(s: ConState): (string, ConState)
  {
    var (m, c) := ReadMessage(s.ch1);
    (m, s.(ch1 := c))
  }

  /** A request on channel 0 and the reply read after it. */
  function Ask(s: ConState, m: string): (string, ConState)
  {
    Read0(Write0(s, m))
  }

  function Emit(s: ConState, e: Event): ConState
  {
    s.(events := s.events + [e])
  }

  /** QString(format).arg(args[0]).arg(args[1])...: each argument fills the lowest escape left. */
  function Fill(format: string, args: seq<string>): string
    decreases |args|
  {
    if args == [] then format else Fill(Sentence.Arg(format, args[0]), args[1..])
  }

  /** QString("%1 %2").arg(a).arg(b) */
  function Pair(a: string, b: string): string
  {
    Fill("%1 %2", [a, b])
  }

  /** The protocol check sent after the second connection. */
  function Hello(p: Protocol): string
  {
    Pair(p.magic, p.version)
  }

  /** QString("%1 %2 %3").arg(MSG_OPEN).arg(device).arg(QString::number(ioSpeed)) */
  function OpenMessage(p: Protocol, cfg: GpsConfig): string
  {
    Fill("%1 %2 %3", [p.open, cfg.device, IntToString(cfg.ioSpeed)])
  }

  // ---------------------------------------------------------------------
  // queryClient

  datatype Outcome = More | NoMoreData | ChannelLost

  /** The event for a GET_MESSAGES reply once its key and the space after it are removed. */
  function ReplyEvent(p: Protocol, body: string): Event
  {
    if body == p.connectionOff then ConnectionOff
    else if body == p.connectionOn then ConnectionOn
    else NewSentence(body)
  }

  /** The reply without its key and the separating space (QString::right). */
  function ReplyBody(p: Protocol, msg: string): string
  {
    Right(msg, |msg| - |p.reply| - 1)
  }

  /** One pass of the poll loop: request, reply, and what the reply means. */
  function Round(p: Protocol, s: ConState): (ConState, Outcome)
  {
    var (msg, s1) := Ask(s, p.getMessages);
    if !s1.ch0.open then (s1, ChannelLost)
    else if StartsWith(msg, p.reply) then (Emit(s1, ReplyEvent(p, ReplyBody(p, msg))), More)
    else if StartsWith(msg, p.negative) then (s1, NoMoreData)
    else (s1, More)
  }

  /** The poll loop with `loops` passes left: the state it ends in, and whether channel 0 was lost. */
  function QueryEnd(p: Protocol, s: ConState, loops: nat): (ConState, bool)
    decreases loops, 1
  {
    if loops == 0 then (s, false) else QueryAfter(p, Round(p, s), loops)
  }

  /** The poll loop after a pass that ended in state `r.0` with outcome `r.1`. */
  function QueryAfter(p: Protocol, r: (ConState, Outcome), loops: nat): (ConState, bool)
    requires loops > 0
    decreases loops, 0
  {
    if r.1 == ChannelLost then (r.0, true)
    else if r.1 == NoMoreData then (r.0, false)
    else QueryEnd(p, r.0, loops - 1)
  }

  /** A pass that asks for more continues with one pass fewer; the other outcomes end the loop. */
  lemma QueryEndStep(p: Protocol, s: ConState, loops: nat)
    requires loops > 0
    ensures var (s1, o) := Round(p, s);
      QueryEnd(p, s, loops) ==
        if o == ChannelLost then (s1, true)
        else if o == NoMoreData then (s1, false)
        else QueryEnd(p, s1, loops - 1)
  {
  }

  /** Renewing the notification subscription and restarting lastQuery. */
  function Resubscribe(p: Protocol, s: ConState, now: int): ConState
  {
    Ask(s, p.notify).1.(lastQuery := now)
  }

  function QuerySpec(p: Protocol, s: ConState, now: int): ConState
  {
    if !s.ch0.open then s
    else
      var (r, lost) := QueryEnd(p, s, QueryLoops);
      if lost then r else Resubscribe(p, r, now)
  }

  // ---------------------------------------------------------------------
  // Receiving, listening, notifications

  function StartReceivingSpec(p: Protocol, s: ConState, cfg: GpsConfig, now: int): (ConState, bool)
  {
    if !s.ch0.open then (s, false)
    else OpenSpec(p, s.(device := cfg.device, ioSpeed := cfg.ioSpeed), cfg, now)
  }

  /** Opening the receiver, and on success subscribing to notifications. */
  function OpenSpec(p: Protocol, s: ConState, cfg: GpsConfig, now: int): (ConState, bool)
  {
    var (reply, s1) := Ask(s, OpenMessage(p, cfg));
    if reply == p.negative then (Emit(s1, UserMessage(InitFailed)), false)
    else (Ask(s1, p.notify).1.(lastQuery := now), true)
  }

  function StopReceivingSpec(p: Protocol, s: ConState): (ConState, bool)
  {
    if !s.ch0.open then (s, false)
    else
      var (reply, s1) := Ask(s, p.close);
      (s1, reply == p.positive)
  }

  function SendSentenceSpec(p: Protocol, s: ConState, sentence: string): ConState
  {
    if !s.ch0.open then s else Ask(s, Pair(p.sendMessage, sentence)).1
  }

  /**
   * slot_ListenEvent: the client connects; `accepted` is whether the
   * accept succeeded and `incoming` what the client will send on it.
   */
  function ListenSpec(p: Protocol, s: ConState, accepted: bool, incoming: seq<Byte>, cfg: GpsConfig, now: int): ConState
  {
    if !s.ch0.open then
      if accepted then s.(ch0 := Channel(true, incoming, [])) else s
    else if !s.ch1.open then
      if !accepted then s
      else
        var s1 := s.(ch1 := Channel(true, incoming, []), notifier := true);
        var (reply, s2) := Ask(s1, Hello(p));
        if reply == p.negative then s2
        else StartReceivingSpec(p, s2, cfg, now).0
    else s
  }

  function NotificationSpec(p: Protocol, s: ConState, now: int): ConState
  {
    var (msg, s1) := Read1(s);
    if msg != p.dataAvailable then s1 else QuerySpec(p, s1, now)
  }

  // ---------------------------------------------------------------------
  // Supervising the client process

  /** QFileInfo(exe).fileName(): what follows the last `/`. */
  function FileName(path: string): (r: string)
    ensures forall k :: 0 <= k < |r| ==> r[k] != '/'
  {
    var i := LastIndexOf(path, '/');
    path[i + 1..]
  }

  /** The directories searched: the configured path and PATH, only when PATH is set. */
  function SearchPaths(pathVar: Option<string>, clientPath: string): (r: seq<string>)
    ensures pathVar.None? ==> r == []
  {
    if pathVar.Some? then SplitSkipEmpty(clientPath + ":" + pathVar.value, {':'}) else []
  }

  /** QString("%1/%2").arg(dir).arg(name) */
  function Candidate(dir: string, name: string): string
  {
    Fill("%1/%2", [dir, name])
  }

  /** The first candidate that is executable, if any. */
  function FirstExecutable(paths: seq<string>, name: string, executables: set<string>): (r: Option<string>)
    ensures r.Some? ==> (r.value in executables
      && exists i :: 0 <= i < |paths| && r.value == Candidate(paths[i], name)
           && forall j :: 0 <= j < i ==> Candidate(paths[j], name) !in executables)
    ensures r.None? ==> forall i :: 0 <= i < |paths| ==> Candidate(paths[i], name) !in executables
  {
    if paths == [] then None
    else if Candidate(paths[0], name) in executables then
      var r := Some(Candidate(paths[0], name));
      assert r.value == Candidate(paths[0], name);
      r
    else
      var r := FirstExecutable(paths[1..], name, executables);
      if r.Some? then
        var i :| 0 <= i < |paths[1..]| && r.value == Candidate(paths[1..][i], name)
                 && forall j :: 0 <= j < i ==> Candidate(paths[1..][j], name) !in executables;
        assert r.value == Candidate(paths[i + 1], name);
        assert forall j :: 0 <= j < i + 1 ==> Candidate(paths[j], name) !in executables by {
          forall j | 0 <= j < i + 1
            ensures Candidate(paths[j], name) !in executables
          {
            if j > 0 {
              assert paths[j] == paths[1..][j - 1];
            }
          }
        }
        r
      else
        assert forall i :: 1 <= i < |paths| ==> paths[i] == paths[1..][i - 1];
        r
  }

  /** Closing a client socket that is open. */
  function CloseIfOpen(c: Channel): Channel
  {
    if c.open then CloseChannel(c) else c
  }

  /** startClientProcess: the new state and its result. */
  function StartClientSpec(s: ConState, startClient: bool, h: Host): (ConState, bool)
  {
    if h.shutdown then (s, false)
    else
      var s1 := s.(timerRunning := true);
      if !startClient then (s1, false)
      else if s1.pid != -1 && h.probe.ret == 0 then (s1.(childDead := false), true)
      else
        var crashed := s1.pid != -1 && h.probe.ret == s1.pid;
        LaunchSpec(ResetClient(if crashed then Emit(s1, UserMessage(ClientCrashed)) else s1), h)
  }

  /** Forgetting the old client: no pid, both sockets closed, no notifier. */
  function ResetClient(s: ConState): ConState
  {
    s.(pid := -1, childDead := false, ch0 := CloseIfOpen(s.ch0), ch1 := CloseIfOpen(s.ch1), notifier := false)
  }

  /** Finding the client executable and forking it. */
  function LaunchSpec(s1: ConState, h: Host): (ConState, bool)
  {
    var found := FirstExecutable(SearchPaths(h.pathVar, h.clientPath), FileName(s1.exe), h.executables);
    var s2 := if found.Some? then s1.(exe := found.value) else s1;
    if found.None? && s2.exe !in h.executables then (s2, false)
    else if h.fork.ForkFailed? then (s2, false)
    else (s2.(pid := h.fork.child), true)
  }

  /** slot_Timeout, the alive check. */
  function TimeoutSpec(p: Protocol, s: ConState, startClient: bool, h: Host, simulator: bool, now: int): ConState
  {
    if h.shutdown then
      Emit(s.(listening := false, ch0 := CloseIfOpen(s.ch0), ch1 := CloseIfOpen(s.ch1), timerRunning := false),
           ApplicationExit)
    else
      var (s1, alive) := StartClientSpec(s, startClient, h);
      if !alive then s1
      else if !simulator && now - s1.lastQuery > AliveTimeout then QuerySpec(p, s1, now)
      else s1
  }

  /** The destructor up to the wait: shutdown message, sockets closed, SIGTERM to the client. */
  function DestroySpec(p: Protocol, s: ConState): ConState
  {
    var s1 := if s.ch0.open then Write0(s, p.shutdown) else s;
    var s2 := s1.(timerRunning := false, listening := false, ch0 := CloseIfOpen(s1.ch0), ch1 := CloseIfOpen(s1.ch1));
    if s.pid != -1 then Emit(s2, Terminate(s.pid)) else s2
  }

  /** Whether a waitpid answer means the client is gone. */
  predicate Reaped(w: WaitResult, pid: int)
  {
    w.ret == pid || (w.ret == -1 && w.noChild)
  }

  /** The answer of the i-th waitpid call; calls past the given answers see a running child. */
  function WaitAt(waits: seq<WaitResult>, i: nat): WaitResult
  {
    if i < |waits| then waits[i] else WaitResult(0, false)
  }

  // ---------------------------------------------------------------------
  // The object

  class GpsConnection {
    const protocol: Protocol
    /** The start client option read in the constructor. */
    const startClient: bool
    var ch0: Channel
    var ch1: Channel
    var listening: bool
    /** Whether clientNotifier exists. */
    var notifier: bool
    var timerRunning: bool
    var pid: int
    /** The global childDeadState. */
    var childDead: bool
    var exe: string
    var device: string
    var ioSpeed: int
    /** When lastQuery was last started. */
    var lastQuery: int
    var events: seq<Event>

    ghost function State(): ConState
      reads this
    {
      ConState(ch0, ch1, listening, notifier, timerRunning, pid, childDead, exe, device, ioSpeed, lastQuery, events)
    }

    /** The client binary is pathIn/gpsClient; the listening socket is up when the server initialised. */
    constructor (p: Protocol, pathIn: string, cfg: GpsConfig, serverUp: bool, startClientOption: bool)
      ensures protocol == p && startClient == startClientOption
      ensures State() == ConState(Channel(false, [], []), Channel(false, [], []), serverUp, false, false,
                                  -1, false, Candidate(pathIn, "gpsClient"), cfg.device, cfg.ioSpeed, 0, [])
    {
      protocol := p;
      startClient := startClientOption;
      exe := Candidate(pathIn, "gpsClient");
      pid := -1;
      device := cfg.device;
      ioSpeed := cfg.ioSpeed;
      notifier := false;
      ch0 := Channel(false, [], []);
      ch1 := Channel(false, [], []);
      listening := serverUp;
      timerRunning := false;
      childDead := false;
      lastQuery := 0;
      events := [];
    }

    method ReadClientMessage(index: nat) returns (result: string)
      requires index < 2
      modifies this
      ensures index == 0 ==> (result, State()) == Read0(old(State()))
      ensures index == 1 ==> (result, State()) == Read1(old(State()))
    {
      var c := if index == 0 then ch0 else ch1;
      result := "";
      if !c.open {
        return;
      }
      if |c.input| < 4 {
        c := CloseChannel(c);
      } else {
        var msgLen := LE32(c.input[..4]);
        c := c.(input := c.input[4..]);
        if msgLen <= MaxMessageLength {
          if msgLen == 0 || |c.input| < msgLen {
            c := CloseChannel(c);
          } else {
            result := FromCString(c.input[..msgLen]);
            c := c.(input := c.input[msgLen..]);
          }
        }
      }
      if index == 0 {
        ch0 := c;
      } else {
        ch1 := c;
      }
    }

    method WriteClientMessage(msg: string)
      modifies this
      ensures State() == Write0(old(State()), msg)
    {
      if ch0.open {
        ch0 := ch0.(sent := ch0.sent + [msg]);
      }
    }

    /** A request on channel 0 followed by reading the reply. */
    method Exchange(msg: string) returns (reply: string)
      modifies this
      ensures (reply, State()) == Ask(old(State()), msg)
    {
      WriteClientMessage(msg);
      reply := ReadClientMessage(0);
    }

    method QueryClient(now: int)
      modifies this
      ensures State() == QuerySpec(protocol, old(State()), now)
    {
      if !ch0.open {
        return;
      }
      var lost := PollMessages();
      if lost {
        return;
      }
      var _ := Exchange(protocol.notify);
      lastQuery := now;
    }

    /** queryClient's loop: at most QueryLoops passes; whether the channel was lost on the way. */
    method PollMessages() returns (lost: bool)
      modifies this
      ensures (State(), lost) == QueryEnd(protocol, old(State()), QueryLoops)
    {
      ghost var target := QueryEnd(protocol, State(), QueryLoops);
      var loops: nat := QueryLoops;
      while loops > 0
        invariant QueryEnd(protocol, State(), loops) == target
      {
        ghost var before := State();
        var outcome := PollOnce();
        assert QueryEnd(protocol, before, loops) == QueryAfter(protocol, (State(), outcome), loops);
        if outcome == ChannelLost {
          return true;
        }
        if outcome == NoMoreData {
          return false;
        }
        loops := loops - 1;
      }
      return false;
    }

    /** One pass of the queryClient loop: GET_MESSAGES, its reply, and the signal the reply raises. */
    method PollOnce() returns (outcome: Outcome)
      modifies this
      ensures (State(), outcome) == Round(protocol, old(State()))
    {
      var msg := Exchange(protocol.getMessages);
      if !ch0.open {
        return ChannelLost;
      }
      if StartsWith(msg, protocol.reply) {
        msg := ReplyBody(protocol, msg);
        events := events + [ReplyEvent(protocol, msg)];
        return More;
      }
      if StartsWith(msg, protocol.negative) {
        return NoMoreData;
      }
      return More;
    }

    method StartGpsReceiving(cfg: GpsConfig, now: int) returns (ok: bool)
      modifies this
      ensures (State(), ok) == StartReceivingSpec(protocol, old(State()), cfg, now)
    {
      if !ch0.open {
        return false;
      }
      device := cfg.device;
      ioSpeed := cfg.ioSpeed;
      ok := OpenReceiver(cfg, now);
    }

    method OpenReceiver(cfg: GpsConfig, now: int) returns (ok: bool)
      modifies this
      ensures (State(), ok) == OpenSpec(protocol, old(State()), cfg, now)
    {
      var msg := Exchange(OpenMessage(protocol, cfg));
      if msg == protocol.negative {
        events := events + [UserMessage(InitFailed)];
        return false;
      }
      msg := Exchange(protocol.notify);
      lastQuery := now;
      return true;
    }

    method StopGpsReceiving() returns (ok: bool)
      modifies this
      ensures (State(), ok) == StopReceivingSpec(protocol, old(State()))
    {
      if !ch0.open {
        return false;
      }
      var msg := Exchange(protocol.close);
      return msg == protocol.positive;
    }

    method SendSentence(sentence: string)
      modifies this
      ensures State() == SendSentenceSpec(protocol, old(State()), sentence)
    {
      if !ch0.open {
        return;
      }
      var _ := Exchange(Pair(protocol.sendMessage, sentence));
    }

    method SlotListenEvent(accepted: bool, incoming: seq<Byte>, cfg: GpsConfig, now: int)
      modifies this
      ensures State() == ListenSpec(protocol, old(State()), accepted, incoming, cfg, now)
    {
      if !ch0.open {
        if accepted {
          ch0 := Channel(true, incoming, []);
        }
        return;
      }
      if !ch1.open {
        if !accepted {
          return;
        }
        ch1 := Channel(true, incoming, []);
        notifier := true;
        var msg := Exchange(Hello(protocol));
        if msg == protocol.negative {
          return;
        }
        var _ := StartGpsReceiving(cfg, now);
        return;
      }
    }

    method SlotNotificationEvent(now: int)
      modifies this
      ensures State() == NotificationSpec(protocol, old(State()), now)
    {
      var msg := ReadClientMessage(1);
      if msg == protocol.dataAvailable {
        QueryClient(now);
      }
    }

    method StartClientProcess(h: Host) returns (ok: bool)
      modifies this
      ensures (State(), ok) == StartClientSpec(old(State()), startClient, h)
    {
      if h.shutdown {
        return false;
      }
      timerRunning := true;
      if !startClient {
        return false;
      }
      if pid != -1 {
        if h.probe.ret == 0 {
          childDead := false;
          return true;
        }
        if h.probe.ret == pid {
          events := events + [UserMessage(ClientCrashed)];
        }
      }
      ForgetClient();
      ok := Launch(h);
    }

    method ForgetClient()
      modifies this
      ensures State() == ResetClient(old(State()))
    {
      pid := -1;
      childDead := false;
      if ch0.open {
        ch0 := CloseChannel(ch0);
      }
      if ch1.open {
        ch1 := CloseChannel(ch1);
      }
      notifier := false;
    }

    method Launch(h: Host) returns (ok: bool)
      modifies this
      ensures (State(), ok) == LaunchSpec(old(State()), h)
    {
      var paths := SearchPaths(h.pathVar, h.clientPath);
      var found, testExe := SearchExecutable(paths, FileName(exe), h.executables);
      if found {
        exe := testExe;
      }
      if !found && exe !in h.executables {
        return false;
      }
      if h.fork.ForkFailed? {
        return false;
      }
      pid := h.fork.child;
      return true;
    }

    method SlotTimeout(h: Host, simulator: bool, now: int)
      modifies this
      ensures State() == TimeoutSpec(protocol, old(State()), startClient, h, simulator, now)
    {
      if h.shutdown {
        listening := false;
        ch0 := CloseIfOpen(ch0);
        ch1 := CloseIfOpen(ch1);
        timerRunning := false;
        events := events + [ApplicationExit];
        return;
      }
      var alive := StartClientProcess(h);
      if !alive {
        return;
      }
      if !simulator && now - lastQuery > AliveTimeout {
        QueryClient(now);
      }
    }

    /** ~GpsCon: shut the client down, then wait up to ten times for it to end. */
    method Destroy(waits: seq<WaitResult>) returns (reaped: bool)
      modifies this
      ensures State() == DestroySpec(protocol, old(State()))
      ensures reaped <==> exists i :: 0 <= i < ShutdownWaits && Reaped(WaitAt(waits, i), old(pid))
    {
      var child := pid;
      if ch0.open {
        WriteClientMessage(protocol.shutdown);
      }
      timerRunning := false;
      listening := false;
      ch0 := CloseIfOpen(ch0);
      ch1 := CloseIfOpen(ch1);
      if child != -1 {
        events := events + [Terminate(child)];
      }
      reaped := WaitForChild(waits, child);
    }
  }

  /** The executable search loop of startClientProcess. */
  method SearchExecutable(paths: seq<string>, fileName: string, executables: set<string>)
    returns (found: bool, exe: string)
    ensures found <==> FirstExecutable(paths, fileName, executables).Some?
    ensures found ==> exe == FirstExecutable(paths, fileName, executables).value
  {
    found := false;
    exe := "";
    var i := 0;
    while i < |paths|
      invariant 0 <= i <= |paths|
      invariant FirstExecutable(paths, fileName, executables) == FirstExecutable(paths[i..], fileName, executables)
    {
      var testExe := Candidate(paths[i], fileName);
      assert paths[i..][1..] == paths[i + 1..];
      if testExe in executables {
        found := true;
        exe := testExe;
        return;
      }
      i := i + 1;
    }
  }

  /** The wait loop of the destructor: up to ten waitpid calls until one reports the child gone. */
  method WaitForChild(waits: seq<WaitResult>, child: int) returns (result: bool)
    ensures result <==> exists i :: 0 <= i < ShutdownWaits && Reaped(WaitAt(waits, i), child)
  {
    var time := ShutdownWaits;
    result := false;
    while time > 0
      invariant 0 <= time <= ShutdownWaits
      invariant forall i :: 0 <= i < ShutdownWaits - time ==> !Reaped(WaitAt(waits, i), child)
    {
      var w := WaitAt(waits, ShutdownWaits - time);
      if w.ret == child || (w.ret == -1 && w.noChild) {
        result := true;
        break;
      }
      time := time - 1;
    }
  }
}
