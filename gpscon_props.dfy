/**
 * Properties of the GPS client protocol: the framing round trip, the bounds
 * of the poll loop, the order of the two connections, and how the client
 * process is restarted.
 */
module GpsConProperties {
  import opened Text
  import opened Bits
  import Sentence
  import opened GpsCon

  // ---------------------------------------------------------------------
  // Framing

  /** A message that survives the trip: 1 to 256 characters, none NUL, all Latin-1. */
  predicate PlainMessage(m: string)
  {
    1 <= |m| <= MaxMessageLength && forall i :: 0 <= i < |m| ==> 0 < m[i] as int < 256
  }

  lemma LengthRoundTrip(n: nat)
    requires n < 0x1_0000_0000
    ensures LE32(LE32Bytes(n)) == n
  {
    var q1 := n / 0x100;
    var q2 := q1 / 0x100;
    var q3 := q2 / 0x100;
    var r0, r1, r2 := n % 0x100, q1 % 0x100, q2 % 0x100;
    assert n == r0 + 0x100 * r1 + 0x1_0000 * r2 + 0x100_0000 * q3;
    DivUnique(n, 0x1_0000, q2, r0 + 0x100 * r1);
    DivUnique(n, 0x100_0000, q3, r0 + 0x100 * r1 + 0x1_0000 * r2);
  }

  /** Latin-1 text without NUL comes back unchanged from its C string. */
  lemma {:induction false} CStringRoundTrip(m: string)
    requires forall i :: 0 <= i < |m| ==> 0 < m[i] as int < 256
    ensures CBytes(m) == seq(|m|, i requires 0 <= i < |m| => m[i] as int)
    ensures FromCString(CBytes(m)) == m
  {
    if m != [] {
      CStringRoundTrip(m[1..]);
    }
  }

  /** A header holding the payload's length, then the payload: the read returns its C string and consumes both. */
  lemma ReadFrame(h: seq<Byte>, b: seq<Byte>, rest: seq<Byte>, sent: seq<string>)
    requires |h| == 4 && LE32(h) == |b| && 1 <= |b| <= MaxMessageLength
    ensures ReadMessage(Channel(true, h + b + rest, sent)) == (FromCString(b), Channel(true, rest, sent))
  {
    FrameSlices(h, b + rest);
    ReadParts(Channel(true, h + (b + rest), sent), b, rest);
    assert h + b + rest == h + (b + rest);
  }

  lemma FrameSlices(h: seq<Byte>, t: seq<Byte>)
    requires |h| == 4
    ensures (h + t)[..4] == h && (h + t)[4..] == t
  {
  }

  lemma ReadParts(c: Channel, b: seq<Byte>, rest: seq<Byte>)
    requires c.open && |c.input| >= 4 && c.input[4..] == b + rest
    requires LE32(c.input[..4]) == |b| && 1 <= |b| <= MaxMessageLength
    ensures ReadMessage(c) == (FromCString(b), c.(input := rest))
  {
    assert (b + rest)[..|b|] == b;
    assert (b + rest)[|b|..] == rest;
  }

  /** Reading the frame writeClientMessage produces gives back the message and consumes exactly that frame. */
  lemma MessageRoundTrip(m: string, rest: seq<Byte>, sent: seq<string>)
    requires PlainMessage(m)
    ensures ReadMessage(Channel(true, EncodeFrame(m) + rest, sent)) == (m, Channel(true, rest, sent))
  {
    CStringRoundTrip(m);
    var b := CBytes(m);
    assert EncodeFrame(m) == LE32Bytes(|b|) + b;
    LengthRoundTrip(|b|);
    ReadFrame(LE32Bytes(|b|), b, rest, sent);
  }

  /**
   * Every read leaves the written messages alone, reports at most 256
   * characters, and either closes the channel or consumes at least a
   * header from the front of the input.
   */
  lemma ReadConsumesPrefix(c: Channel)
    ensures var (m, d) := ReadMessage(c);
      d.sent == c.sent && |m| <= MaxMessageLength
      && (d.open ==> c.open && |d.input| <= |c.input| - 4 && d.input == c.input[|c.input| - |d.input|..])
      && (!d.open ==> d.input == [] || d == c)
  {
  }

  /** A header announcing more than 256 bytes: nothing is reported, the header is consumed, the payload stays unread and the channel open. */
  lemma OversizeFrameSkipped(c: Channel)
    requires c.open && |c.input| >= 4 && LE32(c.input[..4]) > MaxMessageLength
    ensures ReadMessage(c) == ("", c.(input := c.input[4..]))
    ensures ReadMessage(c).1.open
  {
  }

  /** A header or payload that cannot be read in full (or an empty payload) gives "" and closes the channel. */
  lemma FailedReadCloses(c: Channel)
    requires c.open
    requires |c.input| < 4
      || (LE32(c.input[..4]) <= MaxMessageLength && (LE32(c.input[..4]) == 0 || |c.input| - 4 < LE32(c.input[..4])))
    ensures ReadMessage(c) == ("", CloseChannel(c))
    ensures !ReadMessage(c).1.open && ReadMessage(c).1.input == [] && ReadMessage(c).1.sent == c.sent
  {
  }

  /** A request whose reply is a plain message: the request is logged and the reply's frame consumed. */
  lemma AskReply(s: ConState, q: string, m: string, rest: seq<Byte>)
    requires s.ch0.open && s.ch0.input == EncodeFrame(m) + rest && PlainMessage(m)
    ensures Ask(s, q) == (m, s.(ch0 := Channel(true, rest, s.ch0.sent + [q])))
  {
    MessageRoundTrip(m, rest, s.ch0.sent + [q]);
  }

  // ---------------------------------------------------------------------
  // Messages

  /** The two-part messages read as the keys separated by a space when the first part holds no `%`. */
  lemma PairText(a: string, b: string)
    requires '%' !in a
    ensures Pair(a, b) == a + " " + b
  {
    var t := "%1 %2";
    assert Sentence.EscapeAt(t) == Some(Sentence.Escape(1, 2));
    assert t[2..] == " %2";
    assert Sentence.EscapeAt(" %2") == None;
    assert " %2"[1..] == "%2";
    assert Sentence.EscapeAt("%2") == Some(Sentence.Escape(2, 2));
    assert "%2"[2..] == [];
    assert Sentence.Arg(t, a) == a + " %2";
    Sentence.ArgSkipsPlainText(a + " ", "%2", 2, b);
    assert a + " %2" == (a + " ") + "%2";
    assert Fill(Sentence.Arg(t, a), [b]) == Sentence.Arg(a + " %2", b);
  }

  /** The candidate path is the directory, a slash and the file name when the directory holds no `%`. */
  lemma CandidateText(dir: string, name: string)
    requires '%' !in dir
    ensures Candidate(dir, name) == dir + "/" + name
  {
    var t := "%1/%2";
    assert Sentence.EscapeAt(t) == Some(Sentence.Escape(1, 2));
    assert t[2..] == "/%2";
    assert Sentence.EscapeAt("/%2") == None;
    assert "/%2"[1..] == "%2";
    assert Sentence.EscapeAt("%2") == Some(Sentence.Escape(2, 2));
    assert "%2"[2..] == [];
    assert Sentence.Arg(t, dir) == dir + "/%2";
    Sentence.ArgSkipsPlainText(dir + "/", "%2", 2, name);
    assert dir + "/%2" == (dir + "/") + "%2";
    assert Fill(Sentence.Arg(t, dir), [name]) == Sentence.Arg(dir + "/%2", name);
  }

  /** A GET_MESSAGES reply loses its key and the space after it; a bare key comes back whole. */
  lemma ReplyBodyStripped(p: Protocol, body: string)
    ensures ReplyBody(p, p.reply + " " + body) == body
    ensures ReplyBody(p, p.reply) == p.reply
  {
    var msg := p.reply + " " + body;
    assert msg[|msg| - |body|..] == body;
  }

  // ---------------------------------------------------------------------
  // queryClient

  function Repeat(m: string, k: nat): (r: seq<string>)
    ensures |r| == k && forall i :: 0 <= i < k ==> r[i] == m
  {
    if k == 0 then [] else Repeat(m, k - 1) + [m]
  }

  /** A poll pass sends one request, may raise one event, and changes nothing but channel 0 and the events. */
  lemma RoundFrame(p: Protocol, s: ConState)
    ensures var (r, o) := Round(p, s);
      r == s.(ch0 := r.ch0, events := r.events)
      && (s.ch0.open ==> r.ch0.sent == s.ch0.sent + [p.getMessages])
      && (!s.ch0.open ==> r.ch0 == s.ch0)
      && (o == ChannelLost <==> !r.ch0.open)
      && (exists e: seq<Event> :: |e| <= 1 && r.events == s.events + e)
  {
    var (msg, s1) := Ask(s, p.getMessages);
    if !s1.ch0.open {
      assert s.events == s.events + [];
    } else if StartsWith(msg, p.reply) {
    } else {
      assert s.events == s.events + [];
    }
  }

  /** What one poll pass writes: the request on an open channel, nothing on a closed one. */
  lemma RoundSent(p: Protocol, s: ConState)
    ensures s.ch0.open ==> Round(p, s).0.ch0.sent == s.ch0.sent + [p.getMessages]
    ensures !s.ch0.open ==> Round(p, s).1 == ChannelLost && Round(p, s).0.ch0 == s.ch0
  {
  }

  /** The poll loop changes nothing but channel 0 and the events, and reports channel 0 lost exactly when it is closed. */
  lemma {:induction false} QueryFrame(p: Protocol, s: ConState, n: nat)
    requires n > 0
    ensures var (r, lost) := QueryEnd(p, s, n);
      r == s.(ch0 := r.ch0, events := r.events) && (lost <==> !r.ch0.open)
    decreases n
  {
    RoundFrame(p, s);
    var (s1, o) := Round(p, s);
    if o == More && n > 1 {
      QueryFrame(p, s1, n - 1);
    }
  }

  /** The poll loop with n passes left sends between one and n requests on an open channel, none on a closed one. */
  lemma {:induction false} QueryRequests(p: Protocol, s: ConState, n: nat)
    requires n > 0
    ensures exists k :: (s.ch0.open ==> 1 <= k <= n) && (!s.ch0.open ==> k == 0)
                        && QueryEnd(p, s, n).0.ch0.sent == s.ch0.sent + Repeat(p.getMessages, k)
    decreases n, 1
  {
    RoundSent(p, s);
    if !s.ch0.open {
      assert QueryEnd(p, s, n).0.ch0.sent == s.ch0.sent + Repeat(p.getMessages, 0);
    } else if Round(p, s).1 != More || n == 1 {
      assert QueryEnd(p, s, n).0.ch0.sent == s.ch0.sent + Repeat(p.getMessages, 1);
    } else {
      QueryRequestsMore(p, s, n);
    }
  }

  /** The recursive case: a pass that asks for more adds its request to those of the passes after it. */
  lemma {:induction false} QueryRequestsMore(p: Protocol, s: ConState, n: nat)
    requires n > 1 && s.ch0.open && Round(p, s).1 == More
    ensures exists k :: 1 <= k <= n && QueryEnd(p, s, n).0.ch0.sent == s.ch0.sent + Repeat(p.getMessages, k)
    decreases n, 0
  {
    var s1 := Round(p, s).0;
    RoundSent(p, s);
    QueryEndStep(p, s, n);
    QueryRequests(p, s1, n - 1);
    var r := QueryEnd(p, s1, n - 1).0;
    var k :| 1 <= k <= n - 1 && r.ch0.sent == s1.ch0.sent + Repeat(p.getMessages, k);
    RepeatCons(p.getMessages, k);
    assert r.ch0.sent == s.ch0.sent + Repeat(p.getMessages, k + 1);
  }

  lemma RepeatCons(m: string, k: nat)
    ensures Repeat(m, k + 1) == [m] + Repeat(m, k)
  {
    assert forall i :: 0 <= i < k + 1 ==> Repeat(m, k + 1)[i] == ([m] + Repeat(m, k))[i];
  }

  /**
   * queryClient on an open channel sends at most 250 GET_MESSAGES
   * requests; when channel 0 survives it then renews the notification
   * and restarts lastQuery, and when it is lost it does neither.
   */
  lemma QueryClientSends(p: Protocol, s: ConState, now: int)
    requires s.ch0.open
    ensures var (e, lost) := QueryEnd(p, s, QueryLoops);
      var r := QuerySpec(p, s, now);
      (exists k :: 1 <= k <= QueryLoops && e.ch0.sent == s.ch0.sent + Repeat(p.getMessages, k))
      && (lost ==> r == e && !r.ch0.open && r.lastQuery == s.lastQuery)
      && (!lost ==> r.ch0.sent == e.ch0.sent + [p.notify] && r.lastQuery == now)
  {
    QueryFrame(p, s, QueryLoops);
    QueryRequests(p, s, QueryLoops);
  }

  /** A reply that does not start with GET_MESSAGES' reply key but with the negative key ends the loop after one request. */
  lemma NegativeEndsQuery(p: Protocol, s: ConState, n: nat, rest: seq<Byte>)
    requires n > 0 && s.ch0.open && s.ch0.input == EncodeFrame(p.negative) + rest && PlainMessage(p.negative)
    requires !StartsWith(p.negative, p.reply)
    ensures QueryEnd(p, s, n) == (s.(ch0 := Channel(true, rest, s.ch0.sent + [p.getMessages])), false)
  {
    AskReply(s, p.getMessages, p.negative, rest);
  }

  /** A reply carrying the reply key, a space and a body raises the body's event and asks again. */
  lemma ReplyRaisesEvent(p: Protocol, s: ConState, body: string, rest: seq<Byte>)
    requires s.ch0.open && PlainMessage(p.reply + " " + body)
    requires s.ch0.input == EncodeFrame(p.reply + " " + body) + rest
    ensures Round(p, s) == (s.(ch0 := Channel(true, rest, s.ch0.sent + [p.getMessages]),
                               events := s.events + [ReplyEvent(p, body)]), More)
  {
    AskReply(s, p.getMessages, p.reply + " " + body, rest);
    ReplyBodyStripped(p, body);
  }

  // ---------------------------------------------------------------------
  // Connections

  /** `b` continues `a`. */
  predicate Extends(a: seq<string>, b: seq<string>)
  {
    |a| <= |b| && b[..|a|] == a
  }

  lemma AskExtends(s: ConState, q: string)
    ensures Ask(s, q).1.ch0.sent == s.ch0.sent + (if s.ch0.open then [q] else [])
    ensures Ask(s, q).1.ch1 == s.ch1
  {
  }

  /** Starting the receiver writes only on channel 0, after what was written before. */
  lemma StartReceivingExtends(p: Protocol, s: ConState, cfg: GpsConfig, now: int)
    ensures var r := StartReceivingSpec(p, s, cfg, now).0;
      Extends(s.ch0.sent, r.ch0.sent) && r.ch1 == s.ch1
      && (s.ch0.open ==> Extends(s.ch0.sent + [OpenMessage(p, cfg)], r.ch0.sent))
  {
    if s.ch0.open {
      var s1 := s.(device := cfg.device, ioSpeed := cfg.ioSpeed);
      AskExtends(s1, OpenMessage(p, cfg));
      var s2 := Ask(s1, OpenMessage(p, cfg)).1;
      AskExtends(s2, p.notify);
    }
  }

  /**
   * Connections are taken in order: the first becomes channel 0 and
   * nothing is written to it; the second becomes channel 1 and the
   * protocol check is the next message on channel 0; a third changes
   * nothing.
   */
  lemma ListenOrder(p: Protocol, s: ConState, incoming: seq<Byte>, cfg: GpsConfig, now: int)
    ensures var r := ListenSpec(p, s, true, incoming, cfg, now);
      (!s.ch0.open ==> r == s.(ch0 := Channel(true, incoming, [])))
      && (s.ch0.open && !s.ch1.open ==>
            r.ch1 == Channel(true, incoming, []) && r.notifier
            && Extends(s.ch0.sent + [Hello(p)], r.ch0.sent))
      && (s.ch0.open && s.ch1.open ==> r == s)
  {
    if s.ch0.open && !s.ch1.open {
      var s1 := s.(ch1 := Channel(true, incoming, []), notifier := true);
      AskExtends(s1, Hello(p));
      var (reply, s2) := Ask(s1, Hello(p));
      if reply != p.negative {
        StartReceivingExtends(p, s2, cfg, now);
      }
    }
  }

  /** A failed accept leaves everything as it was. */
  lemma ListenRefused(p: Protocol, s: ConState, incoming: seq<Byte>, cfg: GpsConfig, now: int)
    ensures ListenSpec(p, s, false, incoming, cfg, now) == s
  {
  }

  /** A negative answer to the protocol check ends the handshake: only the check was written and the receiver is not opened. */
  lemma HandshakeRejected(p: Protocol, s: ConState, rest: seq<Byte>, incoming: seq<Byte>, cfg: GpsConfig, now: int)
    requires s.ch0.open && !s.ch1.open && s.ch0.input == EncodeFrame(p.negative) + rest && PlainMessage(p.negative)
    ensures ListenSpec(p, s, true, incoming, cfg, now)
            == s.(ch0 := Channel(true, rest, s.ch0.sent + [Hello(p)]), ch1 := Channel(true, incoming, []),
                  notifier := true)
  {
    AskReply(s.(ch1 := Channel(true, incoming, []), notifier := true), Hello(p), p.negative, rest);
  }

  /** A negative answer to OPEN reports the failure and does not subscribe to notifications. */
  lemma StartReceivingRejected(p: Protocol, s: ConState, cfg: GpsConfig, now: int, rest: seq<Byte>)
    requires s.ch0.open && s.ch0.input == EncodeFrame(p.negative) + rest && PlainMessage(p.negative)
    ensures StartReceivingSpec(p, s, cfg, now)
            == (s.(device := cfg.device, ioSpeed := cfg.ioSpeed,
                   ch0 := Channel(true, rest, s.ch0.sent + [OpenMessage(p, cfg)]),
                   events := s.events + [UserMessage(InitFailed)]), false)
  {
    AskReply(s.(device := cfg.device, ioSpeed := cfg.ioSpeed), OpenMessage(p, cfg), p.negative, rest);
  }

  /** Any other answer to OPEN is followed by the notification request, and lastQuery restarts. */
  lemma StartReceivingAccepted(p: Protocol, s: ConState, cfg: GpsConfig, now: int, reply: string, rest: seq<Byte>)
    requires s.ch0.open && s.ch0.input == EncodeFrame(reply) + rest && PlainMessage(reply) && reply != p.negative
    ensures var (r, ok) := StartReceivingSpec(p, s, cfg, now);
      ok && r.ch0.sent == s.ch0.sent + [OpenMessage(p, cfg), p.notify] && r.lastQuery == now
      && r.events == s.events && r.device == cfg.device && r.ioSpeed == cfg.ioSpeed
  {
    var s1 := s.(device := cfg.device, ioSpeed := cfg.ioSpeed);
    AskReply(s1, OpenMessage(p, cfg), reply, rest);
    var s2 := s1.(ch0 := Channel(true, rest, s.ch0.sent + [OpenMessage(p, cfg)]));
    AskExtends(s2, p.notify);
  }

  /** When channel 0 drops while the answer to OPEN is read, the start is still reported as a success. */
  lemma StartReceivingLostReply(p: Protocol, s: ConState, cfg: GpsConfig, now: int)
    requires s.ch0.open && |s.ch0.input| < 4 && p.negative != []
    ensures var (r, ok) := StartReceivingSpec(p, s, cfg, now);
      ok && !r.ch0.open && r.ch0.sent == s.ch0.sent + [OpenMessage(p, cfg)]
  {
  }

  /** stopGpsReceiving succeeds exactly when the client answers with the positive key. */
  lemma StopReceivingReply(p: Protocol, s: ConState, reply: string, rest: seq<Byte>)
    requires s.ch0.open && s.ch0.input == EncodeFrame(reply) + rest && PlainMessage(reply)
    ensures StopReceivingSpec(p, s) == (s.(ch0 := Channel(true, rest, s.ch0.sent + [p.close])), reply == p.positive)
  {
    AskReply(s, p.close, reply, rest);
  }

  /** A sentence goes to the client as the send key, a space and the sentence; only channel 0 changes. */
  lemma SendSentenceWrites(p: Protocol, s: ConState, sentence: string)
    requires s.ch0.open && '%' !in p.sendMessage
    ensures var r := SendSentenceSpec(p, s, sentence);
      r == s.(ch0 := r.ch0) && r.ch0.sent == s.ch0.sent + [p.sendMessage + " " + sentence]
  {
    PairText(p.sendMessage, sentence);
  }

  /** A "data available" notification starts a poll; any other notification only consumes its frame. */
  lemma NotificationQueries(p: Protocol, s: ConState, now: int, m: string, rest: seq<Byte>)
    requires s.ch1.open && s.ch1.input == EncodeFrame(m) + rest && PlainMessage(m)
    ensures m == p.dataAvailable ==>
              NotificationSpec(p, s, now) == QuerySpec(p, s.(ch1 := Channel(true, rest, s.ch1.sent)), now)
    ensures m != p.dataAvailable ==> NotificationSpec(p, s, now) == s.(ch1 := Channel(true, rest, s.ch1.sent))
  {
    MessageRoundTrip(m, rest, s.ch1.sent);
  }

  // ---------------------------------------------------------------------
  // The client process

  /** A child that waitpid reports running is kept; only the timer and the dead flag are touched. */
  lemma StartClientKeepsLiveChild(s: ConState, h: Host)
    requires !h.shutdown && s.pid != -1 && h.probe.ret == 0
    ensures StartClientSpec(s, true, h) == (s.(timerRunning := true, childDead := false), true)
  {
  }

  /** During shutdown, or with the start client option off, no client is started. */
  lemma StartClientDisabled(s: ConState, startClient: bool, h: Host)
    requires h.shutdown || !startClient
    ensures var (r, ok) := StartClientSpec(s, startClient, h);
      !ok && r.pid == s.pid && r.ch0 == s.ch0 && r.ch1 == s.ch1 && r.events == s.events
  {
  }

  /**
   * Otherwise the old client is forgotten first: both sockets closed, no
   * pid, the crash reported when waitpid names the child. A new client is
   * started, and its pid kept, exactly when an executable was found (or the
   * old one is still executable) and the fork succeeded.
   */
  lemma StartClientRestarts(s: ConState, h: Host)
    requires !h.shutdown && (s.pid == -1 || h.probe.ret != 0)
    ensures var (r, ok) := StartClientSpec(s, true, h);
      var found := FirstExecutable(SearchPaths(h.pathVar, h.clientPath), FileName(s.exe), h.executables);
      !r.ch0.open && !r.ch1.open && !r.notifier && r.timerRunning && !r.childDead
      && r.exe == (if found.Some? then found.value else s.exe)
      && (ok <==> (found.Some? || s.exe in h.executables) && h.fork.Forked?)
      && r.pid == (if ok then h.fork.child else -1)
      && r.events == s.events + (if s.pid != -1 && h.probe.ret == s.pid then [UserMessage(ClientCrashed)] else [])
  {
    var s1 := s.(timerRunning := true);
    var s2 := if s1.pid != -1 && h.probe.ret == s1.pid then Emit(s1, UserMessage(ClientCrashed)) else s1;
    assert StartClientSpec(s, true, h) == LaunchSpec(ResetClient(s2), h);
    LaunchFacts(ResetClient(s2), h);
  }

  /** The launch step changes only the executable and the pid. */
  lemma LaunchFacts(s: ConState, h: Host)
    ensures var (r, ok) := LaunchSpec(s, h);
      var found := FirstExecutable(SearchPaths(h.pathVar, h.clientPath), FileName(s.exe), h.executables);
      r == s.(exe := r.exe, pid := r.pid)
      && r.exe == (if found.Some? then found.value else s.exe)
      && (ok <==> (found.Some? || s.exe in h.executables) && h.fork.Forked?)
      && r.pid == (if ok then h.fork.child else s.pid)
  {
  }

  /** Without PATH no directory is searched and the configured executable is kept. */
  lemma NoPathKeepsExecutable(s: ConState, h: Host)
    requires !h.shutdown && (s.pid == -1 || h.probe.ret != 0) && h.pathVar.None?
    ensures StartClientSpec(s, true, h).0.exe == s.exe
  {
    StartClientRestarts(s, h);
  }

  /** The shutdown flag ends the application: sockets closed, timer stopped, nothing else. */
  lemma TimeoutShutdown(p: Protocol, s: ConState, startClient: bool, h: Host, simulator: bool, now: int)
    requires h.shutdown
    ensures var r := TimeoutSpec(p, s, startClient, h, simulator, now);
      !r.ch0.open && !r.ch1.open && !r.listening && !r.timerRunning
      && r.events == s.events + [ApplicationExit] && r.pid == s.pid
  {
  }

  /** The client is polled only when it is alive, is not the simulator, and was last polled more than 15 s ago. */
  lemma TimeoutPollsOnlyWhenStale(p: Protocol, s: ConState, startClient: bool, h: Host, simulator: bool, now: int)
    requires !h.shutdown
    ensures var (s1, alive) := StartClientSpec(s, startClient, h);
      var r := TimeoutSpec(p, s, startClient, h, simulator, now);
      s1.lastQuery == s.lastQuery
      && (!alive || simulator || now - s.lastQuery <= AliveTimeout ==> r == s1)
      && (alive && !simulator && now - s.lastQuery > AliveTimeout ==> r == QuerySpec(p, s1, now))
  {
  }

  /** The destructor leaves nothing open and asks the client to shut down when it can. */
  lemma DestroyClosesEverything(p: Protocol, s: ConState)
    ensures var r := DestroySpec(p, s);
      !r.ch0.open && !r.ch1.open && !r.listening && !r.timerRunning
      && r.ch0.sent == s.ch0.sent + (if s.ch0.open then [p.shutdown] else [])
      && r.events == s.events + (if s.pid != -1 then [Terminate(s.pid)] else [])
  {
  }
}
