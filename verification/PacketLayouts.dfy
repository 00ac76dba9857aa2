/**
 Which packets the two responders answer: exactly those of one layout, byte for byte. A packet
 of that layout that is sealed and accepted gets its replies, and nothing else gets any.
 */
module PacketLayouts {
  import opened ByteBuffer
  import opened InternetChecksum
  import opened ResponderLoop
  import opened PacketResponders

  type Pair = b: seq<Byte> | |b| == 2 witness [0, 0]

  /** The fields a sender is free to choose. */
  datatype Fields = Fields(tos: Byte, ident: Pair, fragment: Pair, ttl: Byte, headerSum: Pair, port: Pair, udpSum: Pair)

  /** IPv4 and UDP headers from client to dns, for a packet of this length and destination port. */
  function Headers(f: Fields, length: Byte, client: Address, dns: Address, port: Pair): (h: seq<Byte>)
    requires length >= 20
    ensures |h| == 28
  {
    [0x45, f.tos, 0, length] + f.ident + f.fragment + [f.ttl, 17] + f.headerSum + client + dns + f.port + port
    + [0, length - 20] + f.udpSum
  }

  function FieldsOf(p: seq<Byte>): Fields
    requires |p| >= 28
  {
    Fields(p[1], p[4..6], p[6..8], p[8], p[10..12], p[20..22], p[26..28])
  }

  /** Neither reserved bit nor more-fragments nor an offset; don't-fragment is free. */
  predicate Whole(fragment: Pair) { fragment == [0, 0] || fragment == [0x40, 0] }

  predicate HasHeaders(p: seq<Byte>, client: Address, dns: Address, port: Pair) {
    28 <= |p| < 256 && p[..28] == Headers(FieldsOf(p), |p|, client, dns, port)
  }

  /** The fields of a header, one by one. */
  lemma HeaderFields(p: seq<Byte>, client: Address, dns: Address, port: Pair)
    requires 28 <= |p| < 256
    ensures HasHeaders(p, client, dns, port) <==>
              && p[0] == 0x45 && p[2..4] == [0, |p|] && p[9] == 17 && p[12..16] == client && p[16..20] == dns
              && p[22..24] == port && p[24..26] == [0, |p| - 20]
  {
    var h := Headers(FieldsOf(p), |p|, client, dns, port);
    assert h[0] == 0x45 && h[2..4] == [0, |p|] && h[9] == 17 && h[12..16] == client && h[16..20] == dns;
    assert h[22..24] == port && h[24..26] == [0, |p| - 20];
    assert h[1] == p[1] && h[4..6] == p[4..6] && h[6..8] == p[6..8] && h[8] == p[8] && h[10..12] == p[10..12];
    assert h[20..22] == p[20..22] && h[26..28] == p[26..28];
    assert p[..28] == Pieces(p) && h == Pieces(h);
    if HasHeaders(p, client, dns, port) {
      PrefixPieces(p, h);
    }
  }

  function Pieces(p: seq<Byte>): seq<Byte>
    requires |p| >= 28
  {
    [p[0], p[1]] + p[2..4] + p[4..6] + p[6..8] + [p[8], p[9]] + p[10..12] + p[12..16] + p[16..20] + p[20..22]
    + p[22..24] + p[24..26] + p[26..28]
  }

  lemma PrefixPieces(p: seq<Byte>, h: seq<Byte>)
    requires |p| >= 28 && |h| == 28 && p[..28] == h
    ensures p[0] == h[0] && p[9] == h[9] && p[2..4] == h[2..4] && p[12..16] == h[12..16] && p[16..20] == h[16..20]
    ensures p[22..24] == h[22..24] && p[24..26] == h[24..26]
  {
    assert forall i | 0 <= i < 28 :: p[i] == h[i];
  }

  lemma FieldIs(p: seq<Byte>, at: nat, high: Byte, low: Byte)
    requires at + 2 <= |p|
    ensures Field16(p, at) == 256 * high + low <==> p[at..at + 2] == [high, low]
  {
    var b := p[at..at + 2];
    assert b[0] == p[at] && b[1] == p[at + 1];
    assert b == [p[at], p[at + 1]];
    if b == [high, low] {
      assert b[0] == high && b[1] == low;
    }
  }

  /** What both tests say of the headers, apart from length and checksums. */
  predicate HeadersTested(p: seq<Byte>, client: Address, dns: Address, port: nat)
    requires 28 <= |p| < 256
  {
    && p[0] == 0x45 && Field16(p, 2) == |p| && Unfragmented(p) && p[9] == 17 && p[12..16] == client && p[16..20] == dns
    && Field16(p, 20) != 0 && Field16(p, 22) == port && Field16(p, 24) == |p| - 20
  }

  lemma HeadersTestedExactly(p: seq<Byte>, client: Address, dns: Address, high: Byte, low: Byte)
    requires 28 <= |p| < 256
    ensures HeadersTested(p, client, dns, 256 * high + low) <==>
              HasHeaders(p, client, dns, [high, low]) && Whole(p[6..8]) && p[20..22] != [0, 0]
  {
    HeaderFields(p, client, dns, [high, low]);
    FieldIs(p, 2, 0, |p|);
    FieldIs(p, 6, 0, 0);
    FieldIs(p, 6, 0x40, 0);
    FieldIs(p, 20, 0, 0);
    FieldIs(p, 22, high, low);
    FieldIs(p, 24, 0, |p| - 20);
  }

  // ----- the tunnel endpoint -----

  /** "K7T1", a count between 2 and 7, a one and ten zeros. */
  predicate TunBody(b: seq<Byte>) {
    |b| == 16 && 2 <= b[4] <= 7 && b == [0x4B, 0x37, 0x54, 0x31] + [b[4], 1] + [0, 0, 0, 0, 0, 0, 0, 0, 0, 0]
  }

  predicate UdpFits(p: seq<Byte>, length: Byte)
    requires |p| >= 28
  {
    p[26..28] == [0, 0] || ChecksumOf([p[12..20], [0, 17, 0, length], p[20..]]) == 0
  }

  /** A request is exactly a 44-byte packet from client to dns at port 28472 with that body, an
      unfragmented header, a source port, a UDP checksum that is absent or verifies, and the relay's
      consent. */
  lemma TunRequestExactly(p: seq<Byte>, client: Address, dns: Address, relayAccepts: seq<Byte> -> bool)
    ensures TunRequest(p, client, dns, relayAccepts) <==>
              && |p| == 44 && HasHeaders(p, client, dns, [0x6F, 0x38]) && Whole(p[6..8]) && p[20..22] != [0, 0]
              && TunBody(p[28..]) && UdpFits(p, 24) && relayAccepts(p)
  {
    if |p| == 44 {
      HeadersTestedExactly(p, client, dns, 0x6F, 0x38);
      FieldIs(p, 26, 0, 0);
      TunBodyIs(p);
    }
  }

  lemma TunBodyIs(p: seq<Byte>)
    requires |p| == 44
    ensures TunBody(p[28..]) <==>
              && p[28..32] == [0x4B, 0x37, 0x54, 0x31] && 2 <= p[32] <= 7 && p[33] == 1
              && forall i | 34 <= i < 44 :: p[i] == 0
  {
    var b := p[28..];
    var form: seq<Byte> := [0x4B, 0x37, 0x54, 0x31] + [b[4], 1] + [0, 0, 0, 0, 0, 0, 0, 0, 0, 0];
    assert forall i | 0 <= i < 16 :: b[i] == p[28 + i];
    assert form[..4] == [0x4B, 0x37, 0x54, 0x31] && form[5] == 1 && forall i | 6 <= i < 16 :: form[i] == 0;
    assert p[28..32] == b[..4];
    if b == form {
      assert forall i | 34 <= i < 44 :: p[i] == b[i - 28];
    }
    if p[28..32] == [0x4B, 0x37, 0x54, 0x31] && p[33] == 1 && forall i | 34 <= i < 44 :: p[i] == 0 {
      forall i | 0 <= i < 16
        ensures b[i] == form[i]
      {
        assert i < 4 ==> b[i] == p[28..32][i] && form[i] == form[..4][i];
      }
    }
  }

  /** The packet a well-behaved client sends. */
  function TunAsk(f: Fields, client: Address, dns: Address, count: Byte): (p: seq<Byte>)
    ensures |p| == 44
  {
    SealUdp(SealHeader(Headers(f, 44, client, dns, [0x6F, 0x38])
                       + ([0x4B, 0x37, 0x54, 0x31] + [count, 1] + [0, 0, 0, 0, 0, 0, 0, 0, 0, 0])))
  }

  /** Sealing keeps the layout. */
  lemma SealedHeaders(p: seq<Byte>, client: Address, dns: Address, port: Pair)
    requires 28 <= |p| < 256 && HasHeaders(p, client, dns, port)
    ensures var r := SealUdp(SealHeader(p));
            && HasHeaders(r, client, dns, port) && r[6..8] == p[6..8] && r[20..22] == p[20..22] && r[28..] == p[28..]
            && Verifies(r)
  {
    var r := SealUdp(SealHeader(p));
    SealedVerifies(p);
    HeaderFields(p, client, dns, port);
    HeaderFields(r, client, dns, port);
    assert forall i | 12 <= i < 26 || 0 <= i < 10 :: r[i] == p[i];
    assert r[2..4] == p[2..4] && r[12..16] == p[12..16] && r[16..20] == p[16..20] && r[22..24] == p[22..24];
    assert r[24..26] == p[24..26];
  }

  /** Every such packet is a request, if the relay accepts it. */
  lemma TunAskIsRequest(f: Fields, client: Address, dns: Address, count: Byte, relayAccepts: seq<Byte> -> bool)
    requires Whole(f.fragment) && f.port != [0, 0] && 2 <= count <= 7
    ensures var p := TunAsk(f, client, dns, count); TunRequest(p, client, dns, relayAccepts) <==> relayAccepts(p)
  {
    var body: seq<Byte> := [0x4B, 0x37, 0x54, 0x31] + [count, 1] + [0, 0, 0, 0, 0, 0, 0, 0, 0, 0];
    var h := Headers(f, 44, client, dns, [0x6F, 0x38]);
    var q := h + body;
    PlainHeaders(f, 44, client, dns, [0x6F, 0x38], body);
    SealedHeaders(q, client, dns, [0x6F, 0x38]);
    var p := SealUdp(SealHeader(q));
    assert q[28..] == body && body[4] == count;
    TunRequestExactly(p, client, dns, relayAccepts);
  }

  lemma PlainHeaders(f: Fields, length: Byte, client: Address, dns: Address, port: Pair, body: seq<Byte>)
    requires 28 <= length && |body| == length - 28
    ensures var q := Headers(f, length, client, dns, port) + body;
            HasHeaders(q, client, dns, port) && q[6..8] == f.fragment && q[20..22] == f.port && q[28..] == body
  {
    var h := Headers(f, length, client, dns, port);
    var q := h + body;
    assert q[..28] == h;
    assert h[1] == f.tos && h[4..6] == f.ident && h[6..8] == f.fragment && h[8] == f.ttl && h[10..12] == f.headerSum;
    assert h[20..22] == f.port && h[26..28] == f.udpSum;
    assert forall i | 0 <= i < 28 :: q[i] == h[i];
    assert q[4..6] == h[4..6] && q[6..8] == h[6..8] && q[10..12] == h[10..12] && q[20..22] == h[20..22];
    assert q[26..28] == h[26..28];
    assert FieldsOf(q) == f;
  }

  // ----- the name server -----

  /** An identifier, the flags and counts of one recursive question, and the question. */
  predicate DnsBody(b: seq<Byte>) { |b| == 33 && b[2..12] == [1, 0, 0, 1, 0, 0, 0, 0, 0, 0] }

  /** A query is exactly a 61-byte packet from client to dns at port 53 with that body, whose header
      checksum verifies, and whose question the parser finds to be the expected one. */
  lemma DnsQueryExactly(p: seq<Byte>, client: Address, dns: Address, asksForUpdates: seq<Byte> -> bool)
    ensures DnsQuery(p, client, dns, asksForUpdates) <==>
              && |p| == 61 && HasHeaders(p, client, dns, [0, 53]) && Whole(p[6..8]) && p[20..22] != [0, 0]
              && ChecksumOf([p[..20]]) == 0 && DnsBody(p[28..]) && UdpFits(p, 41) && asksForUpdates(p[28..])
  {
    if |p| == 61 {
      HeadersTestedExactly(p, client, dns, 0, 53);
      FieldIs(p, 26, 0, 0);
      assert p[28..][2..12] == p[30..40];
    }
  }

  function DnsAsk(f: Fields, client: Address, dns: Address, body: seq<Byte>): (p: seq<Byte>)
    requires DnsBody(body)
    ensures |p| == 61
  {
    SealUdp(SealHeader(Headers(f, 61, client, dns, [0, 53]) + body))
  }

  lemma DnsAskIsQuery(f: Fields, client: Address, dns: Address, body: seq<Byte>, asksForUpdates: seq<Byte> -> bool)
    requires Whole(f.fragment) && f.port != [0, 0] && DnsBody(body)
    ensures var p := DnsAsk(f, client, dns, body);
            (DnsQuery(p, client, dns, asksForUpdates) <==> asksForUpdates(body)) && p[28..] == body
  {
    var q := Headers(f, 61, client, dns, [0, 53]) + body;
    PlainHeaders(f, 61, client, dns, [0, 53], body);
    SealedHeaders(q, client, dns, [0, 53]);
    DnsQueryExactly(SealUdp(SealHeader(q)), client, dns, asksForUpdates);
  }

  // ----- what is sent -----

  lemma ScriptSplits(before: seq<Event>, event: Event, after: seq<Event>, e: Endpoint)
    ensures Script(before + [event] + after, e) == Script(before, e) + [Seen(event, e)] + Script(after, e)
  {}

  /** Events that stop no responder and ask it nothing. */
  predicate Uneventful(events: seq<Event>, e: Endpoint) {
    forall i | 0 <= i < |events| ::
      || (events[i].NotYet? && !events[i].cancelled)
      || (events[i].Packet? && events[i].acknowledged && !Request(e, events[i].bytes))
  }

  /** A request reached within the bound, acknowledged and accepted, gets exactly what it is owed. */
  lemma RequestIsAnswered(before: seq<Event>, p: seq<Byte>, accepts: nat, after: seq<Event>, e: Endpoint, limit: nat)
    requires Uneventful(before, e) && Received(Script(before, e)) < limit && Request(e, p)
    requires Replies(e, p).Packets? && |Replies(e, p).packets| <= accepts
    ensures Plays(Script(before + [Packet(p, true, accepts)] + after, e), limit, false).sent == Replies(e, p).packets
  {
    var d := Seen(Packet(p, true, accepts), e);
    assert d == Asked(Replies(e, p), true, accepts);
    ScriptSplits(before, Packet(p, true, accepts), after, e);
    UneventfulIsQuiet(before, e);
    ReachedIsAnswered(Script(before, e), d, Script(after, e), limit);
  }

  lemma UneventfulIsQuiet(events: seq<Event>, e: Endpoint)
    requires Uneventful(events, e)
    ensures Quiet(Script(events, e))
  {
    var ds := Script(events, e);
    forall i | 0 <= i < |ds|
      ensures (ds[i].Busy? && !ds[i].cancelled) || (ds[i].Other? && ds[i].acknowledged)
    {
      assert ds[i] == Seen(events[i], e);
    }
  }

  /** The tunnel endpoint sends a well-behaved client exactly its two replies. */
  lemma TunClientIsServed(before: seq<Event>, f: Fields, count: Byte, accepts: nat, after: seq<Event>,
                          client: Address, dns: Address, relayAccepts: seq<Byte> -> bool, limit: nat)
    requires Whole(f.fragment) && f.port != [0, 0] && 2 <= count <= 7 && relayAccepts(TunAsk(f, client, dns, count))
    requires var e := TunEndpoint(client, dns, relayAccepts);
             Uneventful(before, e) && Received(Script(before, e)) < limit && accepts >= 2
    ensures var p := TunAsk(f, client, dns, count);
            var events := before + [Packet(p, true, accepts)] + after;
            Plays(Script(events, TunEndpoint(client, dns, relayAccepts)), limit, false).sent
            == TunReplies(p, client, dns)
  {
    var p, e := TunAsk(f, client, dns, count), TunEndpoint(client, dns, relayAccepts);
    TunAskIsRequest(f, client, dns, count, relayAccepts);
    assert Request(e, p);
    RequestIsAnswered(before, p, accepts, after, e, limit);
  }

  /** The name server sends a well-behaved client exactly one answer, of 33 bytes of payload when it
      truncates and 64 otherwise. */
  lemma DnsClientIsServed(before: seq<Event>, f: Fields, body: seq<Byte>, accepts: nat, after: seq<Event>,
                          client: Address, dns: Address, mode: nat, asks: seq<Byte> -> bool, build: nat -> Built,
                          payload: seq<Byte>, limit: nat)
    requires Whole(f.fragment) && f.port != [0, 0] && DnsBody(body) && asks(body)
    requires build(Field16(body, 0)) == Payload(payload)
    requires (mode == 2 && |payload| == 33) || (mode == 1 && |payload| == 64)
    requires var e := DnsEndpoint(client, dns, mode, asks, build);
             Uneventful(before, e) && Received(Script(before, e)) < limit && accepts >= 1
    ensures var p := DnsAsk(f, client, dns, body);
            var events := before + [Packet(p, true, accepts)] + after;
            Plays(Script(events, DnsEndpoint(client, dns, mode, asks, build)), limit, false).sent
            == [DnsReply(p, payload, client, dns)]
  {
    var p, e := DnsAsk(f, client, dns, body), DnsEndpoint(client, dns, mode, asks, build);
    DnsAskIsQuery(f, client, dns, body, asks);
    assert Request(e, p);
    SameIdentifier(p, body);
    RequestIsAnswered(before, p, accepts, after, e, limit);
  }

  lemma SameIdentifier(p: seq<Byte>, body: seq<Byte>)
    requires |p| == 61 && p[28..] == body
    ensures Field16(p, 28) == Field16(body, 0)
  {
    assert p[28] == p[28..][0] && p[29] == p[28..][1];
  }

  /** Whoever is not the client, or does not ask the server, gets nothing. */
  lemma StrangersGetNothing(events: seq<Event>, e: Endpoint, limit: nat)
    requires forall i | 0 <= i < |events| && events[i].Packet? :: !Request(e, events[i].bytes)
    ensures Plays(Script(events, e), limit, false).sent == []
  {
    NothingOwed(Script(events, e));
    OnlyTheFirstIsAnswered(Script(events, e), limit);
  }

  lemma {:induction false} NothingOwed<T>(ds: seq<Delivery<T>>)
    requires forall i | 0 <= i < |ds| :: !ds[i].Asked?
    ensures Owed(ds) == []
  {
    if ds != [] {
      NothingOwed(ds[1..]);
    }
  }

  lemma TunStranger(p: seq<Byte>, client: Address, dns: Address, relayAccepts: seq<Byte> -> bool)
    requires |p| >= 20 && (p[12..16] != client || p[16..20] != dns)
    ensures !Request(TunEndpoint(client, dns, relayAccepts), p)
  {}

  lemma DnsStranger(p: seq<Byte>, client: Address, dns: Address, mode: nat, asks: seq<Byte> -> bool,
                    build: nat -> Built)
    requires |p| >= 20 && (p[12..16] != client || p[16..20] != dns)
    ensures !Request(DnsEndpoint(client, dns, mode, asks, build), p)
  {}
}
