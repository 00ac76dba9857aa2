/**
 The two fixture responders behind a packet port: the raw tunnel endpoint and the
 maintenance name server. Each consumes at most sixty-four packets, answers one valid
 request and treats a second one as an error. What the port delivers, acknowledges and
 accepts is a script; the relay's own packet validation and the name-server library are
 parameters.
 */
module PacketResponders {
  import opened ByteBuffer
  import opened InternetChecksum
  import opened ResponderLoop

  type Address = a: seq<Byte> | |a| == 4 witness [0, 0, 0, 0]

  function Field16(p: seq<Byte>, at: nat): nat
    requires at + 2 <= |p|
  {
    High(p[at]) + p[at + 1] as int
  }

  /** The fragment word with every bit but don't-fragment must be zero. */
  predicate Unfragmented(p: seq<Byte>)
    requires |p| >= 8
  {
    Field16(p, 6) == 0 || Field16(p, 6) == 0x4000
  }

  /** The pseudo header's last word pair: protocol 17 and the UDP length. */
  function Pseudo(udpLength: nat): seq<Byte> { [0, 17, 0, udpLength % 256] }

  function HeaderChecksum(p: seq<Byte>): nat
    requires |p| >= 20
  {
    ChecksumOf([p[..20]])
  }

  function UdpChecksum(p: seq<Byte>): nat
    requires |p| >= 28
  {
    ChecksumOf(UdpParts(p))
  }

  /** Both checksums verify under the same routine. */
  predicate Verifies(p: seq<Byte>) { |p| >= 28 && HeaderChecksum(p) == 0 && UdpChecksum(p) == 0 }

  // ----- sealing a packet -----

  function SealHeader(p: seq<Byte>): (q: seq<Byte>)
    requires |p| >= 28
    ensures |q| == |p|
  {
    var z := Put(p, 10, [0, 0]);
    Put(z, 10, BigEndian(HeaderChecksum(z), 2))
  }

  /** RFC 768: a computed zero is sent as all ones. */
  function UdpField(c: nat): nat { if c == 0 then 65535 else c }

  function SealUdp(p: seq<Byte>): (q: seq<Byte>)
    requires |p| >= 28
    ensures |q| == |p|
  {
    var z := Put(p, 26, [0, 0]);
    Put(z, 26, BigEndian(UdpField(UdpChecksum(z)), 2))
  }

  lemma Total3(a: seq<Byte>, b: seq<Byte>, c: seq<Byte>)
    ensures Total([a, b, c]) == WordSum(a) + WordSum(b) + WordSum(c)
  {
    assert [a, b, c][1..] == [b, c] && [b, c][1..] == [c] && |[c][1..]| == 0;
    assert Total([c]) == WordSum(c);
  }

  /** Whatever a packet of up to 1500 bytes holds, sealing makes both checksums verify, and only
      the two checksum fields change. */
  lemma SealedVerifies(p: seq<Byte>)
    requires 28 <= |p| <= 1500
    ensures Verifies(SealUdp(SealHeader(p)))
    ensures forall i | 0 <= i < |p| && i != 10 && i != 11 && i != 26 && i != 27 :: SealUdp(SealHeader(p))[i] == p[i]
  {
    HeaderVerifies(p);
    UdpVerifies(SealHeader(p));
    assert SealUdp(SealHeader(p))[..20] == SealHeader(p)[..20];
  }

  /** A sealed packet's UDP checksum is never the zero that means absent. */
  lemma SealedIsMarked(p: seq<Byte>)
    requires |p| >= 28
    ensures SealUdp(SealHeader(p))[26..28] != [0, 0]
  {
    var z := Put(SealHeader(p), 26, [0, 0]);
    FoldIs(Total(UdpParts(z)) % ACC);
    var c := UdpField(UdpChecksum(z));
    assert BigEndian(c, 2) == [c / 256 % 256, c % 256] by {
      assert BigEndian(c / 256, 1) == BigEndian(c / 256 / 256, 0) + [c / 256 % 256];
    }
  }

  lemma SealedKeeps(p: seq<Byte>, from: nat, to: nat)
    requires 28 <= |p| <= 1500 && from <= to <= |p|
    requires to <= 10 || 12 <= from <= to <= 26 || 28 <= from
    ensures SealUdp(SealHeader(p))[from..to] == p[from..to]
  {
    SealedVerifies(p);
  }

  /** Storing the header checksum adds it to the header's sum. */
  lemma HeaderTotal(z: seq<Byte>, c: nat)
    requires |z| >= 28 && z[10] == 0 && z[11] == 0 && c < 65536
    ensures Total([Put(z, 10, BigEndian(c, 2))[..20]]) == Total([z[..20]]) + c
  {
    FieldAdds(z[..20], 10, c);
    assert Put(z, 10, BigEndian(c, 2))[..20] == Put(z[..20], 10, BigEndian(c, 2));
    TotalOne(z[..20]);
    TotalOne(Put(z, 10, BigEndian(c, 2))[..20]);
  }

  lemma HeaderVerifies(p: seq<Byte>)
    requires |p| >= 28
    ensures HeaderChecksum(SealHeader(p)) == 0
  {
    var z := Put(p, 10, [0, 0]);
    assert z[10] == z[10..12][0] && z[11] == z[10..12][1];
    var n := Total([z[..20]]);
    TotalOne(z[..20]);
    WordSumBound(z[..20]);
    assert n % ACC == n;
    HeaderTotal(z, HeaderChecksum(z));
    ComplementVerifies(n, HeaderChecksum(z));
  }

  function UdpParts(p: seq<Byte>): seq<seq<Byte>>
    requires |p| >= 28
  {
    [p[12..20], Pseudo(|p| - 20), p[20..]]
  }

  /** Storing the UDP checksum adds it to the datagram's sum, pseudo header included. */
  lemma UdpTotal(z: seq<Byte>, c: nat)
    requires |z| >= 28 && z[26] == 0 && z[27] == 0 && c < 65536
    ensures Total(UdpParts(Put(z, 26, BigEndian(c, 2)))) == Total(UdpParts(z)) + c
  {
    var q := Put(z, 26, BigEndian(c, 2));
    FieldAdds(z[20..], 6, c);
    assert q[20..] == Put(z[20..], 6, BigEndian(c, 2));
    assert q[12..20] == z[12..20];
    Total3(z[12..20], Pseudo(|z| - 20), z[20..]);
    Total3(q[12..20], Pseudo(|z| - 20), q[20..]);
  }

  /** A datagram of this size is far inside the accumulator's range. */
  lemma UdpTotalBound(z: seq<Byte>)
    requires 28 <= |z| <= 1500
    ensures Total(UdpParts(z)) <= 65535 * 746
  {
    var a: seq<Byte>, b: seq<Byte>, c: seq<Byte> := z[12..20], Pseudo(|z| - 20), z[20..];
    assert [a, b, c][1..] == [b, c] && [b, c][1..] == [c] && |[c][1..]| == 0;
    assert Words([c]) == (|c| + 1) / 2;
    TotalBound(UdpParts(z));
  }

  lemma UdpVerifies(p: seq<Byte>)
    requires 28 <= |p| <= 1500
    ensures UdpChecksum(SealUdp(p)) == 0
  {
    var z := Put(p, 26, [0, 0]);
    assert z[26] == z[26..28][0] && z[27] == z[26..28][1];
    var n, c := Total(UdpParts(z)), UdpField(UdpChecksum(z));
    UdpTotalBound(z);
    assert n % ACC == n;
    UdpTotal(z, c);
    ComplementVerifies(n, c);
  }

  // ----- the port -----

  /** One receive on the packet port, with the acknowledgement and the submissions that follow it. */
  datatype Event = NotYet(cancelled: bool) | ReceiveFails | Packet(bytes: seq<Byte>, acknowledged: bool, accepts: nat)

  // ----- the tunnel endpoint -----

  const MAGIC_REQUEST: seq<Byte> := [0x4B, 0x37, 0x54, 0x31]
  const MAGIC_REPLY: seq<Byte> := [0x4B, 0x37, 0x52, 0x31]

  predicate TunRequest(p: seq<Byte>, client: Address, dns: Address, relayAccepts: seq<Byte> -> bool) {
    && |p| == 44 && p[0] == 0x45 && Field16(p, 2) == 44 && Unfragmented(p) && p[9] == 17
    && p[12..16] == client && p[16..20] == dns
    && Field16(p, 20) != 0 && Field16(p, 22) == 28472 && Field16(p, 24) == 24
    && p[28..32] == MAGIC_REQUEST && 2 <= p[32] <= 7 && p[33] == 1
    && (forall i | 34 <= i < 44 :: p[i] == 0)
    && relayAccepts(p)
    && (Field16(p, 26) == 0 || UdpChecksum(p) == 0)
  }

  /** The reply before its sequence number and checksums. */
  function TunDraft(p: seq<Byte>, client: Address, dns: Address): (q: seq<Byte>)
    requires |p| == 44
    ensures |q| == 44
  {
    var q1 := Put(Put(p, 6, [0, 0]), 8, [64]);
    var q2 := Put(Put(q1, 12, dns), 16, client);
    var q3 := Put(Put(q2, 20, p[22..24]), 22, p[20..22]);
    Put(q3, 28, MAGIC_REPLY)
  }

  function TunNumbered(q: seq<Byte>, number: Byte): (r: seq<Byte>)
    requires |q| == 44
    ensures |r| == 44
  {
    Put(Put(q, 4, [0, number]), 33, [number])
  }

  function TunReply(q: seq<Byte>, number: Byte): (r: seq<Byte>)
    requires |q| == 44
    ensures |r| == 44
  {
    SealUdp(SealHeader(TunNumbered(q, number)))
  }

  /** The second reply is built on the first, whose fields it overwrites. */
  function TunReplies(p: seq<Byte>, client: Address, dns: Address): (r: seq<seq<Byte>>)
    ensures |p| == 44 ==> |r| == 2 && |r[0]| == 44 && |r[1]| == 44
  {
    if |p| != 44 then []
    else
      var first := TunReply(TunDraft(p, client, dns), 1);
      [first, TunReply(first, 2)]
  }

  /** What a reply says whatever its number: it goes back the way the request came. */
  predicate GoesBack(r: seq<Byte>, p: seq<Byte>, client: Address, dns: Address)
    requires |r| == 44 && |p| == 44
  {
    && r[0..4] == p[0..4] && r[6..8] == [0, 0] && r[8] == 64 && r[9] == p[9] && r[12..16] == dns && r[16..20] == client
    && r[20..22] == p[22..24] && r[22..24] == p[20..22] && r[24..26] == p[24..26] && r[28..32] == MAGIC_REPLY
    && r[32] == p[32] && r[34..44] == p[34..44]
  }

  lemma DraftGoesBack(p: seq<Byte>, client: Address, dns: Address)
    requires |p| == 44
    ensures GoesBack(TunDraft(p, client, dns), p, client, dns)
  {
    var q1 := Put(Put(p, 6, [0, 0]), 8, [64]);
    assert q1[8] == q1[8..9][0] && q1[6..8] == [0, 0];
    var q2 := Put(Put(q1, 12, dns), 16, client);
    assert q2[12..16] == dns && q2[0..4] == p[0..4] && q2[24..26] == p[24..26] && q2[6..8] == [0, 0];
    var q3 := Put(Put(q2, 20, p[22..24]), 22, p[20..22]);
    assert q3[12..16] == dns && q3[16..20] == client && q3[20..22] == p[22..24];
    assert q3[6..8] == [0, 0] && q3[24..26] == p[24..26] && q3[34..44] == p[34..44];
  }

  /** Each reply verifies, goes back the way the request came, carries its number twice and a UDP
      checksum that is never the zero that means absent. */
  lemma TunReplyIsSound(p: seq<Byte>, client: Address, dns: Address, k: nat)
    requires |p| == 44 && k < 2
    ensures var r := TunReplies(p, client, dns)[k];
            && Verifies(r) && GoesBack(r, p, client, dns) && r[4..6] == [0, k + 1] && r[33] == k + 1
            && r[26..28] != [0, 0]
  {
    var d := TunDraft(p, client, dns);
    DraftGoesBack(p, client, dns);
    NumberedKeeps(d, 1, p, client, dns);
    if k == 1 {
      NumberedKeeps(TunReply(d, 1), 2, p, client, dns);
    }
  }

  lemma NumberedKeeps(q: seq<Byte>, number: Byte, p: seq<Byte>, client: Address, dns: Address)
    requires |q| == 44 && |p| == 44 && GoesBack(q, p, client, dns)
    ensures var r := TunReply(q, number);
            && Verifies(r) && GoesBack(r, p, client, dns) && r[4..6] == [0, number] && r[33] == number
            && r[26..28] != [0, 0]
  {
    var n := TunNumbered(q, number);
    SealedVerifies(n);
    SealedIsMarked(n);
    assert n[4..6] == [0, number];
    NumberedFields(q, number);
    var r := TunReply(q, number);
    assert r[4] == n[4..6][0] && r[5] == n[4..6][1];
    SameFields(r, q);
  }

  lemma NumberedFields(q: seq<Byte>, number: Byte)
    requires |q| == 44
    ensures var n := TunNumbered(q, number);
            n[33] == number && n[4..6] == [0, number] && forall i | 0 <= i < 44 && i !in {4, 5, 33} :: n[i] == q[i]
  {
    var n := TunNumbered(q, number);
    assert n[33] == n[33..34][0];
  }

  lemma SameFields(r: seq<Byte>, q: seq<Byte>)
    requires |r| == |q| == 44 && forall i | 0 <= i < 44 && i !in {4, 5, 10, 11, 26, 27, 33} :: r[i] == q[i]
    ensures r[0..4] == q[0..4] && r[6..8] == q[6..8] && r[8] == q[8] && r[9] == q[9] && r[12..16] == q[12..16]
    ensures r[16..20] == q[16..20] && r[20..22] == q[20..22] && r[22..24] == q[22..24] && r[24..26] == q[24..26]
    ensures r[28..32] == q[28..32] && r[32] == q[32] && r[34..44] == q[34..44]
  {
  }

  // ----- the maintenance name server -----

  /** RFC 1035 section 4.1.1: one question, recursion desired, nothing else. */
  const QUERY_FLAGS: seq<Byte> := [1, 0, 0, 1, 0, 0, 0, 0, 0, 0]

  predicate DnsQuery(p: seq<Byte>, client: Address, dns: Address, asksForUpdates: seq<Byte> -> bool) {
    && |p| == 61 && p[0] == 0x45 && Field16(p, 2) == 61 && Unfragmented(p) && p[9] == 17
    && p[12..16] == client && p[16..20] == dns
    && Field16(p, 20) != 0 && Field16(p, 22) == 53 && Field16(p, 24) == 41
    && HeaderChecksum(p) == 0 && (Field16(p, 26) == 0 || UdpChecksum(p) == 0)
    && p[30..40] == QUERY_FLAGS
    && asksForUpdates(p[28..])
  }

  /** What the name-server library does with an identifier. */
  datatype Built = Payload(bytes: seq<Byte>) | BuildFails

  predicate Usable(built: Built, mode: nat) { built.Payload? && |built.bytes| == if mode == 2 then 33 else 64 }

  function DnsFront(p: seq<Byte>, payload: seq<Byte>): (q: seq<Byte>)
    requires |p| == 61 && |payload| <= 64
    ensures |q| == 28 + |payload|
  {
    var total := 28 + |payload|;
    Put(Put(Put(p[..28] + payload, 6, [0, 0]), 8, [64]), 2, BigEndian(total, 2))
  }

  function DnsDraft(p: seq<Byte>, payload: seq<Byte>, client: Address, dns: Address): (q: seq<Byte>)
    requires |p| == 61 && |payload| <= 64
    ensures |q| == 28 + |payload|
  {
    var q3 := Put(Put(DnsFront(p, payload), 12, dns), 16, client);
    var q4 := Put(Put(q3, 20, p[22..24]), 22, p[20..22]);
    Put(q4, 24, BigEndian(8 + |payload|, 2))
  }

  function DnsReply(p: seq<Byte>, payload: seq<Byte>, client: Address, dns: Address): (q: seq<Byte>)
    requires |p| == 61 && |payload| <= 64
    ensures |q| == 28 + |payload|
  {
    SealUdp(SealHeader(DnsDraft(p, payload, client, dns)))
  }

  /** What an answer says: the way back, its own lengths and the payload. */
  predicate AnswersQuery(r: seq<Byte>, p: seq<Byte>, payload: seq<Byte>, client: Address, dns: Address)
    requires |p| == 61 && |r| == 28 + |payload|
  {
    && r[0..2] == p[0..2] && r[2..4] == BigEndian(|r|, 2) && r[4..6] == p[4..6] && r[6..8] == [0, 0] && r[8] == 64
    && r[9] == p[9] && r[12..16] == dns && r[16..20] == client && r[20..22] == p[22..24] && r[22..24] == p[20..22]
    && r[24..26] == BigEndian(|r| - 20, 2) && r[28..] == payload
  }

  lemma DnsFrontFields(p: seq<Byte>, payload: seq<Byte>)
    requires |p| == 61 && |payload| <= 64
    ensures var q := DnsFront(p, payload);
            && q[0..2] == p[0..2] && q[2..4] == BigEndian(|q|, 2) && q[4..6] == p[4..6] && q[6..8] == [0, 0]
            && q[8] == 64 && q[9] == p[9] && q[28..] == payload
  {
    var q1 := Put(Put(p[..28] + payload, 6, [0, 0]), 8, [64]);
    assert q1[8] == q1[8..9][0] && q1[28..] == payload && q1[6..8] == [0, 0];
    assert forall i | 0 <= i < 28 && i !in {6, 7, 8} :: q1[i] == p[i];
    assert q1[0..2] == p[0..2] && q1[4..6] == p[4..6];
  }

  lemma DnsDraftFields(p: seq<Byte>, payload: seq<Byte>, client: Address, dns: Address)
    requires |p| == 61 && |payload| <= 64
    ensures AnswersQuery(DnsDraft(p, payload, client, dns), p, payload, client, dns)
  {
    DnsFrontFields(p, payload);
    var q2 := DnsFront(p, payload);
    var d := DnsDraft(p, payload, client, dns);
    assert forall i | (0 <= i < 12 || 28 <= i < |d|) :: d[i] == q2[i];
    assert d[0..2] == q2[0..2] && d[2..4] == q2[2..4] && d[4..6] == q2[4..6] && d[6..8] == q2[6..8];
    assert d[28..] == q2[28..];
    var q3 := Put(Put(q2, 12, dns), 16, client);
    assert q3[12..16] == dns;
    var q4 := Put(Put(q3, 20, p[22..24]), 22, p[20..22]);
    assert q4[12..16] == dns && q4[16..20] == client && q4[20..22] == p[22..24];
  }

  /** The answer verifies, goes back the way the query came, states its own lengths, carries the
      payload and has a UDP checksum. */
  lemma DnsReplyIsSound(p: seq<Byte>, payload: seq<Byte>, client: Address, dns: Address)
    requires |p| == 61 && |payload| <= 64
    ensures var r := DnsReply(p, payload, client, dns);
            Verifies(r) && AnswersQuery(r, p, payload, client, dns) && r[26..28] != [0, 0]
  {
    var d := DnsDraft(p, payload, client, dns);
    DnsDraftFields(p, payload, client, dns);
    SealedVerifies(d);
    SealedIsMarked(d);
    var r := SealUdp(SealHeader(d));
    SealedAnswers(d, r);
    assert r[28..] == d[28..];
  }

  lemma SealedAnswers(d: seq<Byte>, r: seq<Byte>)
    requires |r| == |d| >= 28 && forall i | 0 <= i < |d| && i != 10 && i != 11 && i != 26 && i != 27 :: r[i] == d[i]
    ensures r[0..2] == d[0..2] && r[2..4] == d[2..4] && r[4..6] == d[4..6] && r[6..8] == d[6..8] && r[8] == d[8]
    ensures r[9] == d[9] && r[12..16] == d[12..16] && r[16..20] == d[16..20] && r[20..22] == d[20..22]
    ensures r[22..24] == d[22..24] && r[24..26] == d[24..26]
  {
  }

  // ----- what a responder does with a script -----

  /** A responder's addresses and its test of a packet; the name server also has a mode and its library. */
  datatype Endpoint =
    | Tun(client: Address, dns: Address, valid: seq<Byte> -> bool)
    | Dns(client: Address, dns: Address, valid: seq<Byte> -> bool, mode: nat, build: nat -> Built)

  function TunEndpoint(client: Address, dns: Address, relayAccepts: seq<Byte> -> bool): Endpoint {
    Tun(client, dns, p => TunRequest(p, client, dns, relayAccepts))
  }

  function DnsEndpoint(client: Address, dns: Address, mode: nat, asksForUpdates: seq<Byte> -> bool,
                       build: nat -> Built): Endpoint {
    Dns(client, dns, p => DnsQuery(p, client, dns, asksForUpdates), mode, build)
  }

  predicate Request(e: Endpoint, p: seq<Byte>) { |p| == (if e.Tun? then 44 else 61) && e.valid(p) }

  /** What a valid request is owed; an unusable library answer owes nothing. */
  function Replies(e: Endpoint, p: seq<Byte>): Answer<seq<Byte>>
    requires Request(e, p)
  {
    match e
    case Tun(client, dns, _) => Packets(TunReplies(p, client, dns))
    case Dns(client, dns, _, mode, build) =>
      var built := build(Field16(p, 28));
      if built.BuildFails? then NoAnswer(LibraryFailed)
      else if Usable(built, mode) then Packets([DnsReply(p, built.bytes, client, dns)])
      else NoAnswer(Rejected)
  }

  function Seen(event: Event, e: Endpoint): Delivery<seq<Byte>> {
    match event
    case NotYet(cancelled) => Busy(cancelled)
    case ReceiveFails => Fails
    case Packet(bytes, acknowledged, accepts) =>
      if Request(e, bytes) then Asked(Replies(e, bytes), acknowledged, accepts) else Other(acknowledged)
  }

  function Script(events: seq<Event>, e: Endpoint): seq<Delivery<seq<Byte>>> {
    seq(|events|, i requires 0 <= i < |events| => Seen(events[i], e))
  }

  predicate AllVerify(packets: seq<seq<Byte>>) {
    |packets| <= 2 && forall k | 0 <= k < |packets| :: Verifies(packets[k])
  }

  lemma RepliesVerify(e: Endpoint, p: seq<Byte>)
    requires Request(e, p)
    ensures Replies(e, p).Packets? ==> AllVerify(Replies(e, p).packets)
  {
    if e.Tun? {
      TunReplyIsSound(p, e.client, e.dns, 0);
      TunReplyIsSound(p, e.client, e.dns, 1);
    } else if Usable(e.build(Field16(p, 28)), e.mode) {
      DnsReplyIsSound(p, e.build(Field16(p, 28)).bytes, e.client, e.dns);
    }
  }

  lemma {:induction false} OwedVerifies(ds: seq<Delivery<seq<Byte>>>)
    requires forall i | 0 <= i < |ds| :: ds[i].Asked? && ds[i].answer.Packets? ==> AllVerify(ds[i].answer.packets)
    ensures AllVerify(Owed(ds))
  {
    if ds != [] && !ds[0].Asked? {
      OwedVerifies(ds[1..]);
    }
  }

  /** Whatever arrives, every packet a responder submits verifies, and there are at most two. */
  lemma SubmittedVerifies(events: seq<Event>, e: Endpoint, budget: nat)
    ensures AllVerify(Plays(Script(events, e), budget, false).sent)
  {
    var ds := Script(events, e);
    forall i | 0 <= i < |ds|
      ensures ds[i].Asked? && ds[i].answer.Packets? ==> AllVerify(ds[i].answer.packets)
    {
      if ds[i].Asked? {
        RepliesVerify(e, events[i].bytes);
      }
    }
    OwedVerifies(ds);
    PrefixVerifies(ds, budget);
  }

  lemma PrefixVerifies(ds: seq<Delivery<seq<Byte>>>, budget: nat)
    requires AllVerify(Owed(ds))
    ensures AllVerify(Plays(ds, budget, false).sent)
  {
    OnlyTheFirstIsAnswered(ds, budget);
    var sent := Plays(ds, budget, false).sent;
    assert sent == Owed(ds)[..|sent|];
  }

  // ----- the loops -----

  const ZERO: Address := [0, 0, 0, 0]

  /** The in-place assembly of both replies in one 44-byte buffer. */
  method DraftTun(output: array<Byte>, p: seq<Byte>, client: Address, dns: Address)
    requires output.Length == 44 && |p| == 44
    modifies output
    ensures output[..] == TunDraft(p, client, dns)
  {
    CopyInto(output, 0, p);
    assert output[..] == p;
    CopyInto(output, 6, [0, 0]);
    CopyInto(output, 8, [64]);
    CopyInto(output, 12, dns);
    CopyInto(output, 16, client);
    CopyInto(output, 20, p[22..24]);
    CopyInto(output, 22, p[20..22]);
    CopyInto(output, 28, MAGIC_REPLY);
  }

  /** A store inside the first `total` bytes, which are all that is read later. */
  method StoreWithin(output: array<Byte>, total: nat, at: nat, data: seq<Byte>)
    requires at + |data| <= total <= output.Length
    modifies output
    ensures output[..total] == Put(old(output[..total]), at, data)
  {
    CopyInto(output, at, data);
    assert output[..total] == Put(old(output[..total]), at, data);
  }

  /** The checksum stores shared by both responders, on the first `total` bytes of the buffer. */
  method Seal(output: array<Byte>, total: nat)
    requires 28 <= total <= output.Length && total - 20 < 256
    modifies output
    ensures output[..total] == SealUdp(SealHeader(old(output[..total])))
  {
    StoreWithin(output, total, 10, [0, 0]);
    assert output[..total][..20] == output[..20];
    var c := Checksum([output[..20]]);
    StoreWithin(output, total, 10, BigEndian(c, 2));
    StoreWithin(output, total, 26, [0, 0]);
    ghost var blank := output[..total];
    assert blank[12..20] == output[12..20] && blank[20..] == output[20..total];
    c := Checksum([output[12..20], Pseudo(total - 20), output[20..total]]);
    if c == 0 {
      c := 65535;
    }
    StoreWithin(output, total, 26, BigEndian(c, 2));
  }

  method NumberAndSeal(output: array<Byte>, number: Byte)
    requires output.Length == 44
    modifies output
    ensures output[..] == TunReply(old(output[..]), number)
  {
    CopyInto(output, 4, [0, number]);
    CopyInto(output, 33, [number]);
    assert output[..44] == output[..];
    Seal(output, 44);
    assert output[..44] == output[..];
  }

  /** Both replies, stopping at the first submission the port refuses. */
  method AnswerTun(output: array<Byte>, p: seq<Byte>, client: Address, dns: Address, accepts: nat)
    returns (sent: seq<seq<Byte>>, ok: bool)
    requires output.Length == 44 && |p| == 44
    modifies output
    ensures sent == if accepts < 2 then TunReplies(p, client, dns)[..accepts] else TunReplies(p, client, dns)
    ensures ok <==> accepts >= 2
  {
    DraftTun(output, p, client, dns);
    sent := [];
    var number := 1;
    ghost var draft := TunDraft(p, client, dns);
    ghost var first := TunReply(draft, 1);
    ghost var replies := [first, TunReply(first, 2)];
    assert replies == TunReplies(p, client, dns);
    while number <= 2
      invariant 1 <= number <= 3 && sent == replies[..number - 1] && accepts >= number - 1
      invariant output[..] == if number == 1 then draft else replies[number - 2]
    {
      NumberAndSeal(output, number);
      if accepts < number {
        return sent, false;
      }
      sent := sent + [output[..]];
      number := number + 1;
    }
    ok := true;
  }

  /** The in-place assembly of the answer at the front of a 1500-byte buffer. */
  method AnswerDns(output: array<Byte>, p: seq<Byte>, payload: seq<Byte>, client: Address, dns: Address)
    returns (r: seq<Byte>)
    requires output.Length == 1500 && |p| == 61 && |payload| <= 64
    modifies output
    ensures r == DnsReply(p, payload, client, dns)
  {
    var total := 28 + |payload|;
    FrontDns(output, p, payload);
    AddressDns(output, total, p, client, dns);
    Seal(output, total);
    r := output[..total];
  }

  method FrontDns(output: array<Byte>, p: seq<Byte>, payload: seq<Byte>)
    requires output.Length == 1500 && |p| == 61 && |payload| <= 64
    modifies output
    ensures output[..28 + |payload|] == DnsFront(p, payload)
  {
    var total := 28 + |payload|;
    CopyInto(output, 0, p[..28]);
    CopyInto(output, 28, payload);
    assert output[..total] == p[..28] + payload;
    StoreWithin(output, total, 6, [0, 0]);
    StoreWithin(output, total, 8, [64]);
    StoreWithin(output, total, 2, BigEndian(total, 2));
  }

  method AddressDns(output: array<Byte>, total: nat, p: seq<Byte>, client: Address, dns: Address)
    requires output.Length == 1500 && |p| == 61 && 28 <= total <= 92
    modifies output
    ensures var q3 := Put(Put(old(output[..total]), 12, dns), 16, client);
            output[..total] == Put(Put(Put(q3, 20, p[22..24]), 22, p[20..22]), 24, BigEndian(total - 20, 2))
  {
    StoreWithin(output, total, 12, dns);
    StoreWithin(output, total, 16, client);
    StoreWithin(output, total, 20, p[22..24]);
    StoreWithin(output, total, 22, p[20..22]);
    StoreWithin(output, total, 24, BigEndian(total - 20, 2));
  }

  // ----- the receive loop -----

  function BufferSize(e: Endpoint): nat { if e.Tun? then 44 else 1500 }

  /** A request in hand: build and submit its answer. */
  method AnswerRequest(output: array<Byte>, e: Endpoint, p: seq<Byte>, accepts: nat) returns (move: Move<seq<Byte>>)
    requires Request(e, p) && output.Length == BufferSize(e)
    modifies output
    ensures move == Moves(Asked(Replies(e, p), true, accepts), false)
  {
    if e.Tun? {
      var sent, answered := AnswerTun(output, p, e.client, e.dns, accepts);
      return if answered then GoesOn(sent, 1, true) else Returns(sent, PortFailed);
    }
    var built := e.build(Field16(p, 28));
    if built.BuildFails? {
      return Returns([], LibraryFailed);
    }
    if |built.bytes| != (if e.mode == 2 then 33 else 64) {
      return Returns([], Rejected);
    }
    var r := AnswerDns(output, p, built.bytes, e.client, e.dns);
    if accepts < 1 {
      return Returns([], PortFailed);
    }
    move := GoesOn([r], 1, true);
  }

  /** One pass of the loop body. */
  method Handle(output: array<Byte>, e: Endpoint, event: Event, matched: bool) returns (move: Move<seq<Byte>>)
    requires output.Length == BufferSize(e)
    modifies output
    ensures move == Moves(Seen(event, e), matched)
  {
    if event.NotYet? {
      return if event.cancelled then Returns([], Cancelled) else GoesOn([], 0, matched);
    }
    if event.ReceiveFails? {
      return Returns([], PortFailed);
    }
    var requested := Request(e, event.bytes);
    assert Seen(event, e)
        == if requested then Asked(Replies(e, event.bytes), event.acknowledged, event.accepts)
            else Other(event.acknowledged);
    if !event.acknowledged {
      return Returns([], PortFailed);
    }
    if !requested {
      return GoesOn([], 1, matched);
    }
    if matched {
      return Returns([], Rejected);
    }
    move := AnswerRequest(output, e, event.bytes, event.accepts);
  }

  /** The receive loop, for any bound on the packets observed. */
  method Serve(events: seq<Event>, e: Endpoint, limit: nat) returns (sent: seq<seq<Byte>>, outcome: Outcome)
    ensures Play(sent, outcome) == Plays(Script(events, e), limit, false)
  {
    ghost var ds := Script(events, e);
    GoesStarts(ds, limit);
    sent, outcome := Loop(events, e, limit, ds, Plays(ds, limit, false));
  }

  method Loop(events: seq<Event>, e: Endpoint, limit: nat, ghost ds: seq<Delivery<seq<Byte>>>,
              ghost whole: Play<seq<Byte>>)
    returns (sent: seq<seq<Byte>>, outcome: Outcome)
    requires |ds| == |events| && forall i {:trigger Seen(events[i], e)} | 0 <= i < |ds| :: ds[i] == Seen(events[i], e)
    requires Goes(whole, ds, 0, limit, false, [])
    ensures whole == Play(sent, outcome)
  {
    sent := [];
    var output := new Byte[BufferSize(e)](i => 0);
    var observed, at, matched := 0, 0, false;
    while observed < limit
      invariant 0 <= at <= |events| && observed <= limit
      invariant Goes(whole, ds, at, limit - observed, matched, sent)
      decreases |events| - at
    {
      if at == |events| {
        GoesEnds(whole, ds, at, limit - observed, matched, sent);
        return sent, StillWaiting;
      }
      var move := Handle(output, e, events[at], matched);
      GoesStep(whole, ds, at, limit - observed, matched, sent);
      sent := sent + move.sent;
      if move.Returns? {
        return sent, move.outcome;
      }
      at, observed, matched := at + 1, observed + move.observed, move.matched;
    }
    GoesEnds(whole, ds, at, limit - observed, matched, sent);
    outcome := Rejected;
  }

  method RunTun(events: seq<Event>, client: Address, dns: Address, mtu: nat, relayAccepts: seq<Byte> -> bool)
    returns (sent: seq<seq<Byte>>, outcome: Outcome)
    ensures Play(sent, outcome) == if 44 <= mtu <= 1500 && client != [0, 0, 0, 0] && dns != [0, 0, 0, 0]
                                   then Plays(Script(events, TunEndpoint(client, dns, relayAccepts)), 64, false)
                                   else Play([], Rejected)
  {
    if mtu < 44 || mtu > 1500 || client == ZERO || dns == ZERO {
      return [], Rejected;
    }
    sent, outcome := Serve(events, TunEndpoint(client, dns, relayAccepts), 64);
  }

  method RunDns(events: seq<Event>, client: Address, dns: Address, mtu: nat, mode: nat,
                asksForUpdates: seq<Byte> -> bool, build: nat -> Built)
    returns (sent: seq<seq<Byte>>, outcome: Outcome)
    ensures Play(sent, outcome) == if && 1280 <= mtu <= 1500 && 1 <= mode <= 2
                                      && client != [0, 0, 0, 0] && dns != [0, 0, 0, 0]
                                   then Plays(Script(events, DnsEndpoint(client, dns, mode, asksForUpdates, build)),
                                              64, false)
                                   else Play([], Rejected)
  {
    if mtu < 1280 || mtu > 1500 || (mode != 1 && mode != 2) || client == ZERO || dns == ZERO {
      return [], Rejected;
    }
    sent, outcome := Serve(events, DnsEndpoint(client, dns, mode, asksForUpdates, build), 64);
  }
}
