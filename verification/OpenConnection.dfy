/** The second open-connection request: two wire layouts, with and without a cookie, and the
    parser that tells them apart (src/handshake/open_connection.rs, src/handshake/mod.rs), with
    the socket address codec (src/protocol/primitives.rs). */
module OpenConnection {
  import opened Base
  import opened Wire

  type Octets4 = s: Bytes | |s| == 4 witness [0, 0, 0, 0]

  type Octets16 = s: Bytes | |s| == 16 witness seq(16, _ => 0)

  type Magic = Octets16

  datatype Addr = V4(ip: Octets4, port: u16) | V6(ip6: Octets16, port6: u16, flow: u32, scope: u32)

  const MINIMUM_MTU: u16 := 576
  const MAXIMUM_MTU: u16 := 1400
  const REQUEST_2_ID: u8 := 7

  datatype ParsePath =
    | StrictNoCookie
    | StrictWithCookie
    | AmbiguousPreferredNoCookie
    | AmbiguousPreferredWithCookie
    | LegacyHeuristic

  /** The fields both layouts carry. */
  datatype Candidate = Candidate(addr: Addr, mtu: u16, guid: u64, cookie: Option<u32>, proof: bool)

  datatype Request2 = Request2(content: Candidate, path: ParsePath, magic: Magic)

  // ----- addresses -----

  function Complement(s: Bytes): (r: Bytes)
    ensures |r| == |s|
  {
    seq(|s|, i requires 0 <= i < |s| => 255 - s[i])
  }

  lemma ComplementTwice(s: Bytes)
    ensures Complement(Complement(s)) == s
  {
  }

  function EncodeAddr(a: Addr): (s: Bytes)
    ensures |s| == if a.V4? then 7 else 29
  {
    match a
    case V4(ip, port) => [4] + (Complement(ip) + EncodeU16(port))
    case V6(ip, port, flow, scope) => [6] + ([23, 0] + (EncodeU16(port) + (EncodeU32(flow) + (ip + EncodeU32(scope)))))
  }

  function DecodeAddr(src: Bytes): Decoded<Addr> {
    Widths();
    if src == [] then Err(UnexpectedEof)
    else
      var rest := src[1..];
      if src[0] == 4 then
        if |rest| < 6 then Err(UnexpectedEof)
        else Ok(Parsed(V4(Complement(rest[..4]), FromBigEndian(rest[4..6])), rest[6..]))
      else if src[0] == 6 then
        if |rest| < 28 then Err(UnexpectedEof)
        else Ok(Parsed(V6(rest[8..24], FromBigEndian(rest[2..4]), FromBigEndian(rest[4..8]), FromBigEndian(rest[24..28])), rest[28..]))
      else Err(InvalidAddrVersion)
  }

  lemma SlicesV4(ip: Bytes, port: Bytes, tail: Bytes)
    requires |ip| == 4 && |port| == 2
    ensures var rest := (ip + port) + tail; rest[..4] == ip && rest[4..6] == port && rest[6..] == tail
  {
  }

  lemma SlicesV6(family: Bytes, port: Bytes, flow: Bytes, ip: Bytes, scope: Bytes, tail: Bytes)
    requires |family| == 2 && |port| == 2 && |flow| == 4 && |ip| == 16 && |scope| == 4
    ensures var rest := (family + (port + (flow + (ip + scope)))) + tail;
            && |rest| == 28 + |tail| && rest[2..4] == port && rest[4..8] == flow && rest[8..24] == ip
            && rest[24..28] == scope && rest[28..] == tail
  {
  }

  lemma FirstByte(b: u8, body: Bytes, tail: Bytes)
    ensures (([b] + body) + tail)[1..] == body + tail
  {
  }

  lemma AddrRoundTrip(a: Addr, tail: Bytes)
    ensures DecodeAddr(EncodeAddr(a) + tail) == Ok(Parsed(a, tail))
  {
    if a.V4? { RoundTripV4(a.ip, a.port, tail); } else { RoundTripV6(a.ip6, a.port6, a.flow, a.scope, tail); }
  }

  lemma RoundTripV4(ip: Octets4, port: u16, tail: Bytes)
    ensures DecodeAddr(EncodeAddr(V4(ip, port)) + tail) == Ok(Parsed(V4(ip, port), tail))
  {
    Widths();
    BigEndianRoundTrip(port, 2);
    ComplementTwice(ip);
    FirstByte(4, Complement(ip) + EncodeU16(port), tail);
    SlicesV4(Complement(ip), EncodeU16(port), tail);
  }

  lemma RoundTripV6(ip: Octets16, port: u16, flow: u32, scope: u32, tail: Bytes)
    ensures DecodeAddr(EncodeAddr(V6(ip, port, flow, scope)) + tail) == Ok(Parsed(V6(ip, port, flow, scope), tail))
  {
    Widths();
    BigEndianRoundTrip(port, 2);
    BigEndianRoundTrip(flow, 4);
    BigEndianRoundTrip(scope, 4);
    FirstByte(6, [23, 0] + (EncodeU16(port) + (EncodeU32(flow) + (ip + EncodeU32(scope)))), tail);
    SlicesV6([23, 0], EncodeU16(port), EncodeU32(flow), ip, EncodeU32(scope), tail);
  }

  // ----- one layout -----

  /** Address, MTU and identifier, and nothing after them. */
  function ParseFields(src: Bytes, cookie: Option<u32>, proof: bool): Result<Candidate, DecodeError> {
    match DecodeAddr(src)
    case Err(e) => Err(e)
    case Ok(addr) =>
      match DecodeU16(addr.rest)
      case Err(e) => Err(e)
      case Ok(mtu) =>
        match DecodeU64(mtu.rest)
        case Err(e) => Err(e)
        case Ok(guid) =>
          if guid.rest != [] then Err(InvalidRequest2Layout)
          else Ok(Candidate(addr.value, mtu.value, guid.value, cookie, proof))
  }

  function ParseCandidate(body: Bytes, withCookie: bool, strict: bool): Result<Candidate, DecodeError> {
    Widths();
    if !withCookie then ParseFields(body, None, false)
    else if |body| < 5 then Err(UnexpectedEof)
    else if strict && body[4] > 1 then Err(InvalidRequest2Layout)
    else ParseFields(body[5..], Some(FromBigEndian(body[..4])), body[4] == 1)
  }

  /** Without a cookie a request has one of two lengths, told by the address version. */
  predicate Plain(body: Bytes) { (|body| == 17 && body[0] == 4) || (|body| == 39 && body[0] == 6) }

  /** A cookie and a proof byte come first. */
  predicate WithCookie(body: Bytes) { |body| >= 5 && Plain(body[5..]) }

  lemma FieldsIff(src: Bytes, cookie: Option<u32>, proof: bool)
    ensures ParseFields(src, cookie, proof).Ok? <==> Plain(src)
  {
  }

  /** Exactly which byte strings each layout accepts. */
  lemma CandidateIff(body: Bytes, withCookie: bool, strict: bool)
    ensures ParseCandidate(body, withCookie, strict).Ok?
       <==> if withCookie then WithCookie(body) && (strict ==> body[4] <= 1) else Plain(body)
  {
    FieldsIff(body, None, false);
    Widths();
    if |body| >= 5 { FieldsIff(body[5..], Some(FromBigEndian(body[..4])), body[4] == 1); }
  }

  /** No byte string fits both layouts. */
  lemma OneLayout(body: Bytes)
    ensures !(Plain(body) && WithCookie(body))
  {
  }

  // ----- choosing -----

  predicate StartsLikeAddress(body: Bytes) { body != [] && (body[0] == 4 || body[0] == 6) }

  function ParseLegacy(body: Bytes): Result<Candidate, DecodeError> {
    ParseCandidate(body, body != [] && !StartsLikeAddress(body), false)
  }

  function Choose(body: Bytes, magic: Magic): Result<Request2, DecodeError> {
    var plain, cookie := ParseCandidate(body, false, true), ParseCandidate(body, true, true);
    if plain.Ok? && cookie.Err? then Ok(Request2(plain.value, StrictNoCookie, magic))
    else if plain.Err? && cookie.Ok? then Ok(Request2(cookie.value, StrictWithCookie, magic))
    else if plain.Ok? && cookie.Ok? then
      if StartsLikeAddress(body) then Ok(Request2(plain.value, AmbiguousPreferredNoCookie, magic))
      else Ok(Request2(cookie.value, AmbiguousPreferredWithCookie, magic))
    else
      match ParseLegacy(body)
      case Err(e) => Err(e)
      case Ok(c) => Ok(Request2(c, LegacyHeuristic, magic))
  }

  function DecodeRequest2(src: Bytes, expected: Magic): Result<Request2, DecodeError> {
    if |src| < 16 then Err(UnexpectedEof)
    else if src[..16] != expected then Err(InvalidMagic)
    else Choose(src[16..], expected)
  }

  /** Every body takes exactly one of four ways: strict without a cookie, strict with one, legacy
      for a cookie layout whose proof byte is above one and whose first byte is no address
      version, or refused. The ambiguous way is never taken. */
  lemma Ways(body: Bytes, magic: Magic)
    ensures var r := Choose(body, magic);
            && (r.Ok? && r.value.path == StrictNoCookie <==> Plain(body))
            && (r.Ok? && r.value.path == StrictWithCookie <==> WithCookie(body) && body[4] <= 1)
            && (r.Ok? && r.value.path == LegacyHeuristic <==> WithCookie(body) && body[4] > 1 && body[0] != 4 && body[0] != 6)
            && (r.Ok? ==> r.value.path in {StrictNoCookie, StrictWithCookie, LegacyHeuristic} && r.value.magic == magic)
  {
    CandidateIff(body, false, true);
    CandidateIff(body, true, true);
    CandidateIff(body, true, false);
    CandidateIff(body, false, false);
    OneLayout(body);
  }

  // ----- encoding -----

  predicate MtuAllowed(mtu: u16) { MINIMUM_MTU <= mtu <= MAXIMUM_MTU }

  function EncodeFields(c: Candidate): Bytes { EncodeAddr(c.addr) + (EncodeU16(c.mtu) + EncodeU64(c.guid)) }

  function EncodeBody(c: Candidate): Bytes {
    if c.cookie.Some? then EncodeU32(c.cookie.value) + (EncodeBool(c.proof) + EncodeFields(c)) else EncodeFields(c)
  }

  function EncodeRequest2(r: Request2): Result<Bytes, EncodeError> {
    if !MtuAllowed(r.content.mtu) then Err(InvalidMtu) else Ok([REQUEST_2_ID] + (r.magic + EncodeBody(r.content)))
  }

  lemma FieldsRoundTrip(c: Candidate, cookie: Option<u32>, proof: bool)
    ensures ParseFields(EncodeFields(c), cookie, proof) == Ok(Candidate(c.addr, c.mtu, c.guid, cookie, proof))
    ensures Plain(EncodeFields(c))
  {
    AddrRoundTrip(c.addr, EncodeU16(c.mtu) + EncodeU64(c.guid));
    U16RoundTrip(c.mtu, EncodeU64(c.guid));
    U64RoundTrip(c.guid, []);
    assert EncodeU64(c.guid) + [] == EncodeU64(c.guid);
    FieldsIff(EncodeFields(c), cookie, proof);
  }

  lemma CookieBytes(cookie: u32, proof: bool, tail: Bytes)
    ensures var body := EncodeU32(cookie) + (EncodeBool(proof) + tail);
            |body| >= 5 && FromBigEndian(body[..4]) == cookie && body[4] == (if proof then 1 else 0) && body[5..] == tail
  {
    Widths();
    BigEndianRoundTrip(cookie, 4);
    assert (EncodeU32(cookie) + (EncodeBool(proof) + tail))[..4] == EncodeU32(cookie);
  }

  /** A request without a cookie has no proof on the wire. */
  predicate Carried(c: Candidate) { c.cookie.None? ==> !c.proof }

  /** What is encoded is read back, along the strict path of its layout; the same request comes
      back if and only if it does not claim a proof without a cookie. */
  lemma Request2RoundTrip(r: Request2)
    requires MtuAllowed(r.content.mtu)
    ensures var bytes := EncodeRequest2(r).value;
            var back := DecodeRequest2(bytes[1..], r.magic);
            && bytes[0] == REQUEST_2_ID
            && back == Ok(Request2(r.content.(proof := r.content.cookie.Some? && r.content.proof),
                                   if r.content.cookie.Some? then StrictWithCookie else StrictNoCookie, r.magic))
            && (back.value.content == r.content <==> Carried(r.content))
  {
    var bytes, c := EncodeRequest2(r).value, r.content;
    var body := EncodeBody(c);
    assert bytes[1..] == r.magic + body;
    assert (r.magic + body)[..16] == r.magic && (r.magic + body)[16..] == body;
    if c.cookie.Some? {
      CookieBytes(c.cookie.value, c.proof, EncodeFields(c));
      FieldsRoundTrip(c, c.cookie, c.proof);
      CandidateIff(body, false, true);
      OneLayout(body);
    } else {
      FieldsRoundTrip(c, None, false);
      CandidateIff(body, true, true);
      OneLayout(body);
    }
  }

  // ----- the codec in place -----

  method PutAddr(a: Addr, dst: Buffer)
    modifies dst
    ensures dst.bytes == old(dst.bytes) + EncodeAddr(a)
  {
    match a {
      case V4(ip, port) =>
        dst.Put([4]);
        dst.Put(Complement(ip));
        dst.Put(EncodeU16(port));
      case V6(ip, port, flow, scope) =>
        dst.Put([6]);
        dst.Put([23, 0]);
        dst.Put(EncodeU16(port));
        dst.Put(EncodeU32(flow));
        dst.Put(ip);
        dst.Put(EncodeU32(scope));
    }
    assert dst.bytes == old(dst.bytes) + EncodeAddr(a);
  }

  /** Appends the packet, or refuses the MTU after the packet id is already written. */
  method PutRequest2(r: Request2, dst: Buffer) returns (result: Result<(), EncodeError>)
    modifies dst
    ensures match EncodeRequest2(r)
            case Ok(s) => result == Ok(()) && dst.bytes == old(dst.bytes) + s
            case Err(e) => result == Err(e) && dst.bytes == old(dst.bytes) + [REQUEST_2_ID]
  {
    var c := r.content;
    dst.Put([REQUEST_2_ID]);
    if !(MINIMUM_MTU <= c.mtu <= MAXIMUM_MTU) { return Err(InvalidMtu); }
    dst.Put(r.magic);
    if c.cookie.Some? {
      dst.Put(EncodeU32(c.cookie.value));
      dst.Put(EncodeBool(c.proof));
    }
    PutFields(c, dst);
    assert dst.bytes == old(dst.bytes) + EncodeRequest2(r).value;
    result := Ok(());
  }

  method PutFields(c: Candidate, dst: Buffer)
    modifies dst
    ensures dst.bytes == old(dst.bytes) + EncodeFields(c)
  {
    PutAddr(c.addr, dst);
    dst.Put(EncodeU16(c.mtu));
    dst.Put(EncodeU64(c.guid));
  }

  method TakeAddr(src: Buffer) returns (r: Result<Addr, DecodeError>)
    modifies src
    ensures Took(DecodeAddr(old(src.bytes)), r, src.bytes)
  {
    Widths();
    ghost var start := src.bytes;
    var version := src.TakeU8();
    if version.Err? { return Err(UnexpectedEof); }
    match version.value {
      case 4 =>
        var t := src.Take(6);
        if t.Err? { return Err(UnexpectedEof); }
        assert t.value[..4] == start[1..][..4] && t.value[4..6] == start[1..][4..6] && src.bytes == start[1..][6..];
        r := Ok(V4(Complement(t.value[..4]), FromBigEndian(t.value[4..6])));
      case 6 =>
        var t := src.Take(28);
        if t.Err? { return Err(UnexpectedEof); }
        assert src.bytes == start[1..][28..] && t.value == start[1..][..28];
        assert forall i, j | 0 <= i <= j <= 28 :: t.value[i..j] == start[1..][i..j];
        r := Ok(V6(t.value[8..24], FromBigEndian(t.value[2..4]), FromBigEndian(t.value[4..8]), FromBigEndian(t.value[24..28])));
      case _ => r := Err(InvalidAddrVersion);
    }
  }

  /** Reads one layout from the bytes that remain. */
  method TakeCandidate(body: Bytes, withCookie: bool, strict: bool) returns (r: Result<Candidate, DecodeError>)
    ensures r == ParseCandidate(body, withCookie, strict)
  {
    Widths();
    var cookie: Option<u32>, proof, rest := None, false, body;
    if withCookie {
      if |rest| < 5 { return Err(UnexpectedEof); }
      cookie := Some(FromBigEndian(rest[..4]));
      if strict && rest[4] > 1 { return Err(InvalidRequest2Layout); }
      proof := rest[4] == 1;
      rest := rest[5..];
    }
    var src := new Buffer(rest);
    var addr := TakeAddr(src);
    if addr.Err? { return Err(addr.error); }
    var mtu := src.TakeU16();
    if mtu.Err? { return Err(mtu.error); }
    var guid := src.Take(8);
    if guid.Err? { return Err(UnexpectedEof); }
    if src.bytes != [] { return Err(InvalidRequest2Layout); }
    r := Ok(Candidate(addr.value, mtu.value, FromBigEndian(guid.value), cookie, proof));
  }
}
