/** The byte format of messages: a printer, a parser, and the proof that they fit exactly. */
module Wire {
  import opened Types

  type Byte = b: nat | b < 256

  const TAG_REQUEST: Byte := 1
  const TAG_REPLY: Byte := 2
  const TAG_PARTY_START: Byte := 3
  const MAX_PARTICIPANTS := 1_000_000

  // ---------- Little-endian integers ----------

  /** `value >> (8 * i)` */
  function ShiftRight(value: nat, i: nat): nat {
    if i == 0 then value else ShiftRight(value, i - 1) / 256
  }

  /** `value << (8 * i)` */
  function ShiftLeft(value: nat, i: nat): nat {
    if i == 0 then value else 256 * ShiftLeft(value, i - 1)
  }

  function Encode(width: nat, value: nat): seq<Byte> {
    if width == 0 then [] else [value % 256] + Encode(width - 1, value / 256)
  }

  function Decode(bytes: seq<Byte>): nat {
    if bytes == [] then 0 else bytes[0] + 256 * Decode(bytes[1..])
  }

  /** Whether `value` fits in `width` bytes. */
  predicate Fits(width: nat, value: nat) {
    value < ShiftLeft(1, width)
  }

  lemma {:induction false} ShiftRightStep(value: nat, i: nat)
    ensures ShiftRight(value / 256, i) == ShiftRight(value, i + 1)
  {
    if i > 0 {
      ShiftRightStep(value, i - 1);
    }
  }

  lemma {:induction false} EncodeAt(width: nat, value: nat, i: nat)
    requires i < width
    ensures |Encode(width, value)| == width
    ensures Encode(width, value)[i] == ShiftRight(value, i) % 256
  {
    EncodeLength(width, value);
    if i > 0 {
      EncodeAt(width - 1, value / 256, i - 1);
      ShiftRightStep(value, i - 1);
    }
  }

  lemma {:induction false} EncodeLength(width: nat, value: nat)
    ensures |Encode(width, value)| == width
  {
    if width > 0 {
      EncodeLength(width - 1, value / 256);
    }
  }

  lemma {:induction false} DecodeEncode(width: nat, value: nat)
    requires Fits(width, value)
    ensures Decode(Encode(width, value)) == value
  {
    if width > 0 {
      DecodeEncode(width - 1, value / 256);
    }
  }

  lemma {:induction false} EncodeDecode(bytes: seq<Byte>)
    ensures Fits(|bytes|, Decode(bytes))
    ensures Encode(|bytes|, Decode(bytes)) == bytes
  {
    if bytes != [] {
      EncodeDecode(bytes[1..]);
    }
  }

  lemma {:induction false} DecodeSnoc(bytes: seq<Byte>, b: Byte)
    ensures Decode(bytes + [b]) == Decode(bytes) + ShiftLeft(b, |bytes|)
  {
    if bytes == [] {
      assert bytes + [b] == [b];
    } else {
      DecodeSnoc(bytes[1..], b);
      assert (bytes + [b])[1..] == bytes[1..] + [b];
    }
  }

  lemma ConcatAssoc(a: seq<Byte>, b: seq<Byte>, c: seq<Byte>)
    ensures a + b + c == a + (b + c)
  {
  }

  // ---------- The printer ----------

  function TicketBytes(t: Ticket): seq<Byte> {
    Encode(4, t.pid) + Encode(8, t.ts)
  }

  function PidBytes(pids: seq<nat>): seq<Byte> {
    if pids == [] then [] else PidBytes(pids[..|pids| - 1]) + Encode(4, pids[|pids| - 1])
  }

  /** The party id and the head count go through 32-bit fields. */
  function Bytes(m: Message): seq<Byte> {
    match m
    case Request(t) => [TAG_REQUEST] + TicketBytes(t)
    case Reply(s, t) => [TAG_REPLY] + TicketBytes(s) + TicketBytes(t)
    case PartyStart(s, id, ps) =>
      [TAG_PARTY_START] + TicketBytes(s) + Encode(4, id % TWO_32) + Encode(4, |ps| % TWO_32) + PidBytes(ps)
  }

  // ---------- The parser ----------

  function ReadU(width: nat, d: seq<Byte>): Option<(nat, seq<Byte>)> {
    if |d| < width then None else Some((Decode(d[..width]), d[width..]))
  }

  function ReadTicket(d: seq<Byte>): Option<(Ticket, seq<Byte>)> {
    match ReadU(4, d)
    case None => None
    case Some((pid, d1)) =>
      match ReadU(8, d1)
      case None => None
      case Some((ts, d2)) => Some((Ticket(pid, ts), d2))
  }

  function ReadPids(count: nat, d: seq<Byte>): Option<(seq<nat>, seq<Byte>)> {
    if count == 0 then Some(([], d))
    else
      match ReadPids(count - 1, d)
      case None => None
      case Some((ps, d1)) =>
        match ReadU(4, d1)
        case None => None
        case Some((p, d2)) => Some((ps + [p], d2))
  }

  function ParsePartyStart(d: seq<Byte>): Option<Message> {
    match ReadTicket(d)
    case None => None
    case Some((s, d1)) =>
      match ReadU(4, d1)
      case None => None
      case Some((id, d2)) =>
        match ReadU(4, d2)
        case None => None
        case Some((count, d3)) =>
          if count > MAX_PARTICIPANTS then None
          else
            match ReadPids(count, d3)
            case None => None
            case Some((ps, _)) => Some(PartyStart(s, id, ps))
  }

  function ParseReply(d: seq<Byte>): Option<Message> {
    match ReadTicket(d)
    case None => None
    case Some((s, d1)) =>
      match ReadTicket(d1)
      case None => None
      case Some((t, _)) => Some(Reply(s, t))
  }

  function ParseRequest(d: seq<Byte>): Option<Message> {
    match ReadTicket(d)
    case None => None
    case Some((t, _)) => Some(Request(t))
  }

  function Parse(d: seq<Byte>): Option<Message> {
    if d == [] then None
    else if d[0] == TAG_REQUEST then ParseRequest(d[1..])
    else if d[0] == TAG_REPLY then ParseReply(d[1..])
    else if d[0] == TAG_PARTY_START then ParsePartyStart(d[1..])
    else None
  }

  // ---------- Exactness, field by field ----------

  predicate TicketInRange(t: Ticket) {
    t.pid < TWO_32 && t.ts < TWO_64
  }

  /** What the field types of the message structs allow. */
  ghost predicate Typed(m: Message) {
    match m
    case Request(t) => TicketInRange(t)
    case Reply(s, t) => TicketInRange(s) && TicketInRange(t)
    case PartyStart(s, id, ps) => TicketInRange(s) && id < TWO_64 && forall p :: p in ps ==> p < TWO_32
  }

  /** What in addition the wire can carry. */
  predicate Carried(m: Message) {
    m.PartyStart? ==> m.partyId < TWO_32 && |m.participants| <= MAX_PARTICIPANTS
  }

  lemma FieldWidths(v: nat)
    ensures Fits(4, v) <==> v < TWO_32
    ensures Fits(8, v) <==> v < TWO_64
  {
    assert ShiftLeft(1, 4) == 0x1_0000_0000;
    assert ShiftLeft(1, 8) == 0x100_0000 * ShiftLeft(1, 5);
  }

  lemma ReadUExact(width: nat, d: seq<Byte>, v: nat, rest: seq<Byte>)
    ensures ReadU(width, d) == Some((v, rest)) <==> Fits(width, v) && d == Encode(width, v) + rest
  {
    if |d| >= width {
      EncodeDecode(d[..width]);
      assert d == d[..width] + d[width..];
    }
    if Fits(width, v) && d == Encode(width, v) + rest {
      EncodeLength(width, v);
      DecodeEncode(width, v);
      assert d[..width] == Encode(width, v) && d[width..] == rest;
    }
  }

  lemma ReadTicketExact(d: seq<Byte>, t: Ticket, rest: seq<Byte>)
    ensures ReadTicket(d) == Some((t, rest)) <==> TicketInRange(t) && d == TicketBytes(t) + rest
  {
    FieldWidths(t.pid);
    FieldWidths(t.ts);
    ReadUExact(4, d, t.pid, Encode(8, t.ts) + rest);
    ReadUExact(8, Encode(8, t.ts) + rest, t.ts, rest);
    assert TicketBytes(t) + rest == Encode(4, t.pid) + (Encode(8, t.ts) + rest);
    if ReadTicket(d) == Some((t, rest)) {
      var d1 := ReadU(4, d).value.1;
      ReadUExact(4, d, t.pid, d1);
      ReadUExact(8, d1, t.ts, rest);
    }
  }

  lemma {:induction false} ReadPidsPrints(ps: seq<nat>, rest: seq<Byte>)
    requires forall p :: p in ps ==> p < TWO_32
    ensures ReadPids(|ps|, PidBytes(ps) + rest) == Some((ps, rest))
  {
    if ps == [] {
      assert PidBytes(ps) + rest == rest;
    } else {
      var front, last := ps[..|ps| - 1], ps[|ps| - 1];
      assert forall p :: p in front ==> p in ps;
      FieldWidths(last);
      ReadPidsPrints(front, Encode(4, last) + rest);
      ReadUExact(4, Encode(4, last) + rest, last, rest);
      ConcatAssoc(PidBytes(front), Encode(4, last), rest);
      assert last in ps && front + [last] == ps;
      assert ReadPids(|ps| - 1, PidBytes(ps) + rest) == Some((front, Encode(4, last) + rest));
    }
  }

  lemma {:induction false} ReadPidsParses(count: nat, d: seq<Byte>)
    requires ReadPids(count, d).Some?
    ensures var (ps, rest) := ReadPids(count, d).value;
            |ps| == count && (forall p :: p in ps ==> p < TWO_32) && d == PidBytes(ps) + rest
  {
    if count > 0 {
      ReadPidsParses(count - 1, d);
      var (front, d1) := ReadPids(count - 1, d).value;
      var (last, rest) := ReadU(4, d1).value;
      ReadUExact(4, d1, last, rest);
      FieldWidths(last);
      assert (front + [last])[..|front|] == front;
      ConcatAssoc(PidBytes(front), Encode(4, last), rest);
    }
  }

  function PartyBody(s: Ticket, id: nat, ps: seq<nat>): seq<Byte> {
    TicketBytes(s) + Encode(4, id) + Encode(4, |ps|) + PidBytes(ps)
  }

  lemma PartyStartPrints(d: seq<Byte>, s: Ticket, id: nat, ps: seq<nat>)
    requires id < TWO_32 && |ps| <= MAX_PARTICIPANTS
    requires TicketInRange(s) && (forall p :: p in ps ==> p < TWO_32) && PartyBody(s, id, ps) <= d
    ensures ParsePartyStart(d) == Some(PartyStart(s, id, ps))
  {
    FieldWidths(id);
    FieldWidths(|ps|);
    var rest := d[|PartyBody(s, id, ps)|..];
    var d3 := PidBytes(ps) + rest;
    var d2 := Encode(4, |ps|) + d3;
    var d1 := Encode(4, id) + d2;
    assert d == TicketBytes(s) + d1;
    ReadTicketExact(d, s, d1);
    ReadUExact(4, d1, id, d2);
    ReadUExact(4, d2, |ps|, d3);
    ReadPidsPrints(ps, rest);
  }

  lemma PartyStartParses(d: seq<Byte>, s: Ticket, id: nat, ps: seq<nat>)
    requires ParsePartyStart(d) == Some(PartyStart(s, id, ps))
    ensures id < TWO_32 && |ps| <= MAX_PARTICIPANTS
    ensures TicketInRange(s) && (forall p :: p in ps ==> p < TWO_32) && PartyBody(s, id, ps) <= d
  {
    var d1 := ReadTicket(d).value.1;
    var d2 := ReadU(4, d1).value.1;
    var (count, d3) := ReadU(4, d2).value;
    ReadPidsParses(count, d3);
    var rest := ReadPids(count, d3).value.1;
    FieldWidths(id);
    ReadTicketExact(d, s, d1);
    ReadUExact(4, d1, id, d2);
    ReadUExact(4, d2, |ps|, d3);
    ConcatAssoc(TicketBytes(s), Encode(4, id), d2);
    ConcatAssoc(TicketBytes(s) + Encode(4, id), Encode(4, |ps|), d3);
    ConcatAssoc(TicketBytes(s) + Encode(4, id) + Encode(4, |ps|), PidBytes(ps), rest);
    assert PartyBody(s, id, ps) + rest == d;
  }

  lemma ReplyExact(d: seq<Byte>, s: Ticket, t: Ticket)
    ensures ParseReply(d) == Some(Reply(s, t))
       <==> TicketInRange(s) && TicketInRange(t) && TicketBytes(s) + TicketBytes(t) <= d
  {
    var body := TicketBytes(s) + TicketBytes(t);
    if body <= d && TicketInRange(s) && TicketInRange(t) {
      var rest := d[|body|..];
      assert d == TicketBytes(s) + (TicketBytes(t) + rest);
      ReadTicketExact(d, s, TicketBytes(t) + rest);
      ReadTicketExact(TicketBytes(t) + rest, t, rest);
    }
    if ParseReply(d) == Some(Reply(s, t)) {
      var d1 := ReadTicket(d).value.1;
      var rest := ReadTicket(d1).value.1;
      ReadTicketExact(d, s, d1);
      ReadTicketExact(d1, t, rest);
      assert d == body + rest;
    }
  }

  lemma RequestExact(d: seq<Byte>, t: Ticket)
    ensures ParseRequest(d) == Some(Request(t)) <==> TicketInRange(t) && TicketBytes(t) <= d
  {
    if TicketBytes(t) <= d && TicketInRange(t) {
      ReadTicketExact(d, t, d[|TicketBytes(t)|..]);
    }
    if ParseRequest(d) == Some(Request(t)) {
      ReadTicketExact(d, t, ReadTicket(d).value.1);
    }
  }

  // ---------- Exactness of the format ----------

  lemma TagFirst(tag: Byte, body: seq<Byte>, d: seq<Byte>)
    ensures [tag] + body <= d <==> d != [] && d[0] == tag && body <= d[1..]
  {
    if [tag] + body <= d {
      assert d[1..][..|body|] == d[..1 + |body|][1..] == body;
    }
    if d != [] && d[0] == tag && body <= d[1..] {
      assert d == [tag] + d[1..];
    }
  }

  /** An encoding as its tag and the rest. */
  function Body(m: Message): seq<Byte> {
    match m
    case Request(t) => TicketBytes(t)
    case Reply(s, t) => TicketBytes(s) + TicketBytes(t)
    case PartyStart(s, id, ps) => PartyBody(s, id % TWO_32, ps)
  }

  function Tag(m: Message): Byte {
    match m
    case Request(_) => TAG_REQUEST
    case Reply(_, _) => TAG_REPLY
    case PartyStart(_, _, _) => TAG_PARTY_START
  }

  lemma BytesSplit(m: Message)
    requires Carried(m)
    ensures Bytes(m) == [Tag(m)] + Body(m)
  {
    match m
    case Request(t) =>
    case Reply(s, t) => ConcatAssoc([TAG_REPLY], TicketBytes(s), TicketBytes(t));
    case PartyStart(s, id, ps) => PartyBytesSplit(s, id, ps);
  }

  lemma PartyBytesSplit(s: Ticket, id: nat, ps: seq<nat>)
    requires |ps| < TWO_32
    ensures Bytes(PartyStart(s, id, ps)) == [TAG_PARTY_START] + PartyBody(s, id % TWO_32, ps)
  {
    assert |ps| % TWO_32 == |ps|;
    ConcatFour([TAG_PARTY_START], TicketBytes(s), Encode(4, id % TWO_32), Encode(4, |ps|), PidBytes(ps));
  }

  lemma ConcatFour(tag: seq<Byte>, a: seq<Byte>, b: seq<Byte>, c: seq<Byte>, d: seq<Byte>)
    ensures tag + a + b + c + d == tag + (a + b + c + d)
  {
  }

  predicate ParsesAs(d: seq<Byte>, m: Message) {
    match m
    case Request(_) => ParseRequest(d) == Some(m)
    case Reply(_, _) => ParseReply(d) == Some(m)
    case PartyStart(_, _, _) => ParsePartyStart(d) == Some(m)
  }

  lemma BodyIsExact(d: seq<Byte>, m: Message)
    requires Typed(m) && Carried(m)
    ensures ParsesAs(d, m) <==> Body(m) <= d
  {
    match m
    case Request(t) => RequestExact(d, t);
    case Reply(s, t) => ReplyExact(d, s, t);
    case PartyStart(s, id, ps) => PartyStartExact(d, s, id, ps);
  }

  lemma PartyStartExact(d: seq<Byte>, s: Ticket, id: nat, ps: seq<nat>)
    requires Typed(PartyStart(s, id, ps)) && Carried(PartyStart(s, id, ps))
    ensures ParsePartyStart(d) == Some(PartyStart(s, id, ps)) <==> PartyBody(s, id % TWO_32, ps) <= d
  {
    assert id % TWO_32 == id;
    if ParsePartyStart(d) == Some(PartyStart(s, id, ps)) {
      PartyStartParses(d, s, id, ps);
    }
    if PartyBody(s, id, ps) <= d {
      PartyStartPrints(d, s, id, ps);
    }
  }

  /** The parser yields a message exactly on the extensions of that message's encoding. */
  lemma FormatIsExact(d: seq<Byte>, m: Message)
    requires Typed(m) && Carried(m)
    ensures Parse(d) == Some(m) <==> Bytes(m) <= d
  {
    BytesSplit(m);
    TagFirst(Tag(m), Body(m), d);
    if d != [] {
      BodyIsExact(d[1..], m);
      ParsedTag(d);
    }
  }

  lemma ParsedTag(d: seq<Byte>)
    requires d != []
    ensures Parse(d).Some? ==> d[0] == Tag(Parse(d).value)
  {
  }

  /** Whatever bytes arrive, a parsed message is one the wire can carry. */
  lemma ParsedIsInRange(d: seq<Byte>)
    requires Parse(d).Some?
    ensures Typed(Parse(d).value) && Carried(Parse(d).value)
  {
    var m := Parse(d).value;
    match m {
      case Request(t) => RequestExact(d[1..], t);
      case Reply(s, t) => ReplyExact(d[1..], s, t);
      case PartyStart(s, id, ps) =>
        PartyStartParses(d[1..], s, id, ps);
    }
  }

  /** Round trip, and exactly when: the 32-bit party id and the parser's head-count cap decide. */
  lemma RoundTripExactly(m: Message)
    requires Typed(m)
    ensures Parse(Bytes(m)) == Some(m) <==> Carried(m)
  {
    if Carried(m) {
      FormatIsExact(Bytes(m), m);
    }
    if Parse(Bytes(m)) == Some(m) {
      ParsedIsInRange(Bytes(m));
    }
  }

  lemma EncodingIsInjective(m: Message, n: Message)
    requires Typed(m) && Carried(m) && Typed(n) && Carried(n)
    requires Bytes(m) == Bytes(n)
    ensures m == n
  {
    RoundTripExactly(m);
    RoundTripExactly(n);
  }

  /** No message is cut short into another one: proper prefixes of an encoding do not parse. */
  lemma ProperPrefixIsRejected(m: Message, k: nat)
    requires Typed(m) && Carried(m) && k < |Bytes(m)|
    ensures Parse(Bytes(m)[..k]).None?
  {
    var d := Bytes(m)[..k];
    RoundTripExactly(m);
    if Parse(d).Some? {
      ParsedIsInRange(d);
      FormatIsExact(d, Parse(d).value);
      FormatIsExact(Bytes(m), Parse(d).value);
    }
  }

  lemma SameBytes(s: Ticket, id: nat, id': nat, ps: seq<nat>)
    requires id % TWO_32 == id' % TWO_32
    ensures Bytes(PartyStart(s, id, ps)) == Bytes(PartyStart(s, id', ps))
  {
  }

  /** A 64-bit party id that leaves the 32-bit range comes back as another message. */
  lemma WidePartyIdIsLost(s: Ticket, id: nat, ps: seq<nat>)
    requires Typed(PartyStart(s, id, ps)) && |ps| <= MAX_PARTICIPANTS
    ensures Parse(Bytes(PartyStart(s, id, ps))) == Some(PartyStart(s, id % TWO_32, ps))
  {
    assert id % TWO_32 % TWO_32 == id % TWO_32;
    SameBytes(s, id, id % TWO_32, ps);
    RoundTripExactly(PartyStart(s, id % TWO_32, ps));
  }

  // ---------- The classes ----------

  class ByteWriter {
    var out: seq<Byte>

    constructor ()
      ensures out == []
    {
      out := [];
    }

    /** Appends the low `width` bytes of `value`, least significant first. */
    method U(width: nat, value: nat)
      modifies this
      ensures out == old(out) + Encode(width, value)
    {
      EncodeLength(width, value);
      var i := 0;
      while i < width
        invariant 0 <= i <= width
        invariant out == old(out) + Encode(width, value)[..i]
      {
        EncodeAt(width, value, i);
        out := out + [ShiftRight(value, i) % 256];
        i := i + 1;
      }
      assert Encode(width, value)[..i] == Encode(width, value);
    }

    method PutByte(b: Byte)
      modifies this
      ensures out == old(out) + [b]
    {
      out := out + [b];
    }

    method PutTicket(t: Ticket)
      modifies this
      ensures out == old(out) + TicketBytes(t)
    {
      ConcatAssoc(out, Encode(4, t.pid), Encode(8, t.ts));
      U(4, t.pid);
      U(8, t.ts);
    }

    method PutPartyBody(id: nat, count: nat, pids: seq<nat>)
      modifies this
      ensures out == old(out) + Encode(4, id) + Encode(4, count) + PidBytes(pids)
    {
      U(4, id);
      U(4, count);
      PutPids(pids);
    }

    method PutPids(pids: seq<nat>)
      modifies this
      ensures out == old(out) + PidBytes(pids)
    {
      var i := 0;
      while i < |pids|
        invariant 0 <= i <= |pids|
        invariant out == old(out) + PidBytes(pids[..i])
      {
        assert pids[..i + 1][..i] == pids[..i];
        ConcatAssoc(old(out), PidBytes(pids[..i]), Encode(4, pids[i]));
        U(4, pids[i]);
        i := i + 1;
      }
      assert pids[..i] == pids;
    }
  }

  /** A printed message parses back whenever the wire can carry it. */
  lemma PrintedParses(m: Message)
    ensures Typed(m) && Carried(m) ==> Parse(Bytes(m)) == Some(m)
  {
    if Typed(m) {
      RoundTripExactly(m);
    }
  }

  method Serialize(m: Message) returns (bytes: seq<Byte>)
    ensures bytes == Bytes(m)
    ensures Typed(m) && Carried(m) ==> Parse(bytes) == Some(m)
  {
    PrintedParses(m);
    match m
    case Request(t) => bytes := SerializeRequest(t);
    case Reply(s, t) => bytes := SerializeReply(s, t);
    case PartyStart(s, id, ps) => bytes := SerializePartyStart(s, id, ps);
  }

  method SerializeRequest(t: Ticket) returns (bytes: seq<Byte>)
    ensures bytes == [TAG_REQUEST] + TicketBytes(t)
  {
    var w := new ByteWriter();
    w.PutByte(TAG_REQUEST);
    w.PutTicket(t);
    bytes := w.out;
  }

  method SerializeReply(s: Ticket, t: Ticket) returns (bytes: seq<Byte>)
    ensures bytes == [TAG_REPLY] + TicketBytes(s) + TicketBytes(t)
  {
    var w := new ByteWriter();
    w.PutByte(TAG_REPLY);
    w.PutTicket(s);
    w.PutTicket(t);
    bytes := w.out;
  }

  method SerializePartyStart(s: Ticket, id: nat, ps: seq<nat>) returns (bytes: seq<Byte>)
    ensures bytes == [TAG_PARTY_START] + TicketBytes(s) + Encode(4, id % TWO_32) + Encode(4, |ps| % TWO_32) + PidBytes(ps)
  {
    var w := new ByteWriter();
    w.PutByte(TAG_PARTY_START);
    w.PutTicket(s);
    w.PutPartyBody(id % TWO_32, |ps| % TWO_32, ps);
    bytes := w.out;
  }

  class ByteReader {
    const data: seq<Byte>
    var off: nat

    ghost predicate Valid()
      reads this
    {
      off <= |data|
    }

    /** The bytes not read yet. */
    ghost function Rest(): seq<Byte>
      requires Valid()
      reads this
    {
      data[off..]
    }

    constructor (data: seq<Byte>)
      ensures this.data == data && off == 0 && Valid()
    {
      this.data := data;
      off := 0;
    }

    method Remaining() returns (n: nat)
      requires Valid()
      ensures n == |Rest()|
    {
      n := |data| - off;
    }

    method GetByte() returns (ok: bool, b: Byte)
      requires Valid()
      modifies this
      ensures Valid()
      ensures ok == (old(Rest()) != [])
      ensures ok ==> b == old(Rest())[0] && Rest() == old(Rest())[1..]
      ensures !ok ==> Rest() == old(Rest())
    {
      var n := Remaining();
      if n < 1 { return false, 0; }
      b := data[off];
      off := off + 1;
      ok := true;
    }

    method U(width: nat) returns (ok: bool, value: nat)
      requires Valid()
      modifies this
      ensures Valid()
      ensures ReadU(width, old(Rest())) == if ok then Some((value, Rest())) else None
      ensures !ok ==> Rest() == old(Rest())
    {
      var n := Remaining();
      if n < width { return false, 0; }
      value := 0;
      var i := 0;
      ghost var start := off;
      while i < width
        invariant 0 <= i <= width && off == start + i && Valid()
        invariant value == Decode(data[start..start + i])
      {
        DecodeSnoc(data[start..off], data[off]);
        assert data[start..off + 1] == data[start..off] + [data[off]];
        value := value + ShiftLeft(data[off], i);
        off := off + 1;
        i := i + 1;
      }
      assert old(Rest())[..width] == data[start..off];
      ok := true;
    }

    method GetTicket() returns (ok: bool, t: Ticket)
      requires Valid()
      modifies this
      ensures Valid()
      ensures ReadTicket(old(Rest())) == if ok then Some((t, Rest())) else None
    {
      t := Ticket(0, 0);
      var ok1, pid := U(4);
      if !ok1 { return false, t; }
      var ok2, ts := U(8);
      if !ok2 { return false, t; }
      return true, Ticket(pid, ts);
    }
  }

  method Deserialize(data: seq<Byte>) returns (m: Option<Message>)
    ensures m == Parse(data)
    ensures m.Some? ==> Bytes(m.value) <= data
  {
    if Parse(data).Some? {
      ParsedIsInRange(data);
      FormatIsExact(data, Parse(data).value);
    }
    var r := new ByteReader(data);
    assert r.Rest() == data;
    var hasTag, tag := r.GetByte();
    if !hasTag { return None; }
    if tag == TAG_REQUEST {
      var ok, t := r.GetTicket();
      m := if ok then Some(Request(t)) else None;
    } else if tag == TAG_REPLY {
      var okS, s := r.GetTicket();
      if !okS { return None; }
      var okT, t := r.GetTicket();
      m := if okT then Some(Reply(s, t)) else None;
    } else if tag == TAG_PARTY_START {
      m := GetPartyStart(r);
    } else {
      m := None;
    }
  }

  method GetPartyStart(r: ByteReader) returns (m: Option<Message>)
    requires r.Valid()
    modifies r
    ensures m == ParsePartyStart(old(r.Rest()))
  {
    var okS, s := r.GetTicket();
    if !okS { return None; }
    var okId, id := r.U(4);
    if !okId { return None; }
    var okCount, count := r.U(4);
    if !okCount { return None; }
    if count > MAX_PARTICIPANTS { return None; }
    var participants: seq<nat> := [];
    ghost var body := r.Rest();
    var i := 0;
    while i < count
      invariant 0 <= i <= count && r.Valid()
      invariant ReadPids(i, body) == Some((participants, r.Rest()))
    {
      var okPid, pid := r.U(4);
      if !okPid {
        ReadPidsStops(i + 1, count, body);
        return None;
      }
      participants := participants + [pid];
      i := i + 1;
    }
    m := Some(PartyStart(s, id, participants));
  }

  lemma {:induction false} ReadPidsStops(i: nat, count: nat, d: seq<Byte>)
    requires i <= count && ReadPids(i, d).None?
    ensures ReadPids(count, d).None?
  {
    if i < count {
      ReadPidsStops(i, count - 1, d);
    }
  }
}
