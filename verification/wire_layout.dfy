/** The bytes of every message, position by position, and what becomes of every message that is printed and
    parsed again. The numbers are those of the format, written out. */
module WireLayout {
  import opened Types
  import opened Wire

  // ---------- Where the fields stand ----------

  /** `value` in the `width` bytes from `at` on, least significant byte first. */
  ghost predicate Stands(d: seq<Byte>, at: nat, width: nat, value: nat) {
    && at + width <= |d|
    && forall i: nat {:trigger ShiftRight(value, i)} :: i < width ==> d[at + i] == ShiftRight(value, i) % 256
  }

  lemma EncodedStands(before: seq<Byte>, width: nat, value: nat, rest: seq<Byte>)
    ensures Stands(before + Encode(width, value) + rest, |before|, width, value)
  {
    EncodeLength(width, value);
    forall i: nat | i < width
      ensures (before + Encode(width, value) + rest)[|before| + i] == ShiftRight(value, i) % 256
    {
      EncodeAt(width, value, i);
    }
  }

  /** A field standing somewhere takes up exactly the bytes of its encoding. */
  lemma StandsIsSlice(d: seq<Byte>, at: nat, width: nat, value: nat)
    ensures Stands(d, at, width, value) <==> at + width <= |d| && d[at..at + width] == Encode(width, value)
  {
    EncodeLength(width, value);
    if at + width <= |d| {
      assert d[..at] + d[at..at + width] + d[at + width..] == d;
      if d[at..at + width] == Encode(width, value) {
        EncodedStands(d[..at], width, value, d[at + width..]);
      }
      if Stands(d, at, width, value) {
        forall i: nat | i < width ensures d[at..at + width][i] == Encode(width, value)[i] {
          EncodeAt(width, value, i);
        }
      }
    }
  }

  ghost predicate TicketStands(d: seq<Byte>, at: nat, t: Ticket) {
    Stands(d, at, 4, t.pid) && Stands(d, at + 4, 8, t.ts)
  }

  lemma TicketIsSlice(d: seq<Byte>, at: nat, t: Ticket)
    ensures |TicketBytes(t)| == 12
    ensures TicketStands(d, at, t) <==> at + 12 <= |d| && d[at..at + 12] == TicketBytes(t)
  {
    EncodeLength(4, t.pid);
    EncodeLength(8, t.ts);
    StandsIsSlice(d, at, 4, t.pid);
    StandsIsSlice(d, at + 4, 8, t.ts);
    if at + 12 <= |d| {
      assert d[at..at + 12] == d[at..at + 4] + d[at + 4..at + 12];
      assert d[at..at + 12][..4] == d[at..at + 4] && d[at..at + 12][4..] == d[at + 4..at + 12];
      assert TicketBytes(t)[..4] == Encode(4, t.pid) && TicketBytes(t)[4..] == Encode(8, t.ts);
    }
  }

  /** The participants one after another, four bytes each, from `at` to the end. */
  ghost predicate PidsStand(d: seq<Byte>, at: nat, ps: seq<nat>) {
    |d| == at + 4 * |ps| && forall k: nat {:trigger ps[k]} :: k < |ps| ==> Stands(d, at + 4 * k, 4, ps[k])
  }

  lemma {:induction false} PidBytesLength(ps: seq<nat>)
    ensures |PidBytes(ps)| == 4 * |ps|
  {
    if ps != [] {
      PidBytesLength(ps[..|ps| - 1]);
      EncodeLength(4, ps[|ps| - 1]);
    }
  }

  lemma {:induction false} PidsAreSlice(d: seq<Byte>, at: nat, ps: seq<nat>)
    requires at <= |d|
    ensures PidsStand(d, at, ps) <==> d[at..] == PidBytes(ps)
  {
    PidBytesLength(ps);
    if ps != [] && |d| == at + 4 * |ps| {
      var n := |ps| - 1;
      var front := d[..at + 4 * n];
      PidBytesLength(ps[..n]);
      PidsAreSlice(front, at, ps[..n]);
      StandsIsSlice(d, at + 4 * n, 4, ps[n]);
      PidsShorten(d, at, ps);
      LastPid(d[at..], PidBytes(ps[..n]), Encode(4, ps[n]));
      assert d[at..][..4 * n] == front[at..] && d[at..][4 * n..] == d[at + 4 * n..at + 4 * n + 4];
    }
  }

  lemma LastPid(d: seq<Byte>, a: seq<Byte>, b: seq<Byte>)
    ensures d == a + b <==> |a| <= |d| && d[..|a|] == a && d[|a|..] == b
  {
    if |a| <= |d| {
      assert d == d[..|a|] + d[|a|..];
    }
  }

  lemma PidsShorten(d: seq<Byte>, at: nat, ps: seq<nat>)
    requires ps != [] && |d| == at + 4 * |ps|
    ensures var n := |ps| - 1;
            PidsStand(d, at, ps) <==> PidsStand(d[..at + 4 * n], at, ps[..n]) && Stands(d, at + 4 * n, 4, ps[n])
  {
    var n := |ps| - 1;
    forall k: nat | k < n ensures Stands(d, at + 4 * k, 4, ps[k]) <==> Stands(d[..at + 4 * n], at + 4 * k, 4, ps[k]) {
      StandsIsSlice(d, at + 4 * k, 4, ps[k]);
      StandsIsSlice(d[..at + 4 * n], at + 4 * k, 4, ps[k]);
      assert d[..at + 4 * n][at + 4 * k..at + 4 * k + 4] == d[at + 4 * k..at + 4 * k + 4];
    }
    assert forall k: nat :: k < n ==> ps[..n][k] == ps[k];
  }

  // ---------- The three formats ----------

  /** 1, then the ticket. */
  lemma RequestLayout(d: seq<Byte>, t: Ticket)
    ensures d == Bytes(Request(t)) <==> |d| == 13 && d[0] == 1 && Stands(d, 1, 4, t.pid) && Stands(d, 5, 8, t.ts)
  {
    TicketIsSlice(d, 1, t);
    if |d| == 13 {
      assert d == [d[0]] + d[1..13];
    }
  }

  /** 2, then the sender's ticket, then the ticket answered. */
  lemma ReplyLayout(d: seq<Byte>, s: Ticket, t: Ticket)
    ensures d == Bytes(Reply(s, t))
       <==> |d| == 25 && d[0] == 2 && Stands(d, 1, 4, s.pid) && Stands(d, 5, 8, s.ts)
            && Stands(d, 13, 4, t.pid) && Stands(d, 17, 8, t.ts)
  {
    TicketIsSlice(d, 1, s);
    TicketIsSlice(d, 13, t);
    if |d| == 25 {
      assert d == [d[0]] + d[1..13] + d[13..25];
    }
  }

  lemma FiveParts(d: seq<Byte>, tag: Byte, a: seq<Byte>, b: seq<Byte>, c: seq<Byte>, e: seq<Byte>)
    requires |a| == 12 && |b| == 4 && |c| == 4
    ensures d == [tag] + a + b + c + e
       <==> |d| == 21 + |e| && d[0] == tag && d[1..13] == a && d[13..17] == b && d[17..21] == c && d[21..] == e
  {
    if |d| >= 21 {
      assert d == [d[0]] + d[1..13] + d[13..17] + d[17..21] + d[21..];
    }
  }

  lemma PartyStartParts(d: seq<Byte>, s: Ticket, id: nat, count: nat, ps: seq<nat>)
    ensures d == [TAG_PARTY_START] + TicketBytes(s) + Encode(4, id) + Encode(4, count) + PidBytes(ps)
       <==> |d| >= 21 && d[0] == 3 && TicketStands(d, 1, s) && Stands(d, 13, 4, id) && Stands(d, 17, 4, count)
            && PidsStand(d, 21, ps)
  {
    TicketIsSlice(d, 1, s);
    StandsIsSlice(d, 13, 4, id);
    StandsIsSlice(d, 17, 4, count);
    EncodeLength(4, id);
    EncodeLength(4, count);
    PidBytesLength(ps);
    FiveParts(d, TAG_PARTY_START, TicketBytes(s), Encode(4, id), Encode(4, count), PidBytes(ps));
    if |d| >= 21 {
      PidsAreSlice(d, 21, ps);
    }
  }

  /** 3, then the leader's ticket, the party id and the head count in 32 bits each, then the participants. */
  lemma PartyStartLayout(d: seq<Byte>, s: Ticket, id: nat, ps: seq<nat>)
    ensures d == Bytes(PartyStart(s, id, ps))
       <==> |d| == 21 + 4 * |ps| && d[0] == 3 && Stands(d, 1, 4, s.pid) && Stands(d, 5, 8, s.ts)
            && Stands(d, 13, 4, id % 0x1_0000_0000) && Stands(d, 17, 4, |ps| % 0x1_0000_0000)
            && forall k: nat :: k < |ps| ==> Stands(d, 21 + 4 * k, 4, ps[k])
  {
    PartyStartParts(d, s, id % TWO_32, |ps| % TWO_32, ps);
  }

  // ---------- What comes back ----------

  lemma {:induction false} PidBytesConcat(a: seq<nat>, b: seq<nat>)
    ensures PidBytes(a + b) == PidBytes(a) + PidBytes(b)
  {
    if b == [] {
      assert a + b == a;
    } else {
      var n := |b| - 1;
      assert (a + b)[..|a + b| - 1] == a + b[..n];
      PidBytesConcat(a, b[..n]);
      ConcatAssoc(PidBytes(a), PidBytes(b[..n]), Encode(4, b[n]));
    }
  }

  lemma HeaderFields(s: Ticket, id: nat, count: nat, rest: seq<Byte>)
    ensures TicketBytes(s) + Encode(4, id) + Encode(4, count) + rest
         == TicketBytes(s) + (Encode(4, id) + (Encode(4, count) + rest))
  {
  }

  /** How far the parser gets with a printed party start before the participants. */
  lemma HeaderIsRead(s: Ticket, id: nat, count: nat, rest: seq<Byte>)
    requires TicketInRange(s) && id < TWO_32 && count < TWO_32
    ensures ParsePartyStart(TicketBytes(s) + (Encode(4, id) + (Encode(4, count) + rest))) ==
            if count > 1_000_000 || ReadPids(count, rest).None? then None
            else Some(PartyStart(s, id, ReadPids(count, rest).value.0))
  {
    FieldWidths(id);
    FieldWidths(count);
    var d2 := Encode(4, count) + rest;
    var d1 := Encode(4, id) + d2;
    ReadTicketExact(TicketBytes(s) + d1, s, d1);
    ReadUExact(4, d1, id, d2);
    ReadUExact(4, d2, count, rest);
  }

  /** The parser takes as many participants as it is told. */
  lemma SomeAreRead(a: seq<nat>, b: seq<nat>)
    requires forall p :: p in a ==> p < TWO_32
    ensures ReadPids(|a|, PidBytes(a + b)) == Some((a, PidBytes(b)))
  {
    PidBytesConcat(a, b);
    ReadPidsPrints(a, PidBytes(b));
  }

  lemma TagIsRead(s: Ticket, id: nat, ps: seq<nat>)
    ensures Parse(Bytes(PartyStart(s, id, ps)))
         == ParsePartyStart(TicketBytes(s) + Encode(4, id % TWO_32) + Encode(4, |ps| % TWO_32) + PidBytes(ps))
  {
    ConcatFour([TAG_PARTY_START], TicketBytes(s), Encode(4, id % TWO_32), Encode(4, |ps| % TWO_32), PidBytes(ps));
    var d := Bytes(PartyStart(s, id, ps));
    assert d[1..] == TicketBytes(s) + Encode(4, id % TWO_32) + Encode(4, |ps| % TWO_32) + PidBytes(ps);
  }

  /** `a` are the participants the count still counts. */
  lemma ComesBackAs(s: Ticket, id: nat, a: seq<nat>, b: seq<nat>, id32: nat)
    requires TicketInRange(s) && forall p :: p in a ==> p < TWO_32
    requires id32 == id % TWO_32 && |a| == |a + b| % TWO_32
    ensures Parse(Bytes(PartyStart(s, id, a + b))) == if |a| > 1_000_000 then None else Some(PartyStart(s, id32, a))
  {
    TagIsRead(s, id, a + b);
    HeaderFields(s, id32, |a|, PidBytes(a + b));
    HeaderIsRead(s, id32, |a|, PidBytes(a + b));
    SomeAreRead(a, b);
  }

  /** Every party start there is, printed and parsed: the id and the head count lose what is above 32 bits,
      as many participants are read as the count says, and a count over a million is refused. */
  lemma PartyStartComesBack(s: Ticket, id: nat, ps: seq<nat>)
    requires Typed(PartyStart(s, id, ps))
    ensures var count := |ps| % 0x1_0000_0000;
            Parse(Bytes(PartyStart(s, id, ps))) ==
            if count > 1_000_000 then None else Some(PartyStart(s, id % 0x1_0000_0000, ps[..count]))
  {
    var count := |ps| % 0x1_0000_0000;
    assert ps[..count] + ps[count..] == ps;
    assert forall p :: p in ps[..count] ==> p in ps;
    ComesBackAs(s, id, ps[..count], ps[count..], id % 0x1_0000_0000);
  }

  /** The round trip in numbers: any request and any reply; a party start with a 32-bit id and at most a
      million participants. */
  lemma RoundTripInNumbers(m: Message)
    requires Typed(m)
    ensures Parse(Bytes(m)) == Some(m)
       <==> (m.PartyStart? ==> m.partyId < 0x1_0000_0000 && |m.participants| <= 1_000_000)
  {
    RoundTripExactly(m);
  }

  /** One participant more than a million, and nothing comes back. */
  lemma CrowdIsRefused(s: Ticket, id: nat, ps: seq<nat>)
    requires Typed(PartyStart(s, id, ps)) && |ps| == 1_000_001
    ensures Parse(Bytes(PartyStart(s, id, ps))) == None
  {
    PartyStartComesBack(s, id, ps);
  }

  /** The first byte says what can be parsed; no other byte starts a message. */
  lemma FirstByteDecides(d: seq<Byte>)
    ensures d == [] || d[0] !in {1, 2, 3} ==> Parse(d).None?
    ensures Parse(d).Some? ==>
              var m := Parse(d).value;
              d[0] == if m.Request? then 1 else if m.Reply? then 2 else 3
  {
    if d != [] {
      ParsedTag(d);
    }
  }
}
