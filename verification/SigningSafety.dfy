/**
  Signed messages read back: every field of every transaction and header is recovered, so signatures commit to all of
  the content and never carry over between transactions and blocks.
 */
module SigningSafety {
  import opened Core
  import opened Encoding
  import opened SignBytes

  // ---------------------------------------------------------------- sections

  lemma SignedUnsigned(v: int)
    requires Int64(v)
    ensures 0 <= Unsigned(v) < TWO64 && Signed(Unsigned(v)) == v
  {}

  lemma NothingThen(rest: Bytes)
    ensures Encode([]) + rest == rest
  {}

  /** A section that starts with a tag byte shows that tag. */
  lemma TagShown(tag: Byte, ts: seq<Token>, rest: Bytes)
    ensures Tag(Encode([Raw([tag])] + ts) + rest) == tag
  {
    assert ([Raw([tag])] + ts)[1..] == ts;
    assert Encode([Raw([tag])] + ts) == [tag] + Encode(ts);
  }

  lemma ScheduleBack(p: PoolPart, rest: Bytes)
    requires GoodPool(p) && Tag(rest) != 3
    ensures ReadSchedule(Encode(Schedule(p)) + rest) == Got((p.roundSecs, p.deposit), rest)
  {
    if HasSchedule(p) {
      var ts := Schedule(p);
      TagShown(3, [Num(Unsigned(p.roundSecs)), Num(p.deposit)], rest);
      assert ts == [Raw([3])] + [Num(Unsigned(p.roundSecs)), Num(p.deposit)];
      FieldsBack(ts, rest);
      assert Kinds(ts) == [KRaw(1), KNum, KNum];
    } else {
      NothingThen(rest);
    }
  }

  lemma CircleOptionKinds(p: PoolPart)
    requires GoodPool(p) && HasCircle(p)
    ensures AllEncodable(CircleOptions(p)) && Kinds(CircleOptions(p)) == [KRaw(1), KText, KNum, KNum, KText]
  {}

  lemma CircleOptionsBack(p: PoolPart, rest: Bytes)
    requires GoodPool(p) && Tag(rest) != 5
    ensures ReadCircleOptions(Encode(CircleOptions(p)) + rest) == Got((p.mode, p.insuranceBps, p.target, p.other), rest)
    ensures Tag(rest) != 3 ==> Tag(Encode(CircleOptions(p)) + rest) != 3
  {
    hide Encode, Kinds, ReadFields;
    if HasCircle(p) {
      var ts := CircleOptions(p);
      var more := [Text(p.mode), Num(p.insuranceBps), Num(p.target), Text(p.other)];
      TagShown(5, more, rest);
      assert ts == [Raw([5])] + more;
      CircleOptionKinds(p);
      FieldsBack(ts, rest);
    } else {
      NothingThen(rest);
    }
  }

  lemma Regroup(a: seq<Token>, b: seq<Token>, rest: Bytes)
    ensures Encode(a + b) + rest == Encode(a) + (Encode(b) + rest)
  {
    EncodeAppend(a, b);
  }

  lemma PoolTailBack(p: PoolPart, rest: Bytes)
    requires GoodPool(p) && Tag(rest) != 3 && Tag(rest) != 5
    ensures
      ReadPoolTail(Encode([Num(p.contribution)] + (Schedule(p) + CircleOptions(p))) + rest, PoolHead(p), p.members)
        == Got(p, rest)
  {
    hide Schedule, CircleOptions, ReadSchedule, ReadCircleOptions, Encode;
    var options := Encode(CircleOptions(p)) + rest;
    CircleOptionsBack(p, rest);
    ScheduleBack(p, options);
    Regroup(Schedule(p), CircleOptions(p), rest);
    Regroup([Num(p.contribution)], Schedule(p) + CircleOptions(p), rest);
    FieldsBack([Num(p.contribution)], Encode(Schedule(p) + CircleOptions(p)) + rest);
    assert Kinds([Num(p.contribution)]) == [KNum];
  }

  lemma PoolHeadKinds(p: PoolPart)
    requires GoodPool(p)
    ensures Kinds(PoolHead(p)) == [KRaw(1), KText, KRaw(32), KText, KNum] && AllEncodable(PoolHead(p))
      && AllEncodable(Texts(p.members))
  {}

  lemma PoolBack(p: PoolPart, rest: Bytes)
    requires GoodPool(p) && Tag(rest) != 3 && Tag(rest) != 5
    ensures ReadPool(Encode(PoolTokens(p)) + rest) == Got(p, rest)
  {
    hide Schedule, CircleOptions, ReadPoolTail, Encode, ReadTexts;
    var tail := [Num(p.contribution)] + (Schedule(p) + CircleOptions(p));
    Regroup(Texts(p.members), tail, rest);
    Regroup(PoolHead(p), Texts(p.members) + tail, rest);
    PoolHeadKinds(p);
    FieldsBack(PoolHead(p), Encode(Texts(p.members) + tail) + rest);
    TextsBack(p.members, Encode(tail) + rest);
    PoolTailBack(p, rest);
  }

  lemma MaybePoolBack(m: Message, rest: Bytes)
    requires GoodMessage(m) && Tag(rest) != 3 && Tag(rest) != 5
    ensures ReadMaybePool(Encode(PoolSection(m)) + rest) == Got(m.pool, rest)
  {
    hide ReadPool, GoodPool, GoodEscrow, GoodGuard;
    if m.pool.Some? {
      var p := m.pool.value;
      PoolBack(p, rest);
      var more := PoolTokens(p)[1..];
      assert PoolTokens(p) == [Raw([1])] + more;
      TagShown(1, more, rest);
    } else {
      TagShown(0, [], rest);
      assert [Raw([0])] + [] == [Raw([0])];
      FieldsBack([Raw([0])], rest);
      assert Encode([Raw([0])]) == [0] + Encode([]);
      assert (Encode([Raw([0])]) + rest)[1..] == rest;
    }
  }

  lemma ArbiterRateBack(x: EscrowPart, rest: Bytes)
    requires GoodEscrow(x) && Tag(rest) != 6
    ensures ReadArbiterRate(Encode(ArbiterRate(x)) + rest) == Got(x.arbiterBps, rest)
  {
    if x.arbiterBps != 0 {
      var ts := ArbiterRate(x);
      TagShown(6, [Num(x.arbiterBps)], rest);
      assert ts == [Raw([6])] + [Num(x.arbiterBps)];
      FieldsBack(ts, rest);
      assert Kinds(ts) == [KRaw(1), KNum];
    } else {
      NothingThen(rest);
    }
  }

  lemma EscrowKinds(x: EscrowPart)
    requires GoodEscrow(x)
    ensures Kinds(EscrowHead(x)) == [KRaw(1), KText, KRaw(32), KText, KText, KNum] && AllEncodable(EscrowHead(x))
    ensures AllEncodable(Nums(x.milestones))
    ensures Kinds(EscrowTail(x)) == [KNum, KNum, KText, KNum] && AllEncodable(EscrowTail(x))
    ensures Signed(Unsigned(x.shipBy)) == x.shipBy && Signed(Unsigned(x.reviewSecs)) == x.reviewSecs
  {}

  lemma EscrowTailBack(x: EscrowPart, rest: Bytes)
    requires GoodEscrow(x) && Tag(rest) != 6
    ensures ReadEscrowTail(Encode(EscrowTail(x) + ArbiterRate(x)) + rest, EscrowHead(x), x.milestones) == Got(x, rest)
  {
    hide ArbiterRate, ReadArbiterRate, Encode, GoodEscrow;
    EscrowKinds(x);
    ArbiterRateBack(x, rest);
    Regroup(EscrowTail(x), ArbiterRate(x), rest);
    FieldsBack(EscrowTail(x), Encode(ArbiterRate(x)) + rest);
  }

  lemma EscrowBack(m: Message, rest: Bytes)
    requires GoodMessage(m) && Tag(rest) != 2 && Tag(rest) != 6
    ensures ReadEscrow(Encode(EscrowSection(m)) + rest) == Got(m.escrow, rest)
    ensures Tag(rest) != 3 && Tag(rest) != 5 ==>
      Tag(Encode(EscrowSection(m)) + rest) != 3 && Tag(Encode(EscrowSection(m)) + rest) != 5
  {
    hide ReadEscrowTail, ReadNums, Encode, GoodEscrow, GoodPool, GoodGuard;
    if m.escrow.Some? {
      var x := m.escrow.value;
      EscrowKinds(x);
      var tail := EscrowTail(x) + ArbiterRate(x);
      Regroup(Nums(x.milestones), tail, rest);
      Regroup(EscrowHead(x), Nums(x.milestones) + tail, rest);
      FieldsBack(EscrowHead(x), Encode(Nums(x.milestones) + tail) + rest);
      NumsBack(x.milestones, Encode(tail) + rest);
      EscrowTailBack(x, rest);
      assert EscrowTokens(x) == [Raw([2])] + EscrowTokens(x)[1..];
      TagShown(2, EscrowTokens(x)[1..], rest);
    } else {
      NothingThen(rest);
    }
  }

  lemma GuardKinds(g: GuardPart)
    requires GoodGuard(g)
    ensures Kinds(GuardHead(g)) == [KRaw(1), KText, KNum] && AllEncodable(GuardHead(g))
      && AllEncodable(Texts(g.guardians))
    ensures Kinds(GuardTail(g)) == [KNum, KNum, KText, KText] && AllEncodable(GuardTail(g))
    ensures Signed(Unsigned(g.threshold)) == g.threshold && Signed(Unsigned(g.delaySecs)) == g.delaySecs
  {}

  lemma GuardBack(m: Message)
    requires GoodMessage(m)
    ensures ReadGuard(Encode(GuardSection(m))) == Got(m.guard, [])
    ensures Tag(Encode(GuardSection(m))) == if m.guard.Some? then 4 else -1
  {
    hide ReadTexts, GoodEscrow, GoodPool, GoodGuard;
    if m.guard.Some? {
      var g := m.guard.value;
      GuardKinds(g);
      Regroup(Texts(g.guardians), GuardTail(g), []);
      Regroup(GuardHead(g), Texts(g.guardians) + GuardTail(g), []);
      FieldsBack(GuardHead(g), Encode(Texts(g.guardians) + GuardTail(g)) + []);
      TextsBack(g.guardians, Encode(GuardTail(g)) + []);
      FieldsBack(GuardTail(g), []);
      assert GuardTokens(g) == [Raw([4])] + GuardTokens(g)[1..];
      TagShown(4, GuardTokens(g)[1..], []);
      assert Encode(GuardTokens(g)) + [] == Encode(GuardTokens(g));
    }
  }

  lemma SectionsBack(m: Message)
    requires GoodMessage(m)
    ensures ReadSections(Encode(PoolSection(m) + (EscrowSection(m) + GuardSection(m))))
      == Got((m.pool, m.escrow, m.guard), [])
  {
    hide PoolSection, EscrowSection, GuardSection, ReadMaybePool, ReadEscrow, ReadGuard, Encode, GoodMessage;
    GuardBack(m);
    EscrowBack(m, Encode(GuardSection(m)));
    EncodeAppend(EscrowSection(m), GuardSection(m));
    EncodeAppend(PoolSection(m), EscrowSection(m) + GuardSection(m));
    MaybePoolBack(m, Encode(EscrowSection(m) + GuardSection(m)));
  }

  // ---------------------------------------------------------------- whole messages

  lemma Versions()
    ensures TxV1() != TxV2() && |TxV1()| == |TxV2()| == 17 && |BlockV1()| == 20
  {
    assert TxV1()[16] == '1' as int % 256 && TxV2()[16] == '2' as int % 256;
  }

  lemma TxHeadKinds(m: Message)
    requires GoodMessage(m)
    ensures Kinds(TxHead(m)) == TX_HEAD && AllEncodable(TxHead(m))
  {
    Versions();
  }

  lemma OldTxBack(m: Message)
    requires GoodMessage(m) && !IsV2(m)
    ensures ReadTx(SignedTx(m)) == Some(m)
  {
    hide TxV1, TxV2, GoodMessage, Encode, ReadFields;
    Versions();
    TxHeadKinds(m);
    FieldsBack(TxHead(m), []);
    assert Encode(TxHead(m)) + [] == SignedTx(m);
  }

  lemma KindTokens(m: Message)
    requires GoodMessage(m)
    ensures var kinds := [Text(m.kind), Text(m.asset)]; AllEncodable(kinds) && Kinds(kinds) == [KText, KText]
  {}

  lemma NewTxBack(m: Message)
    requires GoodMessage(m) && IsV2(m)
    ensures ReadTx(SignedTx(m)) == Some(m)
  {
    var sections := PoolSection(m) + (EscrowSection(m) + GuardSection(m));
    var kinds := [Text(m.kind), Text(m.asset)];
    hide ReadSections, PoolSection, EscrowSection, GuardSection, TxV1, TxV2, GoodMessage, Encode, ReadFields, Kinds,
      AllEncodable;
    KindTokens(m);
    Versions();
    TxHeadKinds(m);
    Regroup(kinds, sections, []);
    Regroup(TxHead(m), kinds + sections, []);
    FieldsBack(TxHead(m), Encode(kinds + sections) + []);
    FieldsBack(kinds, Encode(sections) + []);
    SectionsBack(m);
    assert Encode(sections) + [] == Encode(sections);
    assert SignedTx(m) + [] == SignedTx(m);
  }

  /** The decoder recovers every field of every transaction, across both versions and all optional sections. */
  lemma TxBack(m: Message)
    requires GoodMessage(m)
    ensures ReadTx(SignedTx(m)) == Some(m)
  {
    hide ReadTx, SignedTx, GoodMessage, IsV2;
    if IsV2(m) {
      NewTxBack(m);
    } else {
      OldTxBack(m);
    }
  }

  /** Different transactions never sign the same bytes. */
  lemma TxInjective(a: Message, b: Message)
    requires GoodMessage(a) && GoodMessage(b)
    ensures SignedTx(a) == SignedTx(b) <==> a == b
  {
    TxBack(a);
    TxBack(b);
  }

  lemma HeaderKinds(h: Header)
    requires GoodHeader(h)
    ensures Kinds(HeaderTokens(h)) == HEADER && AllEncodable(HeaderTokens(h))
  {
    Versions();
  }

  lemma HeaderBack(h: Header)
    requires GoodHeader(h)
    ensures ReadHeader(SignedHeader(h)) == Some(h)
  {
    hide BlockV1, Encode;
    HeaderKinds(h);
    SignedUnsigned(h.time);
    FieldsBack(HeaderTokens(h), []);
    assert SignedHeader(h) + [] == SignedHeader(h);
  }

  lemma HeaderInjective(a: Header, b: Header)
    requires GoodHeader(a) && GoodHeader(b)
    ensures SignedHeader(a) == SignedHeader(b) <==> a == b
  {
    HeaderBack(a);
    HeaderBack(b);
  }

  lemma LastByte(n: nat)
    requires n < 256
    ensures BigEndian(n, 4)[3] == n
  {
    assert BigEndian(n, 4) == BigEndian(n / 256, 3) + [n % 256];
  }

  lemma FirstBytes(n: nat, s: Bytes, ts: seq<Token>)
    requires |s| == n < 256
    ensures |Encode([Text(s)] + ts)| >= 4 && Encode([Text(s)] + ts)[3] == n
  {
    LastByte(n);
    hide BigEndian;
    assert ([Text(s)] + ts)[1..] == ts;
    assert Encode([Text(s)] + ts) == BigEndian(n, 4) + s + Encode(ts);
  }

  /** Domain separation: no transaction signs the bytes of a block header, whatever either contains. */
  lemma DomainsSeparate(m: Message, h: Header)
    ensures SignedTx(m) != SignedHeader(h)
  {
    Versions();
    var v := if IsV2(m) then TxV2() else TxV1();
    assert TxTokens(m) == [Text(v)] + TxTokens(m)[1..];
    FirstBytes(17, v, TxTokens(m)[1..]);
    assert HeaderTokens(h) == [Text(BlockV1())] + HeaderTokens(h)[1..];
    FirstBytes(20, BlockV1(), HeaderTokens(h)[1..]);
  }

  // ---------------------------------------------------------------- the encoder

  /** The program's encoder: a growing buffer, always the encoding of the fields written so far. */
  class Encoder {
    var buf: Bytes
    ghost var fields: seq<Token>

    ghost predicate Valid()
      reads this
    {
      buf == Encode(fields)
    }

    constructor ()
      ensures Valid() && fields == []
    {
      buf, fields := [], [];
    }

    method Put(t: Token)
      requires Valid()
      modifies this
      ensures Valid() && fields == old(fields) + [t]
    {
      EncodeAppend(fields, [t]);
      assert Encode([t]) == Field(t) + Encode([]);
      buf := buf + Field(t);
      fields := fields + [t];
    }

    method Str(s: Bytes)
      requires Valid()
      modifies this
      ensures Valid() && fields == old(fields) + [Text(s)]
    {
      Put(Text(s));
    }

    method U64(v: int)
      requires Valid()
      modifies this
      ensures Valid() && fields == old(fields) + [Num(v)]
    {
      Put(Num(v));
    }

    method Raws(b: Bytes)
      requires Valid()
      modifies this
      ensures Valid() && fields == old(fields) + [Raw(b)]
    {
      Put(Raw(b));
    }

    method Strs(ss: seq<Bytes>)
      requires Valid()
      modifies this
      ensures Valid() && fields == old(fields) + Texts(ss)
    {
      hide Encode;
      ghost var was := fields;
      var j := 0;
      while j < |ss|
        invariant 0 <= j <= |ss| && Valid() && fields == was + Texts(ss[..j])
      {
        Str(ss[j]);
        assert Texts(ss[..j + 1]) == Texts(ss[..j]) + [Text(ss[j])];
        j := j + 1;
      }
      assert ss[..j] == ss;
    }

    method U64s(vs: seq<int>)
      requires Valid()
      modifies this
      ensures Valid() && fields == old(fields) + Nums(vs)
    {
      hide Encode;
      ghost var was := fields;
      var j := 0;
      while j < |vs|
        invariant 0 <= j <= |vs| && Valid() && fields == was + Nums(vs[..j])
      {
        U64(vs[j]);
        assert Nums(vs[..j + 1]) == Nums(vs[..j]) + [Num(vs[j])];
        j := j + 1;
      }
      assert vs[..j] == vs;
    }

    method Options(p: PoolPart)
      requires Valid()
      modifies this
      ensures Valid() && fields == old(fields) + (Schedule(p) + CircleOptions(p))
    {
      hide Encode;
      ghost var was := fields;
      if HasSchedule(p) {
        Raws([3]);
        U64(Unsigned(p.roundSecs));
        U64(p.deposit);
      }
      assert fields == was + Schedule(p);
      if HasCircle(p) {
        Raws([5]);
        Str(p.mode);
        U64(p.insuranceBps);
        U64(p.target);
        Str(p.other);
      }
      assert fields == was + Schedule(p) + CircleOptions(p);
    }

    method Pool(p: PoolPart)
      requires Valid()
      modifies this
      ensures Valid() && fields == old(fields) + PoolTokens(p)
    {
      hide Encode, Schedule, CircleOptions, Texts;
      ghost var was := fields;
      Raws([1]);
      Str(p.op);
      Raws(p.id);
      Str(p.name);
      U64(|p.members|);
      assert fields == was + PoolHead(p);
      Strs(p.members);
      U64(p.contribution);
      Options(p);
    }

    method EscrowTerms(x: EscrowPart)
      requires Valid()
      modifies this
      ensures Valid() && fields == old(fields) + (EscrowTail(x) + ArbiterRate(x))
    {
      hide Encode;
      ghost var was := fields;
      U64(Unsigned(x.shipBy));
      U64(Unsigned(x.reviewSecs));
      Str(x.ref);
      U64(x.toSeller);
      assert fields == was + EscrowTail(x);
      if x.arbiterBps != 0 {
        Raws([6]);
        U64(x.arbiterBps);
      }
    }

    method Escrow(x: EscrowPart)
      requires Valid()
      modifies this
      ensures Valid() && fields == old(fields) + EscrowTokens(x)
    {
      hide Encode, EscrowTail, ArbiterRate, Nums;
      ghost var was := fields;
      Raws([2]);
      Str(x.op);
      Raws(x.id);
      Str(x.seller);
      Str(x.arbiter);
      U64(|x.milestones|);
      assert fields == was + EscrowHead(x);
      U64s(x.milestones);
      EscrowTerms(x);
    }

    method Guard(g: GuardPart)
      requires Valid()
      modifies this
      ensures Valid() && fields == old(fields) + GuardTokens(g)
    {
      hide Encode, Texts;
      ghost var was := fields;
      Raws([4]);
      Str(g.op);
      U64(|g.guardians|);
      assert fields == was + GuardHead(g);
      Strs(g.guardians);
      U64(Unsigned(g.threshold));
      U64(Unsigned(g.delaySecs));
      Str(g.account);
      Str(g.newOwner);
    }

    method Head(m: Message)
      requires Valid() && fields == []
      modifies this
      ensures Valid() && fields == TxHead(m)
    {
      hide Encode;
      var v2 := m.pool.Some? || m.kind != [] || m.asset != [] || m.escrow.Some? || m.guard.Some?;
      Str(if v2 then TxV2() else TxV1());
      Str(m.chainId);
      Str(m.from);
      Str(m.to);
      U64(m.amount);
      U64(m.fee);
      U64(m.nonce);
      Str(m.memo);
    }

    method Sections(m: Message)
      requires Valid()
      modifies this
      ensures Valid() && fields == old(fields) + (PoolSection(m) + (EscrowSection(m) + GuardSection(m)))
    {
      hide PoolTokens, EscrowTokens, GuardTokens, Encode;
      ghost var was := fields;
      if m.pool.Some? {
        Pool(m.pool.value);
      } else {
        Raws([0]);
      }
      assert fields == was + PoolSection(m);
      if m.escrow.Some? {
        Escrow(m.escrow.value);
      }
      assert fields == was + PoolSection(m) + EscrowSection(m);
      if m.guard.Some? {
        Guard(m.guard.value);
      }
      assert fields == was + PoolSection(m) + EscrowSection(m) + GuardSection(m);
    }
  }

  /** The bytes a sender signs. */
  method SignBytesOf(m: Message) returns (b: Bytes)
    ensures b == SignedTx(m)
  {
    hide TxHead, PoolSection, EscrowSection, GuardSection, Encode;
    var e := new Encoder();
    e.Head(m);
    if m.pool.Some? || m.kind != [] || m.asset != [] || m.escrow.Some? || m.guard.Some? {
      e.Str(m.kind);
      e.Str(m.asset);
      assert e.fields == TxHead(m) + [Text(m.kind), Text(m.asset)];
      e.Sections(m);
      assert e.fields == TxTokens(m);
    }
    b := e.buf;
  }

  /** The bytes a proposer signs. */
  method HeaderBytesOf(h: Header) returns (b: Bytes)
    ensures b == SignedHeader(h)
  {
    var e := new Encoder();
    e.Str(BlockV1());
    e.Str(h.chainId);
    e.U64(h.height);
    e.Raws(h.prevHash);
    e.U64(Unsigned(h.time));
    e.Raws(h.txRoot);
    e.Raws(h.stateRoot);
    e.Str(h.proposer);
    assert e.fields == HeaderTokens(h);
    b := e.buf;
  }
}
