/**
  Transactions and block headers as signed messages.
 */
module SignBytes {
  import opened Core
  import opened Encoding

  // ---------------------------------------------------------------- messages

  datatype PoolPart = PoolPart(
    op: Bytes, id: Bytes, name: Bytes, members: seq<Bytes>, contribution: int, roundSecs: int, deposit: int,
    mode: Bytes, insuranceBps: int, target: int, other: Bytes)

  datatype EscrowPart = EscrowPart(
    op: Bytes, id: Bytes, seller: Bytes, arbiter: Bytes, milestones: seq<int>, shipBy: int, reviewSecs: int,
    ref: Bytes, toSeller: int, arbiterBps: int)

  datatype GuardPart = GuardPart(op: Bytes, guardians: seq<Bytes>, threshold: int, delaySecs: int, account: Bytes,
    newOwner: Bytes)

  /** The signed content of a transaction; a nil and an empty slice are the same empty sequence. */
  datatype Message = Message(
    chainId: Bytes, from: Bytes, to: Bytes, amount: int, fee: int, nonce: int, memo: Bytes, kind: Bytes, asset: Bytes,
    pool: Option<PoolPart>, escrow: Option<EscrowPart>, guard: Option<GuardPart>)

  datatype Header = Header(
    chainId: Bytes, height: int, prevHash: Bytes, time: int, txRoot: Bytes, stateRoot: Bytes, proposer: Bytes)

  function Ascii(s: string): (b: Bytes)
    ensures |b| == |s| && forall j :: 0 <= j < |s| ==> b[j] == s[j] as int % 256
  {
    seq<Byte>(|s|, j requires 0 <= j < |s| => s[j] as int % 256)
  }

  function TxV1(): Bytes { Ascii("openreserve/tx/v1") }

  function TxV2(): Bytes { Ascii("openreserve/tx/v2") }

  function BlockV1(): Bytes { Ascii("openreserve/block/v1") }

  // ---------------------------------------------------------------- encoding

  predicate HasSchedule(p: PoolPart) { p.roundSecs != 0 || p.deposit != 0 }

  predicate HasCircle(p: PoolPart) { p.mode != [] || p.insuranceBps != 0 || p.target != 0 || p.other != [] }

  function PoolHead(p: PoolPart): seq<Token> { [Raw([1]), Text(p.op), Raw(p.id), Text(p.name), Num(|p.members|)] }

  function Schedule(p: PoolPart): seq<Token> {
    if HasSchedule(p) then [Raw([3]), Num(Unsigned(p.roundSecs)), Num(p.deposit)] else []
  }

  function CircleOptions(p: PoolPart): seq<Token> {
    if HasCircle(p) then [Raw([5]), Text(p.mode), Num(p.insuranceBps), Num(p.target), Text(p.other)] else []
  }

  function PoolTokens(p: PoolPart): seq<Token> {
    PoolHead(p) + (Texts(p.members) + ([Num(p.contribution)] + (Schedule(p) + CircleOptions(p))))
  }

  function EscrowHead(x: EscrowPart): seq<Token> {
    [Raw([2]), Text(x.op), Raw(x.id), Text(x.seller), Text(x.arbiter), Num(|x.milestones|)]
  }

  function EscrowTail(x: EscrowPart): seq<Token> {
    [Num(Unsigned(x.shipBy)), Num(Unsigned(x.reviewSecs)), Text(x.ref), Num(x.toSeller)]
  }

  function ArbiterRate(x: EscrowPart): seq<Token> { if x.arbiterBps != 0 then [Raw([6]), Num(x.arbiterBps)] else [] }

  function EscrowTokens(x: EscrowPart): seq<Token> {
    EscrowHead(x) + (Nums(x.milestones) + (EscrowTail(x) + ArbiterRate(x)))
  }

  function GuardHead(g: GuardPart): seq<Token> { [Raw([4]), Text(g.op), Num(|g.guardians|)] }

  function GuardTail(g: GuardPart): seq<Token> {
    [Num(Unsigned(g.threshold)), Num(Unsigned(g.delaySecs)), Text(g.account), Text(g.newOwner)]
  }

  function GuardTokens(g: GuardPart): seq<Token> { GuardHead(g) + (Texts(g.guardians) + GuardTail(g)) }

  predicate IsV2(m: Message) { m.pool.Some? || m.kind != [] || m.asset != [] || m.escrow.Some? || m.guard.Some? }

  function TxHead(m: Message): seq<Token> {
    [Text(if IsV2(m) then TxV2() else TxV1()), Text(m.chainId), Text(m.from), Text(m.to), Num(m.amount), Num(m.fee),
      Num(m.nonce), Text(m.memo)]
  }

  function PoolSection(m: Message): seq<Token> { if m.pool.Some? then PoolTokens(m.pool.value) else [Raw([0])] }

  function EscrowSection(m: Message): seq<Token> { if m.escrow.Some? then EscrowTokens(m.escrow.value) else [] }

  function GuardSection(m: Message): seq<Token> { if m.guard.Some? then GuardTokens(m.guard.value) else [] }

  function TxTokens(m: Message): seq<Token> {
    if IsV2(m) then TxHead(m)
      + ([Text(m.kind), Text(m.asset)] + (PoolSection(m) + (EscrowSection(m) + GuardSection(m)))) else TxHead(m)
  }

  /** What a sender signs. */
  function SignedTx(m: Message): Bytes { Encode(TxTokens(m)) }

  function HeaderTokens(h: Header): seq<Token> {
    [Text(BlockV1()), Text(h.chainId), Num(h.height), Raw(h.prevHash), Num(Unsigned(h.time)), Raw(h.txRoot),
      Raw(h.stateRoot), Text(h.proposer)]
  }

  /** What a proposer signs. */
  function SignedHeader(h: Header): Bytes { Encode(HeaderTokens(h)) }

  // ---------------------------------------------------------------- which messages Go can hold

  predicate Short(s: Bytes) { |s| < 0x1_0000_0000 }

  predicate U64(v: int) { 0 <= v < TWO64 }

  predicate GoodPool(p: PoolPart) {
    && Short(p.op) && |p.id| == 32 && Short(p.name) && |p.members| < TWO64
      && (forall j :: 0 <= j < |p.members| ==> Short(p.members[j]))
    && U64(p.contribution) && Int64(p.roundSecs) && U64(p.deposit) && Short(p.mode) && U64(p.insuranceBps)
      && U64(p.target) && Short(p.other)
  }

  predicate GoodEscrow(x: EscrowPart) {
    && Short(x.op) && |x.id| == 32 && Short(x.seller) && Short(x.arbiter)
    && |x.milestones| < TWO64 && (forall j :: 0 <= j < |x.milestones| ==> U64(x.milestones[j]))
    && Int64(x.shipBy) && Int64(x.reviewSecs) && Short(x.ref) && U64(x.toSeller) && U64(x.arbiterBps)
  }

  predicate GoodGuard(g: GuardPart) {
    && Short(g.op) && |g.guardians| < TWO64 && (forall j :: 0 <= j < |g.guardians| ==> Short(g.guardians[j]))
    && Int64(g.threshold) && Int64(g.delaySecs) && Short(g.account) && Short(g.newOwner)
  }

  predicate GoodMessage(m: Message) {
    && Short(m.chainId) && Short(m.from) && Short(m.to) && Short(m.memo) && Short(m.kind) && Short(m.asset)
    && U64(m.amount) && U64(m.fee) && U64(m.nonce)
    && (m.pool.Some? ==> GoodPool(m.pool.value)) && (m.escrow.Some? ==> GoodEscrow(m.escrow.value))
    && (m.guard.Some? ==> GoodGuard(m.guard.value))
  }

  predicate GoodHeader(h: Header) {
    && Short(h.chainId) && U64(h.height) && |h.prevHash| == 32 && Int64(h.time) && |h.txRoot| == 32
      && |h.stateRoot| == 32 && Short(h.proposer)
  }

  // ---------------------------------------------------------------- decoding

  /** The tag at the start of what is left, or -1 at the end. */
  function Tag(b: Bytes): int { if b == [] then -1 else b[0] }

  function ReadSchedule(b: Bytes): Read<(int, int)> {
    if Tag(b) != 3 then Got((0, 0), b)
    else
      match ReadFields(b, [KRaw(1), KNum, KNum])
      case Bad => Bad
      case Got(ts, rest) => Got((Signed(ts[1].v), ts[2].v), rest)
  }

  function ReadCircleOptions(b: Bytes): Read<(Bytes, int, int, Bytes)> {
    if Tag(b) != 5 then Got(([], 0, 0, []), b)
    else
      match ReadFields(b, [KRaw(1), KText, KNum, KNum, KText])
      case Bad => Bad
      case Got(ts, rest) => Got((ts[1].s, ts[2].v, ts[3].v, ts[4].s), rest)
  }

  function ReadPoolTail(b: Bytes, h: seq<Token>, members: seq<Bytes>): Read<PoolPart>
    requires |h| == 5 && h[1].Text? && h[2].Raw? && h[3].Text?
  {
    match ReadFields(b, [KNum])
    case Bad => Bad
    case Got(c, b1) =>
      match ReadSchedule(b1)
      case Bad => Bad
      case Got(s, b2) =>
        match ReadCircleOptions(b2)
        case Bad => Bad
        case Got(o, rest) => Got(PoolPart(h[1].s, h[2].b, h[3].s, members, c[0].v, s.0, s.1, o.0, o.1, o.2, o.3), rest)
  }

  function ReadPool(b: Bytes): Read<PoolPart> {
    match ReadFields(b, [KRaw(1), KText, KRaw(32), KText, KNum])
    case Bad => Bad
    case Got(h, b1) =>
      assert Is(h[4], KNum);
      match ReadTexts(b1, h[4].v)
      case Bad => Bad
      case Got(ms, b2) => ReadPoolTail(b2, h, ms)
  }

  function ReadArbiterRate(b: Bytes): Read<int> {
    if Tag(b) != 6 then Got(0, b)
    else
      match ReadFields(b, [KRaw(1), KNum])
      case Bad => Bad
      case Got(ts, rest) => Got(ts[1].v, rest)
  }

  function ReadEscrowTail(b: Bytes, h: seq<Token>, milestones: seq<int>): Read<EscrowPart>
    requires |h| == 6 && h[1].Text? && h[2].Raw? && h[3].Text? && h[4].Text?
  {
    match ReadFields(b, [KNum, KNum, KText, KNum])
    case Bad => Bad
    case Got(t, b1) =>
      match ReadArbiterRate(b1)
      case Bad => Bad
      case Got(bps, rest) =>
        Got(
          EscrowPart(h[1].s, h[2].b, h[3].s, h[4].s, milestones, Signed(t[0].v), Signed(t[1].v), t[2].s, t[3].v, bps),
          rest)
  }

  function ReadEscrow(b: Bytes): Read<Option<EscrowPart>> {
    if Tag(b) != 2 then Got(None, b)
    else
      match ReadFields(b, [KRaw(1), KText, KRaw(32), KText, KText, KNum])
      case Bad => Bad
      case Got(h, b1) =>
        assert Is(h[5], KNum);
        match ReadNums(b1, h[5].v)
        case Bad => Bad
        case Got(ms, b2) =>
          match ReadEscrowTail(b2, h, ms)
          case Bad => Bad
          case Got(x, rest) => Got(Some(x), rest)
  }

  function ReadGuard(b: Bytes): Read<Option<GuardPart>> {
    if Tag(b) != 4 then Got(None, b)
    else
      match ReadFields(b, [KRaw(1), KText, KNum])
      case Bad => Bad
      case Got(h, b1) =>
        assert Is(h[2], KNum);
        match ReadTexts(b1, h[2].v)
        case Bad => Bad
        case Got(gs, b2) =>
          match ReadFields(b2, [KNum, KNum, KText, KText])
          case Bad => Bad
          case Got(t, rest) => Got(Some(GuardPart(h[1].s, gs, Signed(t[0].v), Signed(t[1].v), t[2].s, t[3].s)), rest)
  }

  function ReadMaybePool(b: Bytes): Read<Option<PoolPart>> {
    if Tag(b) == 0 then Got(None, b[1..])
    else
      match ReadPool(b)
      case Bad => Bad
      case Got(p, rest) => Got(Some(p), rest)
  }

  /** The optional sections of a v2 message. */
  function ReadSections(b: Bytes): Read<(Option<PoolPart>, Option<EscrowPart>, Option<GuardPart>)> {
    match ReadMaybePool(b)
    case Bad => Bad
    case Got(p, b1) =>
      match ReadEscrow(b1)
      case Bad => Bad
      case Got(x, b2) =>
        match ReadGuard(b2)
        case Bad => Bad
        case Got(g, rest) => Got((p, x, g), rest)
  }

  const TX_HEAD: seq<Kind> := [KText, KText, KText, KText, KNum, KNum, KNum, KText]

  /** The message signed as b, if b is the encoding of one. */
  function ReadTx(b: Bytes): Option<Message> {
    match ReadFields(b, TX_HEAD)
    case Bad => None
    case Got(h, b1) =>
      assert forall j :: 0 <= j < 8 ==> Is(h[j], TX_HEAD[j]);
      if h[0].s == TxV1() then
        if b1 == []
        then Some(Message(h[1].s, h[2].s, h[3].s, h[4].v, h[5].v, h[6].v, h[7].s, [], [], None, None, None))
        else None
      else if h[0].s != TxV2() then None
      else
        match ReadFields(b1, [KText, KText])
        case Bad => None
        case Got(k, b2) =>
          match ReadSections(b2)
          case Bad => None
          case Got(s, rest) =>
            if rest != [] then None
            else Some(Message(h[1].s, h[2].s, h[3].s, h[4].v, h[5].v, h[6].v, h[7].s, k[0].s, k[1].s, s.0, s.1, s.2))
  }

  const HEADER: seq<Kind> := [KText, KText, KNum, KRaw(32), KNum, KRaw(32), KRaw(32), KText]

  function ReadHeader(b: Bytes): Option<Header> {
    match ReadFields(b, HEADER)
    case Bad => None
    case Got(h, rest) =>
      assert forall j :: 0 <= j < 8 ==> Is(h[j], HEADER[j]);
      if h[0].s != BlockV1() || rest != [] then None
      else Some(Header(h[1].s, h[2].v, h[3].b, Signed(h[4].v), h[5].b, h[6].b, h[7].s))
  }
}
