/** Instruction and account decoders, with encoders they are inverse to.

    Text is kept as its bytes; which bytes are valid text is a parameter. */
module Decode {
  import opened Domain

  type Byte = x: int | 0 <= x < 256

  type Utf8 = seq<Byte> -> bool

  const PUMP_PROGRAM := "6EF8rrecthR5Dkzon8Nwu78hRvfCKubJ14M5uBEwF6P"

  const CURVE_ACCOUNT_DISC: seq<Byte> := [23, 183, 248, 55, 96, 216, 172, 96]
  const CREATE_DISC: seq<Byte> := [24, 30, 200, 40, 5, 28, 7, 119]
  const CREATE_V2_DISC: seq<Byte> := [214, 144, 76, 236, 95, 139, 49, 180]
  const BUY_DISC: seq<Byte> := [102, 6, 61, 18, 1, 218, 235, 234]
  const SELL_DISC: seq<Byte> := [51, 230, 133, 164, 1, 127, 131, 173]
  const BUY_V2_DISC: seq<Byte> := [184, 23, 238, 97, 103, 197, 211, 61]
  const SELL_V2_DISC: seq<Byte> := [93, 246, 130, 60, 231, 233, 64, 178]
  const MIGRATE_DISC: seq<Byte> := [155, 234, 231, 146, 236, 158, 162, 30]

  // ---- Little-endian numbers ----

  function FromLe(bytes: seq<Byte>): nat {
    if bytes == [] then 0 else bytes[0] + 256 * FromLe(bytes[1..])
  }

  function ToLe(n: nat, width: nat): (bytes: seq<Byte>)
    ensures |bytes| == width
  {
    if width == 0 then [] else [n % 256] + ToLe(n / 256, width - 1)
  }

  /** The number of values of `width` bytes. */
  function Values(width: nat): nat {
    if width == 0 then 1 else 256 * Values(width - 1)
  }

  lemma {:induction false} LeRoundTrip(n: nat, width: nat)
    requires n < Values(width)
    ensures FromLe(ToLe(n, width)) == n
  {
    if width > 0 {
      LeRoundTrip(n / 256, width - 1);
      assert ToLe(n, width)[1..] == ToLe(n / 256, width - 1);
    }
  }

  lemma {:induction false} LeCanonical(bytes: seq<Byte>)
    ensures ToLe(FromLe(bytes), |bytes|) == bytes
    ensures FromLe(bytes) < Values(|bytes|)
  {
    if bytes != [] {
      LeCanonical(bytes[1..]);
      assert FromLe(bytes) / 256 == FromLe(bytes[1..]) && FromLe(bytes) % 256 == bytes[0];
      assert bytes == [bytes[0]] + bytes[1..];
    }
  }

  // ---- Reading at an offset ----

  function Take(data: seq<Byte>, off: nat, n: nat): Option<seq<Byte>> {
    if off + n <= |data| then Some(data[off..off + n]) else None
  }

  /** A value read and the offset after it. */
  datatype Read<T> = Read(value: T, end: nat)

  function ReadU64(data: seq<Byte>, off: nat): Option<Read<nat>> {
    match Take(data, off, 8)
    case None => None
    case Some(bytes) => Some(Read(FromLe(bytes), off + 8))
  }

  function ReadStr(utf8: Utf8, data: seq<Byte>, off: nat): Option<Read<seq<Byte>>> {
    match Take(data, off, 4)
    case None => None
    case Some(header) =>
      match Take(data, off + 4, FromLe(header))
      case None => None
      case Some(text) => if utf8(text) then Some(Read(text, off + 4 + |text|)) else None
  }

  function ReadPubkey(data: seq<Byte>, off: nat): Option<Read<seq<Byte>>> {
    match Take(data, off, 32)
    case None => None
    case Some(key) => Some(Read(key, off + 32))
  }

  /** The reader the decoders thread: its offset moves past what was read. A string that fails
      after its length was read leaves the offset behind the length. */
  class Cursor {
    const data: seq<Byte>
    var off: nat

    constructor (data: seq<Byte>, off: nat)
      ensures this.data == data && this.off == off
    {
      this.data, this.off := data, off;
    }

    method U64() returns (r: Option<nat>)
      modifies this
      ensures match ReadU64(data, old(off))
        case None => r == None && off == old(off)
        case Some(read) => r == Some(read.value) && off == read.end
    {
      var end := off + 8;
      if end > |data| {
        return None;
      }
      r := Some(FromLe(data[off..end]));
      off := end;
    }

    method Str(utf8: Utf8) returns (r: Option<seq<Byte>>)
      modifies this
      ensures match ReadStr(utf8, data, old(off))
        case None => r == None && off == if old(off) + 4 > |data| then old(off) else old(off) + 4
        case Some(read) => r == Some(read.value) && off == read.end
    {
      var end := off + 4;
      if end > |data| {
        return None;
      }
      var len := FromLe(data[off..end]);
      off := end;
      end := off + len;
      if end > |data| || !utf8(data[off..end]) {
        return None;
      }
      r := Some(data[off..end]);
      off := end;
    }

    method Pubkey() returns (r: Option<seq<Byte>>)
      modifies this
      ensures match ReadPubkey(data, old(off))
        case None => r == None && off == old(off)
        case Some(read) => r == Some(read.value) && off == read.end
    {
      var end := off + 32;
      if end > |data| {
        return None;
      }
      r := Some(data[off..end]);
      off := end;
    }
  }

  // ---- create ----

  datatype CreateIx = CreateIx(
    v2: bool,
    mint: string,
    bondingCurve: string,
    creator: seq<Byte>,
    name: seq<Byte>,
    symbol: seq<Byte>,
    uri: seq<Byte>,
    mayhem: bool)

  function CreateVersion(disc: seq<Byte>): Option<bool> {
    if disc == CREATE_DISC then Some(false)
    else if disc == CREATE_V2_DISC then Some(true)
    else None
  }

  function ParseCreate(utf8: Utf8, program: string, accounts: seq<string>, data: seq<Byte>): Option<CreateIx> {
    if program != PUMP_PROGRAM || |data| < 8 || |accounts| < 3 then None
    else if CreateVersion(data[..8]).None? then None
    else
      var v2 := CreateVersion(data[..8]).value;
      match ReadStr(utf8, data, 8)
      case None => None
      case Some(name) =>
        match ReadStr(utf8, data, name.end)
        case None => None
        case Some(symbol) =>
          match ReadStr(utf8, data, symbol.end)
          case None => None
          case Some(uri) =>
            match ReadPubkey(data, uri.end)
            case None => None
            case Some(creator) =>
              var mayhem := v2 && creator.end < |data| && data[creator.end] != 0;
              Some(CreateIx(v2, accounts[0], accounts[2], creator.value, name.value, symbol.value, uri.value, mayhem))
  }

  method DecodeCreate(utf8: Utf8, program: string, accounts: seq<string>, data: seq<Byte>) returns (r: Option<CreateIx>)
    ensures r == ParseCreate(utf8, program, accounts, data)
  {
    if program != PUMP_PROGRAM || |data| < 8 || |accounts| < 3 {
      return None;
    }
    var version := CreateVersion(data[..8]);
    if version.None? {
      return None;
    }
    var cursor := new Cursor(data, 8);
    var name := cursor.Str(utf8);
    if name.None? {
      return None;
    }
    var symbol := cursor.Str(utf8);
    if symbol.None? {
      return None;
    }
    var uri := cursor.Str(utf8);
    if uri.None? {
      return None;
    }
    var creator := cursor.Pubkey();
    if creator.None? {
      return None;
    }
    var mayhem := version.value && cursor.off < |data| && data[cursor.off] != 0;
    return Some(
      CreateIx(version.value, accounts[0], accounts[2], creator.value, name.value, symbol.value, uri.value, mayhem));
  }

  function EncodeStr(s: seq<Byte>): seq<Byte> { ToLe(|s|, 4) + s }

  function CreateDisc(v2: bool): seq<Byte> { if v2 then CREATE_V2_DISC else CREATE_DISC }

  // Where the fields of an encoded create instruction end.

  function NameEnd(c: CreateIx): nat { 8 + |EncodeStr(c.name)| }

  function SymbolEnd(c: CreateIx): nat { NameEnd(c) + |EncodeStr(c.symbol)| }

  function UriEnd(c: CreateIx): nat { SymbolEnd(c) + |EncodeStr(c.uri)| }

  /** The mandatory part of an encoded create instruction. */
  function EncodeCreate(c: CreateIx): seq<Byte> {
    CreateDisc(c.v2)
      + EncodeStr(c.name) + EncodeStr(c.symbol) + EncodeStr(c.uri) + c.creator
  }

  predicate Text(utf8: Utf8, s: seq<Byte>) { utf8(s) && |s| < Values(4) }

  predicate Encodable(utf8: Utf8, c: CreateIx) {
    Text(utf8, c.name) && Text(utf8, c.symbol) && Text(utf8, c.uri) && |c.creator| == 32
  }

  lemma StrReads(utf8: Utf8, before: seq<Byte>, s: seq<Byte>, after: seq<Byte>)
    requires Text(utf8, s)
    ensures ReadStr(utf8, before + EncodeStr(s) + after, |before|) ==
      Some(Read(s, |before + EncodeStr(s)|))
  {
    var data := before + EncodeStr(s) + after;
    assert data == before + ToLe(|s|, 4) + s + after;
    assert data[|before|..|before| + 4] == ToLe(|s|, 4);
    LeRoundTrip(|s|, 4);
    assert data[|before| + 4..|before| + 4 + |s|] == s;
  }

  lemma StrWasEncoded(utf8: Utf8, data: seq<Byte>, off: nat)
    requires ReadStr(utf8, data, off).Some?
    ensures var read := ReadStr(utf8, data, off).value;
      && off <= read.end <= |data|
      && data[off..read.end] == EncodeStr(read.value)
      && Text(utf8, read.value)
  {
    var header := data[off..off + 4];
    var read := ReadStr(utf8, data, off).value;
    LeCanonical(header);
    assert data[off..read.end] == header + read.value;
  }

  /** The same instruction, with the flag a given tail would set. */
  function WithTail(c: CreateIx, tail: seq<Byte>): CreateIx {
    c.(mayhem := c.v2 && tail != [] && tail[0] != 0)
  }

  /** A string encoded somewhere in the data is read back from there. */
  lemma StrReadsAt(utf8: Utf8, data: seq<Byte>, before: seq<Byte>, s: seq<Byte>, after: seq<Byte>)
    requires Text(utf8, s) && data == before + EncodeStr(s) + after
    ensures ReadStr(utf8, data, |before|) == Some(Read(s, |before| + |EncodeStr(s)|))
  {
    hide ReadStr, EncodeStr;
    StrReads(utf8, before, s, after);
  }

  lemma NameReads(utf8: Utf8, c: CreateIx, tail: seq<Byte>)
    requires Encodable(utf8, c)
    ensures ReadStr(utf8, EncodeCreate(c) + tail, 8) == Some(Read(c.name, NameEnd(c)))
  {
    hide ReadStr, EncodeStr;
    var after := EncodeStr(c.symbol) + EncodeStr(c.uri) + c.creator + tail;
    assert EncodeCreate(c) + tail == CreateDisc(c.v2) + EncodeStr(c.name) + after;
    StrReadsAt(utf8, EncodeCreate(c) + tail, CreateDisc(c.v2), c.name, after);
  }

  lemma SymbolReads(utf8: Utf8, c: CreateIx, tail: seq<Byte>)
    requires Encodable(utf8, c)
    ensures ReadStr(utf8, EncodeCreate(c) + tail, NameEnd(c)) == Some(Read(c.symbol, SymbolEnd(c)))
  {
    hide ReadStr, EncodeStr;
    var before := CreateDisc(c.v2) + EncodeStr(c.name);
    var after := EncodeStr(c.uri) + c.creator + tail;
    assert EncodeCreate(c) + tail == before + EncodeStr(c.symbol) + after;
    StrReadsAt(utf8, EncodeCreate(c) + tail, before, c.symbol, after);
  }

  lemma UriReads(utf8: Utf8, c: CreateIx, tail: seq<Byte>)
    requires Encodable(utf8, c)
    ensures ReadStr(utf8, EncodeCreate(c) + tail, SymbolEnd(c)) == Some(Read(c.uri, UriEnd(c)))
  {
    hide ReadStr, EncodeStr;
    var before := CreateDisc(c.v2) + EncodeStr(c.name) + EncodeStr(c.symbol);
    var after := c.creator + tail;
    assert EncodeCreate(c) + tail == before + EncodeStr(c.uri) + after;
    StrReadsAt(utf8, EncodeCreate(c) + tail, before, c.uri, after);
  }

  lemma CreatorReads(utf8: Utf8, c: CreateIx, tail: seq<Byte>)
    requires Encodable(utf8, c)
    ensures |EncodeCreate(c)| == UriEnd(c) + 32
    ensures ReadPubkey(EncodeCreate(c) + tail, UriEnd(c)) == Some(Read(c.creator, UriEnd(c) + 32))
    ensures (EncodeCreate(c) + tail)[..8] == CreateDisc(c.v2)
  {
    hide EncodeStr;
    var before := CreateDisc(c.v2) + EncodeStr(c.name) + EncodeStr(c.symbol) + EncodeStr(c.uri);
    assert EncodeCreate(c) == before + c.creator;
    assert (before + c.creator + tail)[|before|..|before| + 32] == c.creator;
  }

  /** Parsing an encoded create instruction, followed by anything at all, gives it back; the tail
      only decides the mayhem flag of a v2 instruction. */
  lemma CreateRoundTrip(utf8: Utf8, c: CreateIx, accounts: seq<string>, tail: seq<Byte>)
    requires Encodable(utf8, c)
    requires |accounts| >= 3 && accounts[0] == c.mint && accounts[2] == c.bondingCurve
    ensures ParseCreate(utf8, PUMP_PROGRAM, accounts, EncodeCreate(c) + tail) == Some(WithTail(c, tail))
  {
    hide ReadStr, ReadPubkey, EncodeStr, EncodeCreate;
    NameReads(utf8, c, tail);
    SymbolReads(utf8, c, tail);
    UriReads(utf8, c, tail);
    CreatorReads(utf8, c, tail);
    VersionsDiffer(c.v2);
  }

  lemma VersionsDiffer(v2: bool)
    ensures CreateVersion(CreateDisc(v2)) == Some(v2)
  {
    assert CREATE_DISC[0] != CREATE_V2_DISC[0];
  }

  lemma SplitAt(data: seq<Byte>, a: nat, b: nat)
    requires a <= b <= |data|
    ensures data[..b] == data[..a] + data[a..b]
  {}

  /** A create instruction that parses re-encodes to a prefix of its input. */
  lemma CreateReencodes(utf8: Utf8, program: string, accounts: seq<string>, data: seq<Byte>)
    requires ParseCreate(utf8, program, accounts, data).Some?
    ensures var c := ParseCreate(utf8, program, accounts, data).value;
      && Encodable(utf8, c)
      && EncodeCreate(c) <= data
      && program == PUMP_PROGRAM && |accounts| >= 3
      && c.mint == accounts[0] && c.bondingCurve == accounts[2]
  {
    hide ReadStr;
    var c := ParseCreate(utf8, program, accounts, data).value;
    var name := ReadStr(utf8, data, 8).value;
    StrWasEncoded(utf8, data, 8);
    var symbol := ReadStr(utf8, data, name.end).value;
    StrWasEncoded(utf8, data, name.end);
    var uri := ReadStr(utf8, data, symbol.end).value;
    StrWasEncoded(utf8, data, symbol.end);
    var end := uri.end + 32;
    SplitAt(data, 8, name.end);
    SplitAt(data, name.end, symbol.end);
    SplitAt(data, symbol.end, uri.end);
    SplitAt(data, uri.end, end);
    assert EncodeCreate(c) == data[..end];
  }

  /** Every strict prefix of the mandatory part is rejected: the encoding is prefix-free. */
  lemma CreatePrefixRejected(utf8: Utf8, c: CreateIx, accounts: seq<string>, k: nat)
    requires Encodable(utf8, c)
    requires |accounts| >= 3 && accounts[0] == c.mint && accounts[2] == c.bondingCurve
    requires k < |EncodeCreate(c)|
    ensures ParseCreate(utf8, PUMP_PROGRAM, accounts, EncodeCreate(c)[..k]) == None
  {
    hide ParseCreate, EncodeCreate;
    var whole := EncodeCreate(c);
    if ParseCreate(utf8, PUMP_PROGRAM, accounts, whole[..k]).Some? {
      var d := ParseCreate(utf8, PUMP_PROGRAM, accounts, whole[..k]).value;
      CreateReencodes(utf8, PUMP_PROGRAM, accounts, whole[..k]);
      var tail := whole[|EncodeCreate(d)|..];
      assert whole == EncodeCreate(d) + tail;
      CreateRoundTrip(utf8, d, accounts, tail);
      CreateRoundTrip(utf8, c, accounts, []);
      assert whole + [] == whole;
      SameMandatoryPart(c, d);
    }
  }

  lemma SameMandatoryPart(c: CreateIx, d: CreateIx)
    requires c.(mayhem := false) == d.(mayhem := false)
    ensures EncodeCreate(c) == EncodeCreate(d)
  {}

  // ---- buy / sell ----

  datatype TradeKind = Buy | Sell

  datatype TradeIx = TradeIx(
    kind: TradeKind,
    v2: bool,
    mint: string,
    bondingCurve: string,
    amountBaseUnits: nat,
    limitQuoteUnits: nat)

  function TradeType(disc: seq<Byte>): Option<(TradeKind, bool)> {
    if disc == BUY_DISC then Some((Buy, false))
    else if disc == SELL_DISC then Some((Sell, false))
    else if disc == BUY_V2_DISC then Some((Buy, true))
    else if disc == SELL_V2_DISC then Some((Sell, true))
    else None
  }

  function TradeDisc(kind: TradeKind, v2: bool): seq<Byte> {
    match kind
    case Buy => if v2 then BUY_V2_DISC else BUY_DISC
    case Sell => if v2 then SELL_V2_DISC else SELL_DISC
  }

  function MintIndex(v2: bool): nat { if v2 then 1 else 2 }

  function CurveIndex(v2: bool): nat { if v2 then 10 else 3 }

  function ParseTrade(program: string, accounts: seq<string>, data: seq<Byte>): Option<TradeIx> {
    if program != PUMP_PROGRAM || |data| < 24 then None
    else
      match TradeType(data[..8])
      case None => None
      case Some((kind, v2)) =>
        if |accounts| < (if v2 then 11 else 4) then None
        else
          match ReadU64(data, 8)
          case None => None
          case Some(amount) =>
            match ReadU64(data, amount.end)
            case None => None
            case Some(limit) =>
              Some(TradeIx(kind, v2, accounts[MintIndex(v2)], accounts[CurveIndex(v2)], amount.value, limit.value))
  }

  method DecodeTrade(program: string, accounts: seq<string>, data: seq<Byte>) returns (r: Option<TradeIx>)
    ensures r == ParseTrade(program, accounts, data)
  {
    if program != PUMP_PROGRAM || |data| < 24 {
      return None;
    }
    var tag := TradeType(data[..8]);
    if tag.None? {
      return None;
    }
    var (kind, v2) := tag.value;
    var minAccounts := if v2 then 11 else 4;
    if |accounts| < minAccounts {
      return None;
    }
    var cursor := new Cursor(data, 8);
    var amount := cursor.U64();
    if amount.None? {
      return None;
    }
    var limit := cursor.U64();
    if limit.None? {
      return None;
    }
    return Some(TradeIx(kind, v2, accounts[MintIndex(v2)], accounts[CurveIndex(v2)], amount.value, limit.value));
  }

  function EncodeTrade(t: TradeIx): seq<Byte> {
    TradeDisc(t.kind, t.v2) + ToLe(t.amountBaseUnits, 8) + ToLe(t.limitQuoteUnits, 8)
  }

  predicate TradeFits(t: TradeIx, accounts: seq<string>) {
    && t.amountBaseUnits < Values(8) && t.limitQuoteUnits < Values(8)
    && |accounts| >= (if t.v2 then 11 else 4)
    && t.mint == (if t.v2 then accounts[1] else accounts[2])
    && t.bondingCurve == (if t.v2 then accounts[10] else accounts[3])
  }

  lemma U64Reads(data: seq<Byte>, off: nat, n: nat)
    requires n < Values(8) && off + 8 <= |data| && data[off..off + 8] == ToLe(n, 8)
    ensures ReadU64(data, off) == Some(Read(n, off + 8))
  {
    LeRoundTrip(n, 8);
  }

  lemma TradeFields(t: TradeIx)
    ensures var e := EncodeTrade(t);
      && |e| == 24 && e[..8] == TradeDisc(t.kind, t.v2)
      && e[8..16] == ToLe(t.amountBaseUnits, 8) && e[16..24] == ToLe(t.limitQuoteUnits, 8)
  {
    hide ToLe;
  }

  lemma TradeParses(accounts: seq<string>, data: seq<Byte>, t: TradeIx)
    requires TradeFits(t, accounts) && EncodeTrade(t) <= data
    ensures ParseTrade(PUMP_PROGRAM, accounts, data) == Some(t)
  {
    hide ToLe, FromLe, Values, ReadU64, EncodeTrade;
    var e := EncodeTrade(t);
    TradeFields(t);
    assert data[..8] == e[..8] && data[8..16] == e[8..16] && data[16..24] == e[16..24];
    U64Reads(data, 8, t.amountBaseUnits);
    U64Reads(data, 16, t.limitQuoteUnits);
  }

  lemma TradeReencodes(accounts: seq<string>, data: seq<Byte>, t: TradeIx)
    requires ParseTrade(PUMP_PROGRAM, accounts, data) == Some(t)
    ensures TradeFits(t, accounts) && EncodeTrade(t) <= data
  {
    hide ToLe, FromLe, Values;
    LeCanonical(data[8..16]);
    LeCanonical(data[16..24]);
    assert EncodeTrade(t) == data[..8] + data[8..16] + data[16..24];
    assert data[..24] == data[..8] + data[8..16] + data[16..24];
  }

  /** Trades: an instruction parses exactly if it starts with an encoding, to the trade encoded; the
      tail is ignored, and anything shorter is rejected. */
  lemma TradeParsesIffEncoded(accounts: seq<string>, data: seq<Byte>, t: TradeIx)
    ensures ParseTrade(PUMP_PROGRAM, accounts, data) == Some(t) <==>
      TradeFits(t, accounts) && EncodeTrade(t) <= data
  {
    hide ParseTrade, EncodeTrade, TradeFits;
    if TradeFits(t, accounts) && EncodeTrade(t) <= data {
      TradeParses(accounts, data, t);
    }
    if ParseTrade(PUMP_PROGRAM, accounts, data) == Some(t) {
      TradeReencodes(accounts, data, t);
    }
  }

  // ---- migrate ----

  datatype MigrateIx = MigrateIx(mint: string, bondingCurve: string, pool: string)

  function ParseMigrate(program: string, accounts: seq<string>, data: seq<Byte>): Option<MigrateIx> {
    if program != PUMP_PROGRAM || |data| < 8 || |accounts| < 10 then None
    else if data[..8] != MIGRATE_DISC then None
    else Some(MigrateIx(accounts[2], accounts[3], accounts[9]))
  }

  /** Migrations: an instruction parses exactly if it starts with the discriminator and has ten accounts,
      which name the mint, the curve and the pool. */
  lemma MigrateParsesIff(accounts: seq<string>, data: seq<Byte>, m: MigrateIx)
    ensures ParseMigrate(PUMP_PROGRAM, accounts, data) == Some(m) <==>
      && MIGRATE_DISC <= data && |accounts| >= 10
      && m.mint == accounts[2] && m.bondingCurve == accounts[3] && m.pool == accounts[9]
  {
    if MIGRATE_DISC <= data {
      assert data[..8] == MIGRATE_DISC;
    }
  }

  /** Instructions of other programs are never read. */
  lemma ForeignProgramsAreIgnored(utf8: Utf8, program: string, accounts: seq<string>, data: seq<Byte>)
    requires program != PUMP_PROGRAM
    ensures ParseCreate(utf8, program, accounts, data).None?
    ensures ParseTrade(program, accounts, data).None?
    ensures ParseMigrate(program, accounts, data).None?
  {}

  /** No instruction is read in two ways: at most one of the three decoders accepts it. */
  lemma DecodersAreDisjoint(utf8: Utf8, program: string, accounts: seq<string>, data: seq<Byte>)
    ensures ParseCreate(utf8, program, accounts, data).Some? ==>
      ParseTrade(program, accounts, data).None? && ParseMigrate(program, accounts, data).None?
    ensures ParseTrade(program, accounts, data).Some? ==> ParseMigrate(program, accounts, data).None?
  {
    hide ReadStr, ReadPubkey;
    if |data| >= 8 {
      var first := data[..8][0];
      assert CreateVersion(data[..8]).Some? ==> first == 24 || first == 214;
      assert TradeType(data[..8]).Some? ==> first == 102 || first == 51 || first == 184 || first == 93;
      assert data[..8] == MIGRATE_DISC ==> first == 155;
    }
  }

  // ---- bonding-curve account ----

  datatype CurveReserves = CurveReserves(
    virtualBase: nat,
    virtualQuote: nat,
    realBase: nat,
    realQuote: nat,
    totalSupply: nat,
    complete: bool)

  function U64At(data: seq<Byte>, off: nat): nat
    requires off + 8 <= |data|
  {
    FromLe(data[off..off + 8])
  }

  function ParseCurveAccount(data: seq<Byte>): Option<CurveReserves> {
    if |data| < 49 || data[..8] != CURVE_ACCOUNT_DISC then None
    else
      Some(CurveReserves(U64At(data, 8), U64At(data, 16), U64At(data, 24), U64At(data, 32),
                         U64At(data, 40), data[48] != 0))
  }

  method DecodeCurveAccount(data: seq<Byte>) returns (r: Option<CurveReserves>)
    ensures r == ParseCurveAccount(data)
  {
    if |data| < 49 {
      return None;
    }
    if data[..8] != CURVE_ACCOUNT_DISC {
      return None;
    }
    var cursor := new Cursor(data, 8);
    var virtualBase := cursor.U64();
    var virtualQuote := cursor.U64();
    var realBase := cursor.U64();
    var realQuote := cursor.U64();
    var totalSupply := cursor.U64();
    if virtualBase.None? || virtualQuote.None? || realBase.None? || realQuote.None? || totalSupply.None? {
      return None;
    }
    var complete := cursor.off < |data| && data[cursor.off] != 0;
    return Some(CurveReserves(virtualBase.value, virtualQuote.value, realBase.value, realQuote.value,
                              totalSupply.value, complete));
  }

  function EncodeCurveHead(r: CurveReserves): seq<Byte> {
    CURVE_ACCOUNT_DISC + ToLe(r.virtualBase, 8) + ToLe(r.virtualQuote, 8) + ToLe(r.realBase, 8)
      + ToLe(r.realQuote, 8) + ToLe(r.totalSupply, 8)
  }

  predicate CurveFits(r: CurveReserves) {
    r.virtualBase < Values(8) && r.virtualQuote < Values(8) && r.realBase < Values(8)
      && r.realQuote < Values(8) && r.totalSupply < Values(8)
  }

  lemma U64AtReads(data: seq<Byte>, off: nat, n: nat)
    requires off + 8 <= |data|
    ensures n < Values(8) && data[off..off + 8] == ToLe(n, 8) <==> U64At(data, off) == n
  {
    LeCanonical(data[off..off + 8]);
    if n < Values(8) {
      LeRoundTrip(n, 8);
    }
  }

  lemma CurveHeadFields(r: CurveReserves)
    ensures var h := EncodeCurveHead(r);
      && |h| == 48 && h[..8] == CURVE_ACCOUNT_DISC
      && h[8..16] == ToLe(r.virtualBase, 8) && h[16..24] == ToLe(r.virtualQuote, 8)
      && h[24..32] == ToLe(r.realBase, 8) && h[32..40] == ToLe(r.realQuote, 8)
      && h[40..48] == ToLe(r.totalSupply, 8)
  {
    hide ToLe;
  }

  /** Curve accounts: one parses exactly if it starts with the encoded reserves and a flag byte,
      which may be any nonzero value for a completed curve; the tail is ignored. */
  lemma CurveParsesIffEncoded(data: seq<Byte>, r: CurveReserves)
    ensures ParseCurveAccount(data) == Some(r) <==>
      && CurveFits(r) && |data| >= 49
      && EncodeCurveHead(r) <= data
      && (r.complete <==> data[48] != 0)
  {
    if |data| >= 49 {
      hide EncodeCurveHead, U64At, ToLe;
      U64AtReads(data, 8, r.virtualBase);
      U64AtReads(data, 16, r.virtualQuote);
      U64AtReads(data, 24, r.realBase);
      U64AtReads(data, 32, r.realQuote);
      U64AtReads(data, 40, r.totalSupply);
      CurveHeadFields(r);
      var h := EncodeCurveHead(r);
      SplitHead(data);
      SplitHead(h);
      if h <= data {
        assert data[..48] == h;
        SlicesOfPrefix(data, h);
      }
    }
  }

  lemma SplitHead(s: seq<Byte>)
    requires |s| >= 48
    ensures s[..48] == s[..8] + s[8..16] + s[16..24] + s[24..32] + s[32..40] + s[40..48]
  {}

  lemma SlicesOfPrefix(data: seq<Byte>, h: seq<Byte>)
    requires |h| == 48 && h <= data
    ensures data[..8] == h[..8] && data[8..16] == h[8..16] && data[16..24] == h[16..24]
    ensures data[24..32] == h[24..32] && data[32..40] == h[32..40] && data[40..48] == h[40..48]
  {}
}
