/**
 The byte strings that are hashed: the settlement id, the request fingerprint and the recipient
 details. Properties are about these pre-images, not about the digests.
 */
module CanonicalEncoding {
  import opened Common
  import opened Bytes

  type Key = k: seq<byte> | |k| == 32 witness seq(32, _ => 0)

  /** An address as the host holds it: an account's public key or a contract's id. */
  datatype Address = Account(key: Key) | Contract(key: Key)

  /** The canonical encoding of addresses, supplied by the host's XDR library. */
  type Encoder = Address -> seq<byte>

  /** No encoding is the beginning of another one. */
  ghost predicate PrefixFree(enc: Encoder) {
    forall a, b, x: seq<byte>, y: seq<byte> {:trigger enc(a) + x, enc(b) + y} ::
      enc(a) + x == enc(b) + y ==> a == b
  }

  lemma SplitAt(a: seq<byte>, x: seq<byte>, b: seq<byte>, y: seq<byte>)
    requires |a| == |b| && a + x == b + y
    ensures a == b && x == y
  {
    assert a == (a + x)[..|a|] && b == (b + y)[..|b|];
    assert x == (a + x)[|a|..] && y == (b + y)[|b|..];
  }

  lemma Regroup(enc: seq<byte>, head: seq<byte>, body: seq<byte>, x: seq<byte>)
    requires enc == head + body
    ensures enc + x == head + (body + x)
  {
  }

  /** A constant in front of every encoding changes nothing. */
  lemma ConstantPrefix(enc: Encoder, inner: Encoder, prefix: seq<byte>)
    requires PrefixFree(inner) && forall a :: enc(a) == prefix + inner(a)
    ensures PrefixFree(enc)
  {
    forall a, b, x: seq<byte>, y: seq<byte> | enc(a) + x == enc(b) + y
      ensures a == b
    {
      Regroup(enc(a), prefix, inner(a), x);
      Regroup(enc(b), prefix, inner(b), y);
      SplitAt(prefix, inner(a) + x, prefix, inner(b) + y);
    }
  }

  /** The values with the same discriminant have bodies of which none is the beginning of another. */
  ghost predicate BodiesPrefixFree(tag: Address -> nat, body: Encoder) {
    forall a, b, x: seq<byte>, y: seq<byte> {:trigger body(a) + x, body(b) + y} ::
      tag(a) == tag(b) && body(a) + x == body(b) + y ==> a == b
  }

  /**
   Discriminated unions, as in section 4.15 of RFC 4506, are prefix-free when the bodies of each case
   are: the four-byte discriminant says which case it is.
   */
  lemma TaggedUnionIsPrefixFree(enc: Encoder, tag: Address -> nat, body: Encoder)
    requires forall a :: tag(a) < Pow256(4) && enc(a) == BigEndian(tag(a), 4) + body(a)
    requires BodiesPrefixFree(tag, body)
    ensures PrefixFree(enc)
  {
    forall a, b, x: seq<byte>, y: seq<byte> | enc(a) + x == enc(b) + y
      ensures a == b
    {
      Regroup(enc(a), BigEndian(tag(a), 4), body(a), x);
      Regroup(enc(b), BigEndian(tag(b), 4), body(b), y);
      SplitAt(BigEndian(tag(a), 4), body(a) + x, BigEndian(tag(b), 4), body(b) + y);
      BigEndianInjective(tag(a), tag(b), 4);
    }
  }

  // ----- the layout of addresses -----

  /** The discriminants: of the value, of the two kinds of address, and of an account's key. */
  datatype Tags = Tags(value: nat, account: nat, contract: nat, key: nat) {
    predicate Valid() {
      value < Pow256(4) && account < Pow256(4) && contract < Pow256(4) && key < Pow256(4) && account != contract
    }

    function Of(a: Address): nat {
      if a.Account? then account else contract
    }
  }

  /** An account's key is a union of its own. */
  function KeyBytes(tags: Tags, a: Address): seq<byte> {
    if a.Account? then BigEndian(tags.key, 4) + a.key else a.key
  }

  function AddressBytes(tags: Tags, a: Address): seq<byte> {
    BigEndian(tags.value, 4) + (BigEndian(tags.Of(a), 4) + KeyBytes(tags, a))
  }

  lemma KeyBytesPrefixFree(tags: Tags, a: Address, x: seq<byte>, b: Address, y: seq<byte>)
    requires a.Account? == b.Account? && KeyBytes(tags, a) + x == KeyBytes(tags, b) + y
    ensures a == b
  {
    SplitAt(KeyBytes(tags, a), x, KeyBytes(tags, b), y);
    if a.Account? {
      SplitAt(BigEndian(tags.key, 4), a.key, BigEndian(tags.key, 4), b.key);
    }
  }

  /**
   Addresses as they are really written, a union in a union in a tagged value around 32 bytes, are
   prefix-free, although accounts and contracts have different lengths.
   */
  lemma AddressesArePrefixFree(enc: Encoder, tags: Tags)
    requires tags.Valid() && forall a :: enc(a) == AddressBytes(tags, a)
    ensures PrefixFree(enc)
  {
    var tag: Address -> nat := a => tags.Of(a);
    var body: Encoder := a => KeyBytes(tags, a);
    var inner: Encoder := a => BigEndian(tag(a), 4) + body(a);
    forall a, b, x: seq<byte>, y: seq<byte> | tag(a) == tag(b) && body(a) + x == body(b) + y
      ensures a == b
    {
      KeyBytesPrefixFree(tags, a, x, b, y);
    }
    TaggedUnionIsPrefixFree(inner, tag, body);
    ConstantPrefix(enc, inner, BigEndian(tags.value, 4));
  }

  // ----- settlement id -----

  datatype SettlementFields = SettlementFields(
    id: nat, sender: Address, agent: Address, amount: int, fee: int, expiry: Option<nat>)
  {
    predicate Valid() {
      id <= U64_MAX && InI128(amount) && InI128(fee) && (expiry.Some? ==> expiry.value <= U64_MAX)
    }

    function ExpiryOrZero(): nat {
      if expiry.Some? then expiry.value else 0
    }

    /** An absent expiry and an expiry of zero are written the same way. */
    function Normalized(): SettlementFields {
      this.(expiry := Some(ExpiryOrZero()))
    }
  }

  function U64Bytes(v: nat): seq<byte> {
    BigEndian(v, 8)
  }

  function I128Bytes(v: int): seq<byte> {
    BigEndian(Residue(v), 16)
  }

  function SettlementPreimage(enc: Encoder, f: SettlementFields): seq<byte> {
    U64Bytes(f.id) + (enc(f.sender) + (enc(f.agent) +
      (I128Bytes(f.amount) + (I128Bytes(f.fee) + U64Bytes(f.ExpiryOrZero())))))
  }

  method ComputeSettlementPreimage(enc: Encoder, f: SettlementFields) returns (buf: seq<byte>)
    ensures buf == SettlementPreimage(enc, f)
  {
    buf := [];
    buf := buf + U64Bytes(f.id);
    buf := buf + enc(f.sender);
    buf := buf + enc(f.agent);
    buf := buf + I128Bytes(f.amount);
    buf := buf + I128Bytes(f.fee);
    var expiryVal := if f.expiry.Some? then f.expiry.value else 0;
    buf := buf + U64Bytes(expiryVal);
  }

  lemma U64Injective(v: nat, w: nat)
    requires v <= U64_MAX && w <= U64_MAX && U64Bytes(v) == U64Bytes(w)
    ensures v == w
  {
    Powers();
    BigEndianInjective(v, w, 8);
  }

  lemma SplitAddress(enc: Encoder, a: Address, x: seq<byte>, b: Address, y: seq<byte>)
    requires PrefixFree(enc) && enc(a) + x == enc(b) + y
    ensures a == b && x == y
  {
    SplitAt(enc(a), x, enc(b), y);
  }

  /** The piece of `bs` that starts at `from`. */
  function Slice(bs: seq<byte>, from: nat, length: nat): seq<byte>
    requires from + length <= |bs|
  {
    bs[from..from + length]
  }

  lemma FirstSlice(piece: seq<byte>, rest: seq<byte>)
    ensures Slice(piece + rest, 0, |piece|) == piece
  {
  }

  lemma SliceAfter(head: seq<byte>, rest: seq<byte>, from: nat, length: nat)
    requires from + length <= |rest|
    ensures Slice(head + rest, |head| + from, length) == Slice(rest, from, length)
  {
  }

  lemma SecondSlice(head: seq<byte>, piece: seq<byte>, rest: seq<byte>)
    ensures Slice(head + (piece + rest), |head|, |piece|) == piece
  {
    SliceAfter(head, piece + rest, 0, |piece|);
    FirstSlice(piece, rest);
  }

  /** Four pieces in a row, the last of which ends the string. */
  lemma FourSlices(a: seq<byte>, b: seq<byte>, c: seq<byte>, d: seq<byte>)
    ensures var bs := a + (b + (c + d));
            && Slice(bs, 0, |a|) == a && Slice(bs, |a|, |b|) == b
            && Slice(bs, |a| + |b|, |c|) == c && Slice(bs, |a| + |b| + |c|, |d|) == d
  {
    FirstSlice(a, b + (c + d));
    SecondSlice(a, b, c + d);
    SliceAfter(a, b + (c + d), |b|, |c|);
    SecondSlice(b, c, d);
    SliceAfter(a, b + (c + d), |b| + |c|, |d|);
    SliceAfter(b, c + d, |c|, |d|);
    assert Slice(c + d, |c|, |d|) == d;
  }

  lemma Join(head: seq<byte>, piece: seq<byte>, rest: seq<byte>)
    ensures head + (piece + rest) == (head + piece) + rest
  {
  }

  lemma Numbers(f: SettlementFields)
    requires f.Valid()
    ensures Value(U64Bytes(f.id)) == f.id && Value(U64Bytes(f.ExpiryOrZero())) == f.ExpiryOrZero()
    ensures Value(I128Bytes(f.amount)) == f.amount % TWO_128 && Value(I128Bytes(f.fee)) == f.fee % TWO_128
  {
    Powers();
    ValueBigEndian(f.id, 8);
    ValueBigEndian(f.ExpiryOrZero(), 8);
    ValueBigEndian(Residue(f.amount), 16);
    ValueBigEndian(Residue(f.fee), 16);
  }

  /** The amount, the fee and the expiry, after what stands before them. */
  lemma LastThree(head: seq<byte>, x: seq<byte>, y: seq<byte>, z: seq<byte>)
    ensures var bs := head + (x + (y + z));
            && Slice(bs, |head|, |x|) == x && Slice(bs, |head| + |x|, |y|) == y
            && Slice(bs, |head| + |x| + |y|, |z|) == z
  {
    FourSlices(head, x, y, z);
  }

  lemma SixSlices(a: seq<byte>, b: seq<byte>, c: seq<byte>, d: seq<byte>, e: seq<byte>, f: seq<byte>)
    ensures var bs := a + (b + (c + (d + (e + f))));
            && |bs| == |a| + |b| + |c| + |d| + |e| + |f|
            && Slice(bs, 0, |a|) == a && Slice(bs, |a|, |b|) == b && Slice(bs, |a| + |b|, |c|) == c
            && Slice(bs, |a| + |b| + |c|, |d|) == d && Slice(bs, |a| + |b| + |c| + |d|, |e|) == e
            && Slice(bs, |a| + |b| + |c| + |d| + |e|, |f|) == f
  {
    FourSlices(a, b, c, d + (e + f));
    Join(a, b, c + (d + (e + f)));
    Join(a + b, c, d + (e + f));
    LastThree((a + b) + c, d, e, f);
  }

  /**
   Where each field stands: the id in the first eight bytes, then the addresses of sender and agent, the
   amount, the fee, and in the last eight bytes the expiry, numbers with the most significant byte first.
   */
  lemma SettlementLayout(enc: Encoder, f: SettlementFields)
    requires f.Valid()
    ensures var bs, s, a := SettlementPreimage(enc, f), |enc(f.sender)|, |enc(f.agent)|;
            && |bs| == 48 + s + a
            && Value(Slice(bs, 0, 8)) == f.id
            && Slice(bs, 8, s) == enc(f.sender)
            && Slice(bs, 8 + s, a) == enc(f.agent)
            && Value(Slice(bs, 8 + s + a, 16)) == f.amount % TWO_128
            && Value(Slice(bs, 24 + s + a, 16)) == f.fee % TWO_128
            && Value(Slice(bs, 40 + s + a, 8)) == if f.expiry.Some? then f.expiry.value else 0
  {
    SixSlices(U64Bytes(f.id), enc(f.sender), enc(f.agent), I128Bytes(f.amount), I128Bytes(f.fee),
              U64Bytes(f.ExpiryOrZero()));
    Numbers(f);
  }

  /** Two remittances have the same pre-image exactly when all six fields agree, up to a zero expiry. */
  lemma SettlementPreimageDetermines(enc: Encoder, f: SettlementFields, g: SettlementFields)
    requires PrefixFree(enc) && f.Valid() && g.Valid()
    ensures SettlementPreimage(enc, f) == SettlementPreimage(enc, g) <==> f.Normalized() == g.Normalized()
  {
    if SettlementPreimage(enc, f) == SettlementPreimage(enc, g) {
      var fe, ge := U64Bytes(f.ExpiryOrZero()), U64Bytes(g.ExpiryOrZero());
      var ff, gf := I128Bytes(f.fee) + fe, I128Bytes(g.fee) + ge;
      var fa, ga := I128Bytes(f.amount) + ff, I128Bytes(g.amount) + gf;
      var fg, gg := enc(f.agent) + fa, enc(g.agent) + ga;
      var fs, gs := enc(f.sender) + fg, enc(g.sender) + gg;
      SplitAt(U64Bytes(f.id), fs, U64Bytes(g.id), gs);
      U64Injective(f.id, g.id);
      SplitAddress(enc, f.sender, fg, g.sender, gg);
      SplitAddress(enc, f.agent, fa, g.agent, ga);
      SplitAt(I128Bytes(f.amount), ff, I128Bytes(g.amount), gf);
      ResidueInjective(f.amount, g.amount);
      SplitAt(I128Bytes(f.fee), fe, I128Bytes(g.fee), ge);
      ResidueInjective(f.fee, g.fee);
      U64Injective(f.ExpiryOrZero(), g.ExpiryOrZero());
    }
  }

  /** So with that layout two settlement pre-images are equal only for the same fields. */
  lemma SettlementPreimagesOfAddresses(enc: Encoder, tags: Tags, f: SettlementFields, g: SettlementFields)
    requires tags.Valid() && forall a :: enc(a) == AddressBytes(tags, a)
    requires f.Valid() && g.Valid()
    ensures SettlementPreimage(enc, f) == SettlementPreimage(enc, g) <==> f.Normalized() == g.Normalized()
  {
    AddressesArePrefixFree(enc, tags);
    SettlementPreimageDetermines(enc, f, g);
  }

  // ----- recipient details -----

  const MAX_TEXT: nat := 256

  datatype RecipientDetails =
    | Wallet(address: Address)
    | Bank(accountNumber: seq<byte>, routingCode: seq<byte>)

  /** Both strings must fit the 256-byte stack buffer they are copied through. */
  predicate Encodable(d: RecipientDetails) {
    d.Bank? ==> |d.accountNumber| <= MAX_TEXT && |d.routingCode| <= MAX_TEXT
  }

  function Prefixed(text: seq<byte>): seq<byte> {
    BigEndian(|text|, 4) + text
  }

  function RecipientPreimage(enc: Encoder, d: RecipientDetails): seq<byte> {
    match d
    case Wallet(address) => [1 as byte] + enc(address)
    case Bank(accountNumber, routingCode) => [2 as byte] + (Prefixed(accountNumber) + Prefixed(routingCode))
  }

  method ComputeRecipientPreimage(enc: Encoder, details: RecipientDetails) returns (r: Result<seq<byte>>)
    ensures r == if Encodable(details) then Ok(RecipientPreimage(enc, details)) else Err(HostTrap)
  {
    var buf: seq<byte> := [];
    match details {
      case Wallet(address) =>
        buf := buf + [1];
        buf := buf + enc(address);
        assert buf == RecipientPreimage(enc, details);
      case Bank(accountNumber, routingCode) =>
        buf := buf + [2];
        buf := buf + BigEndian(|accountNumber|, 4);
        if |accountNumber| > MAX_TEXT {
          return Err(HostTrap);
        }
        buf := buf + accountNumber;
        buf := buf + BigEndian(|routingCode|, 4);
        if |routingCode| > MAX_TEXT {
          return Err(HostTrap);
        }
        buf := buf + routingCode;
        assert buf == RecipientPreimage(enc, details);
    }
    r := Ok(buf);
  }

  lemma SplitPrefixed(s: seq<byte>, x: seq<byte>, t: seq<byte>, y: seq<byte>)
    requires |s| <= MAX_TEXT && |t| <= MAX_TEXT && Prefixed(s) + x == Prefixed(t) + y
    ensures s == t && x == y
  {
    assert Prefixed(s) + x == BigEndian(|s|, 4) + (s + x);
    assert Prefixed(t) + y == BigEndian(|t|, 4) + (t + y);
    SplitAt(BigEndian(|s|, 4), s + x, BigEndian(|t|, 4), t + y);
    Powers();
    BigEndianInjective(|s|, |t|, 4);
    SplitAt(s, x, t, y);
  }

  /** The recipient bytes can be decoded: they determine the kind of recipient and every field. */
  lemma RecipientPreimageDetermines(enc: Encoder, d: RecipientDetails, e: RecipientDetails)
    requires PrefixFree(enc) && Encodable(d) && Encodable(e)
    requires RecipientPreimage(enc, d) == RecipientPreimage(enc, e)
    ensures d == e
  {
    assert RecipientPreimage(enc, d)[0] == RecipientPreimage(enc, e)[0];
    var x, y := RecipientPreimage(enc, d)[1..], RecipientPreimage(enc, e)[1..];
    if d.Wallet? {
      assert x == enc(d.address) && y == enc(e.address);
      assert enc(d.address) + [] == enc(e.address) + [];
    } else {
      assert x == Prefixed(d.accountNumber) + Prefixed(d.routingCode);
      assert y == Prefixed(e.accountNumber) + Prefixed(e.routingCode);
      SplitPrefixed(d.accountNumber, Prefixed(d.routingCode), e.accountNumber, Prefixed(e.routingCode));
      assert Prefixed(d.routingCode) + [] == Prefixed(e.routingCode) + [];
      SplitPrefixed(d.routingCode, [], e.routingCode, []);
    }
  }

  lemma BankSlices(number: seq<byte>, code: seq<byte>, bs: seq<byte>)
    requires |number| <= MAX_TEXT && |code| <= MAX_TEXT && bs == [2 as byte] + (Prefixed(number) + Prefixed(code))
    ensures |bs| == 9 + |number| + |code| && bs[0] == 2
    ensures Value(Slice(bs, 1, 4)) == |number| && Slice(bs, 5, |number|) == number
    ensures Value(Slice(bs, 5 + |number|, 4)) == |code| && Slice(bs, 9 + |number|, |code|) == code
  {
    var tag: seq<byte> := [2];
    var n, c := BigEndian(|number|, 4), BigEndian(|code|, 4);
    Powers();
    ValueBigEndian(|number|, 4);
    ValueBigEndian(|code|, 4);
    Join(n, number, c + code);
    FourSlices(tag, n, number, c + code);
    Join(tag, n, number + (c + code));
    FourSlices(tag + n, number, c, code);
  }

  /** A wallet is a one and its address; a bank account is a two and both strings, each after its length. */
  lemma RecipientLayout(enc: Encoder, d: RecipientDetails)
    requires d.Bank? ==> |d.accountNumber| <= 256 && |d.routingCode| <= 256
    ensures Encodable(d)
    ensures var bs := RecipientPreimage(enc, d);
            match d
            case Wallet(address) => |bs| == 1 + |enc(address)| && bs[0] == 1 && bs[1..] == enc(address)
            case Bank(number, code) =>
              && |bs| == 9 + |number| + |code| && bs[0] == 2
              && Value(Slice(bs, 1, 4)) == |number| && Slice(bs, 5, |number|) == number
              && Value(Slice(bs, 5 + |number|, 4)) == |code| && Slice(bs, 9 + |number|, |code|) == code
  {
    if d.Bank? {
      BankSlices(d.accountNumber, d.routingCode, RecipientPreimage(enc, d));
    }
  }
}
