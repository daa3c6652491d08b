/**
 Avatar object keys: 128 random bits in lower-case base32 without padding, as section 6 of RFC 4648
 encodes them, and the test that recognises such a key. Strings are sequences of bytes here.
 */
module AvatarKey {

  type Byte = x: int | 0 <= x < 256
  type Symbol = x: int | 0 <= x < 32

  // ---------------------------------------------------------------- positional numbers

  function Pow(base: nat, k: nat): nat
  {
    if k == 0 then 1 else base * Pow(base, k - 1)
  }

  /** The number whose digits, most significant first, are ds. */
  function Value(ds: seq<int>, base: nat): int
  {
    if ds == [] then 0 else Value(ds[..|ds| - 1], base) * base + ds[|ds| - 1]
  }

  /** The last k digits of v, most significant first. */
  function Digits(v: nat, base: nat, k: nat): (ds: seq<nat>)
    requires 1 <= base
    ensures |ds| == k && forall i :: 0 <= i < k ==> ds[i] < base
  {
    if k == 0 then [] else Digits(v / base, base, k - 1) + [v % base]
  }

  ghost predicate AreDigits(ds: seq<int>, base: nat) { forall i :: 0 <= i < |ds| ==> 0 <= ds[i] < base }

  lemma DivMod(q: int, r: int, base: int)
    requires 0 <= r < base
    ensures (q * base + r) / base == q && (q * base + r) % base == r
  {
    var v := q * base + r;
    Cancel(base, v / base - q, r - v % base);
  }

  lemma Cancel(base: int, q: int, r: int)
    requires base * q == r && -base < r < base
    ensures q == 0 && r == 0
  {
    if q >= 1 { AtLeast(base, q); }
    if q <= -1 { AtLeast(base, -q); }
  }

  lemma AtLeast(base: int, q: int)
    requires 1 <= q && 0 <= base
    ensures base <= base * q
  {}

  lemma Below(q: int, r: int, base: int, bound: int)
    requires 0 <= q < bound && 0 <= r < base
    ensures 0 <= q * base + r < base * bound
  {
    AtLeastTimes(base, q + 1, bound);
    AtLeastTimes(base, 0, q);
  }

  lemma AtLeastTimes(base: int, a: int, b: int)
    requires a <= b && 0 <= base
    ensures base * a <= base * b
  {}

  lemma {:induction false} ValueBounded(ds: seq<int>, base: nat)
    requires AreDigits(ds, base)
    ensures 0 <= Value(ds, base) < Pow(base, |ds|)
  {
    if ds != [] {
      ValueBounded(ds[..|ds| - 1], base);
      Below(Value(ds[..|ds| - 1], base), ds[|ds| - 1], base, Pow(base, |ds| - 1));
    }
  }

  lemma {:induction false} DigitsOfValue(ds: seq<int>, base: nat)
    requires 1 <= base && AreDigits(ds, base)
    ensures 0 <= Value(ds, base) && Digits(Value(ds, base), base, |ds|) == ds
  {
    if ds != [] {
      var front, last := ds[..|ds| - 1], ds[|ds| - 1];
      DigitsOfValue(front, base);
      ValueBounded(ds, base);
      DivMod(Value(front, base), last, base);
      assert ds == front + [last];
    }
  }

  lemma {:induction false} ValueOfDigits(v: nat, base: nat, k: nat)
    requires 1 <= base && v < Pow(base, k)
    ensures Value(Digits(v, base, k), base) == v
  {
    if k > 0 {
      var q, r := Divide(v, base, Pow(base, k - 1));
      ValueOfDigits(q, base, k - 1);
      SnocValue(Digits(q, base, k - 1), r, base);
    }
  }

  lemma SnocValue(ds: seq<int>, d: int, base: nat)
    ensures Value(ds + [d], base) == Value(ds, base) * base + d
  {
    assert (ds + [d])[..|ds|] == ds;
  }

  lemma Divide(v: nat, base: nat, bound: nat) returns (q: nat, r: nat)
    requires 1 <= base && v < base * bound
    ensures q == v / base && r == v % base && q < bound && q * base + r == v
  {
    q, r := v / base, v % base;
    if v / base >= bound { AtLeastTimes(base, bound, v / base); }
  }

  lemma {:induction false} ValueOfConcat(a: seq<int>, b: seq<int>, base: nat)
    ensures Value(a + b, base) == Value(a, base) * Pow(base, |b|) + Value(b, base)
  {
    if b == [] {
      assert a + b == a;
    } else {
      var front, last := b[..|b| - 1], b[|b| - 1];
      ValueOfConcat(a, front, base);
      assert (a + b)[..|a + b| - 1] == a + front;
      Regroup(Value(a, base), Pow(base, |b| - 1), base, Value(front, base));
    }
  }

  lemma Regroup(a: int, p: int, base: int, f: int)
    ensures (a * p + f) * base == a * (base * p) + f * base
  {}

  // ---------------------------------------------------------------- the encoding

  type Id = b: seq<Byte> | |b| == 16 witness seq(16, i => 0)

  /**
   Section 6 of RFC 4648 without padding, for inputs that end in a one-byte group: every five bytes
   become eight symbols, and the last byte is extended with zero bits to two symbols.
   */
  function Encode(bytes: seq<Byte>): (syms: seq<Symbol>)
    requires |bytes| % 5 == 1
    ensures |syms| == |bytes| / 5 * 8 + 2
  {
    if |bytes| == 1 then
      [bytes[0] / 8, bytes[0] % 8 * 4]
    else
      EncodeGroup(bytes[0], bytes[1], bytes[2], bytes[3], bytes[4]) + Encode(bytes[5..])
  }

  /** Forty bits as eight symbols. */
  function EncodeGroup(a: Byte, b: Byte, c: Byte, d: Byte, e: Byte): (syms: seq<Symbol>)
    ensures |syms| == 8
  {
    [a / 8,
     a % 8 * 4 + b / 64,
     b / 2 % 32,
     b % 2 * 16 + c / 16,
     c % 16 * 2 + d / 128,
     d / 4 % 32,
     d % 4 * 8 + e / 32,
     e % 32]
  }

  lemma Value5(a: int, b: int, c: int, d: int, e: int)
    ensures Value([a, b, c, d, e], 256) == (((a * 256 + b) * 256 + c) * 256 + d) * 256 + e
  {
    var s := [a, b, c, d, e];
    assert s[..4] == [a, b, c, d] && s[..4][..3] == [a, b, c];
    assert [a, b, c, d][..3] == [a, b, c] && [a, b, c][..2] == [a, b] && [a, b][..1] == [a] && [a][..0] == [];
    Value2(a, b, 256);
    assert Value([a, b, c], 256) == (a * 256 + b) * 256 + c;
    assert Value([a, b, c, d], 256) == ((a * 256 + b) * 256 + c) * 256 + d;
  }

  lemma Value2(a: int, b: int, base: nat)
    ensures Value([a, b], base) == a * base + b
  {
    assert [a, b][..1] == [a] && [a][..0] == [];
    assert Value([a], base) == a;
  }

  lemma Value8(s: seq<int>)
    requires |s| == 8
    ensures Value(s, 32) == ((((((s[0] * 32 + s[1]) * 32 + s[2]) * 32 + s[3]) * 32 + s[4]) * 32 + s[5]) * 32 + s[6]) * 32 + s[7]
  {
    Value2(s[0], s[1], 32);
    assert s[..7][..6] == s[..6] && s[..6][..5] == s[..5] && s[..5][..4] == s[..4] && s[..4][..3] == s[..3];
    assert s[..3][..2] == [s[0], s[1]];
    assert Value(s[..3], 32) == (s[0] * 32 + s[1]) * 32 + s[2];
    assert Value(s[..4], 32) == ((s[0] * 32 + s[1]) * 32 + s[2]) * 32 + s[3];
    assert Value(s[..5], 32) == Value(s[..4], 32) * 32 + s[4];
    assert Value(s[..6], 32) == Value(s[..5], 32) * 32 + s[5];
    assert Value(s[..7], 32) == Value(s[..6], 32) * 32 + s[6];
  }

  lemma GroupKeepsValue(a: Byte, b: Byte, c: Byte, d: Byte, e: Byte)
    ensures Value(EncodeGroup(a, b, c, d, e), 32) == Value([a, b, c, d, e], 256)
  {
    var s := EncodeGroup(a, b, c, d, e);
    Value5(a, b, c, d, e);
    Value8(s);
    SplitBytes(a, b, c, d, e);
    Reassemble(a / 8, a % 8, b / 64, b / 2 % 32, b % 2, c / 16, c % 16, d / 128, d / 4 % 32, d % 4, e / 32, e % 32);
  }

  lemma SplitBytes(a: Byte, b: Byte, c: Byte, d: Byte, e: Byte)
    ensures a == a / 8 * 8 + a % 8
    ensures b == b / 64 * 64 + b / 2 % 32 * 2 + b % 2
    ensures c == c / 16 * 16 + c % 16
    ensures d == d / 128 * 128 + d / 4 % 32 * 4 + d % 4
    ensures e == e / 32 * 32 + e % 32
  {}

  /** The bits of five bytes, cut at the byte borders and at the symbol borders. */
  lemma Reassemble(a1: int, a0: int, b2: int, b1: int, b0: int, c1: int, c0: int, d2: int, d1: int, d0: int, e1: int, e0: int)
    ensures (((((((a1 * 32 + (a0 * 4 + b2)) * 32 + b1) * 32 + (b0 * 16 + c1)) * 32 + (c0 * 2 + d2)) * 32 + d1) * 32
              + (d0 * 8 + e1)) * 32 + e0)
            == ((((a1 * 8 + a0) * 256 + (b2 * 64 + b1 * 2 + b0)) * 256 + (c1 * 16 + c0)) * 256 + (d2 * 128 + d1 * 4 + d0)) * 256
               + (e1 * 32 + e0)
  {}

  lemma {:induction false} PowersAlign(k: nat)
    ensures Pow(32, 8 * k + 2) == 4 * Pow(256, 5 * k + 1)
  {
    if k == 0 {
      assert Pow(32, 2) == 32 * Pow(32, 1) && Pow(32, 1) == 32 * Pow(32, 0);
      assert Pow(256, 1) == 256 * Pow(256, 0);
    } else {
      PowersAlign(k - 1);
      Pow8(8 * (k - 1) + 2);
      Pow5(5 * (k - 1) + 1);
    }
  }

  lemma Pow8(n: nat)
    ensures Pow(32, n + 8) == 1099511627776 * Pow(32, n)
  {
    assert Pow(32, n + 4) == 1048576 * Pow(32, n) by {
      assert Pow(32, n + 2) == 1024 * Pow(32, n);
    }
    assert Pow(32, n + 6) == 1024 * Pow(32, n + 4);
  }

  lemma Pow5(n: nat)
    ensures Pow(256, n + 5) == 1099511627776 * Pow(256, n)
  {
    assert Pow(256, n + 2) == 65536 * Pow(256, n);
    assert Pow(256, n + 4) == 65536 * Pow(256, n + 2);
  }

  /** Group by group or as one number: the symbols are the base-32 digits of the bytes' bits and two zero bits. */
  lemma {:induction false} EncodeKeepsValue(bytes: seq<Byte>)
    requires |bytes| % 5 == 1
    ensures Value(Encode(bytes), 32) == 4 * Value(bytes, 256)
  {
    if |bytes| == 1 {
      var a := bytes[0];
      Value2(a / 8, a % 8 * 4, 32);
      assert bytes[..0] == [];
      assert Value(bytes, 256) == a;
    } else {
      var head, tail := bytes[..5], bytes[5..];
      var k := |tail| / 5;
      EncodeKeepsValue(tail);
      GroupKeepsValue(bytes[0], bytes[1], bytes[2], bytes[3], bytes[4]);
      assert head == [bytes[0], bytes[1], bytes[2], bytes[3], bytes[4]];
      ValueOfConcat(EncodeGroup(bytes[0], bytes[1], bytes[2], bytes[3], bytes[4]), Encode(tail), 32);
      assert bytes == head + tail;
      ValueOfConcat(head, tail, 256);
      PowersAlign(k);
      assert |Encode(tail)| == 8 * k + 2 && |tail| == 5 * k + 1;
      FourTimes(Value(head, 256), Pow(256, |tail|), Value(tail, 256));
    }
  }

  lemma FourTimes(h: int, p: int, t: int)
    ensures h * (4 * p) + 4 * t == 4 * (h * p + t)
  {}

  /** The bytes whose bits are the first 128 of the symbols' 130. */
  function Decode(syms: seq<Symbol>): (id: Id)
    requires |syms| == 26
  {
    ValueBounded(syms, 32);
    Digits(Value(syms, 32) / 4, 256, |syms| * 5 / 8)
  }

  lemma DecodeEncode(id: Id)
    ensures |Encode(id)| == 26 && Decode(Encode(id)) == id
  {
    EncodeKeepsValue(id);
    assert AreDigits(id, 256);
    DigitsOfValue(id, 256);
    assert Value(Encode(id), 32) / 4 == Value(id, 256);
  }

  lemma LastSymbolOfValue(syms: seq<Symbol>)
    requires |syms| > 0
    ensures Value(syms, 32) % 4 == syms[|syms| - 1] % 4
  {
    SpareBits(Value(syms[..|syms| - 1], 32), syms[|syms| - 1]);
  }

  lemma SpareBits(q: int, r: int)
    ensures (q * 32 + r) % 4 == r % 4
  {
    DivMod(q * 8 + r / 4, r % 4, 4);
  }

  lemma DecodedValue(syms: seq<Symbol>, k: nat)
    requires |syms| == 8 * k + 2 && Value(syms, 32) % 4 == 0
    ensures 0 <= Value(syms, 32)
    ensures 4 * Value(Digits(Value(syms, 32) / 4, 256, 5 * k + 1), 256) == Value(syms, 32)
  {
    ValueBounded(syms, 32);
    PowersAlign(k);
    ValueOfDigits(Value(syms, 32) / 4, 256, 5 * k + 1);
  }

  lemma EncodeDecode(syms: seq<Symbol>)
    requires |syms| == 26 && syms[25] % 4 == 0
    ensures Encode(Decode(syms)) == syms
  {
    var k := |syms| / 8;
    assert |syms| == 8 * k + 2 && |syms| * 5 / 8 == 5 * k + 1;
    LastSymbolOfValue(syms);
    DecodedValue(syms, k);
    EncodeKeepsValue(Decode(syms));
    SameValue(syms, Encode(Decode(syms)));
  }

  lemma SameValue(a: seq<Symbol>, b: seq<Symbol>)
    requires |a| == |b| && Value(a, 32) == Value(b, 32)
    ensures a == b
  {
    DigitsOfValue(a, 32);
    DigitsOfValue(b, 32);
  }

  lemma EncodingEndsInFour(id: Id)
    ensures |Encode(id)| == 26 && Encode(id)[25] % 4 == 0
  {
    EncodeKeepsValue(id);
    SpareBitsAreZero(Encode(id), Value(id, 256));
  }

  lemma SpareBitsAreZero(syms: seq<Symbol>, v: int)
    requires |syms| > 0 && Value(syms, 32) == 4 * v
    ensures syms[|syms| - 1] % 4 == 0
  {
    LastSymbolOfValue(syms);
    FourDivides(Value(syms, 32), v);
  }

  lemma FourDivides(x: int, v: int)
    requires x == 4 * v
    ensures x % 4 == 0
  {}

  /** Exactly the symbol sequences whose two spare bits are zero are encodings. */
  lemma EncodingsExactly(syms: seq<Symbol>)
    requires |syms| == 26
    ensures (exists id: Id :: Encode(id) == syms) <==> syms[25] % 4 == 0
  {
    if syms[25] % 4 == 0 {
      EncodeDecode(syms);
    } else {
      forall id: Id ensures Encode(id) != syms { EncodingEndsInFour(id); }
    }
  }

  // ---------------------------------------------------------------- keys

  const PREFIX := "images/avatars/"
  const SUFFIX := ".jpg"

  function SymbolChar(d: Symbol): (c: char)
    ensures IsSymbolChar(c)
  {
    if d < 26 then 'a' + d as char else '2' + (d - 26) as char
  }

  predicate IsSymbolChar(c: char) { 'a' <= c <= 'z' || '2' <= c <= '7' }

  function CharSymbol(c: char): (d: Symbol)
    requires IsSymbolChar(c)
    ensures SymbolChar(d) == c
  {
    if 'a' <= c <= 'z' then (c - 'a') as int else (c - '2') as int + 26
  }

  /** The alphabet of section 6 of RFC 4648, in lower case. */
  const ALPHABET := "abcdefghijklmnopqrstuvwxyz234567"

  lemma SymbolsOfAlphabet(d: Symbol)
    ensures SymbolChar(d) == ALPHABET[d] && CharSymbol(ALPHABET[d]) == d
  {}

  /** A minted key spells the encoded id in that alphabet, between the prefix and the suffix. */
  lemma NewKeySpells(id: Id, i: nat)
    requires i < 26
    ensures |NewKey(id)| == 15 + 26 + 4 && NewKey(id)[..15] == "images/avatars/" && NewKey(id)[41..] == ".jpg"
    ensures |Encode(id)| == 26 && NewKey(id)[15 + i] == ALPHABET[Encode(id)[i]]
  {
    SymbolsOfAlphabet(Encode(id)[i]);
    assert |PREFIX| == 15 && |SUFFIX| == 4;
  }

  lemma SymbolsAreDistinct(d: Symbol)
    ensures CharSymbol(SymbolChar(d)) == d
  {}

  function Name(syms: seq<Symbol>): (name: string)
    ensures |name| == |syms|
  {
    seq(|syms|, i requires 0 <= i < |syms| => SymbolChar(syms[i]))
  }

  function NewKey(id: Id): string { PREFIX + Name(Encode(id)) + SUFFIX }

  /** What a key looks like. */
  ghost predicate IsKey(key: string, name: string)
  {
    key == PREFIX + name + SUFFIX && |name| == 26 && forall i :: 0 <= i < 26 ==> IsSymbolChar(name[i])
  }

  method ValidKey(key: string) returns (ok: bool)
    ensures ok <==> exists name :: IsKey(key, name)
  {
    if !(PREFIX <= key) { return false; }
    var rest := key[|PREFIX|..];
    if |rest| < |SUFFIX| || rest[|rest| - |SUFFIX|..] != SUFFIX { return false; }
    var name := rest[..|rest| - |SUFFIX|];
    assert key == PREFIX + name + SUFFIX;
    assert forall other :: IsKey(key, other) ==> other == name by {
      forall other | IsKey(key, other) ensures other == name { SameName(name, other); }
    }
    if |name| != 26 { return false; }
    for i := 0 to |name|
      invariant forall j :: 0 <= j < i ==> IsSymbolChar(name[j])
    {
      if !IsSymbolChar(name[i]) { return false; }
    }
    assert IsKey(key, name);
    return true;
  }

  lemma SameName(a: string, b: string)
    requires PREFIX + a + SUFFIX == PREFIX + b + SUFFIX
    ensures a == b
  {
    var s, t := PREFIX + a + SUFFIX, PREFIX + b + SUFFIX;
    assert |s| == |t|;
    assert a == s[|PREFIX|..|s| - |SUFFIX|];
    assert b == t[|PREFIX|..|t| - |SUFFIX|];
  }

  function NameSymbols(name: string): (syms: seq<Symbol>)
    requires forall i :: 0 <= i < |name| ==> IsSymbolChar(name[i])
    ensures |syms| == |name| && Name(syms) == name
  {
    seq(|name|, i requires 0 <= i < |name| => CharSymbol(name[i]))
  }

  /** Every minted key is valid, and gives back the random bits it was minted from: different bits, different keys. */
  lemma NewKeyIsValid(id: Id) returns (name: string)
    ensures IsKey(NewKey(id), name) && Decode(NameSymbols(name)) == id
  {
    name := Name(Encode(id));
    DecodeEncode(id);
    var syms := NameSymbols(name);
    forall i | 0 <= i < 26 ensures syms[i] == Encode(id)[i] { SymbolsAreDistinct(Encode(id)[i]); }
    assert syms == Encode(id);
  }

  /** A valid key could have been minted exactly when its last symbol ends in two zero bits. */
  lemma ValidKeyIsMinted(key: string, name: string)
    requires IsKey(key, name)
    ensures (exists id: Id :: NewKey(id) == key) <==> CharSymbol(name[25]) % 4 == 0
  {
    var syms := NameSymbols(name);
    EncodingsExactly(syms);
    if syms[25] % 4 == 0 {
      var id: Id :| Encode(id) == syms;
      assert NewKey(id) == key;
    } else {
      forall id: Id ensures NewKey(id) != key {
        if NewKey(id) == key {
          MintedFrom(id, name);
        }
      }
    }
  }

  lemma MintedFrom(id: Id, name: string)
    requires IsKey(NewKey(id), name)
    ensures Encode(id) == NameSymbols(name)
  {
    SameName(Name(Encode(id)), name);
    NamesAreDistinct(Encode(id), NameSymbols(name));
  }

  lemma NamesAreDistinct(a: seq<Symbol>, b: seq<Symbol>)
    requires Name(a) == Name(b)
    ensures a == b
  {
    assert |a| == |b|;
    forall i | 0 <= i < |a| ensures a[i] == b[i] {
      assert Name(a)[i] == Name(b)[i];
      SymbolsAreDistinct(a[i]);
      SymbolsAreDistinct(b[i]);
    }
  }

  /** So the test accepts more than minting makes: 25 times 'a' and then 'b'. */
  lemma ValidKeyNeverMinted() returns (key: string, name: string)
    ensures IsKey(key, name) && forall id: Id :: NewKey(id) != key
  {
    name := seq(25, i => 'a') + "b";
    key := PREFIX + name + SUFFIX;
    assert IsKey(key, name);
    ValidKeyIsMinted(key, name);
    assert CharSymbol(name[25]) == 1;
  }
}
