/** Reading a tap (lnurlw/lnurlw_request.go): the CMAC input, the counter, and the checks in their order. */
module TapRequest {
  import opened Sums
  import opened Tables
  import opened Databases

  type byte = x: int | 0 <= x < 256

  /** The session vector the CMAC is computed over, for a seven byte UID and a three byte counter. */
  function Sv2(uid: seq<byte>, ctr: seq<byte>): seq<byte> {
    [0x3c, 0xc3, 0x00, 0x01, 0x00, 0x80] + uid + ctr
  }

  /** check_cmac's buffer, filled byte by byte. */
  method FillSv2(uid: seq<byte>, ctr: seq<byte>) returns (sv2: array<byte>)
    requires |uid| == 7 && |ctr| == 3
    ensures fresh(sv2) && sv2[..] == Sv2(uid, ctr) && sv2.Length == 16
    ensures sv2[0] == 0x3c && sv2[1] == 0xc3 && sv2[2] == 0x00 && sv2[3] == 0x01 && sv2[4] == 0x00 && sv2[5] == 0x80
    ensures forall i | 0 <= i < 7 :: sv2[6 + i] == uid[i]
    ensures forall i | 0 <= i < 3 :: sv2[13 + i] == ctr[i]
  {
    sv2 := new byte[16];
    sv2[0], sv2[1], sv2[2], sv2[3], sv2[4], sv2[5] := 0x3c, 0xc3, 0x00, 0x01, 0x00, 0x80;
    for i := 0 to 7
      invariant sv2[..6 + i] == [0x3c, 0xc3, 0x00, 0x01, 0x00, 0x80] + uid[..i]
    {
      sv2[6 + i] := uid[i];
      assert uid[..i + 1] == uid[..i] + [uid[i]];
      assert sv2[..6 + i + 1] == sv2[..6 + i] + [uid[i]];
    }
    sv2[13] := ctr[0];
    sv2[14] := ctr[1];
    sv2[15] := ctr[2];
    assert sv2[..] == sv2[..13] + [ctr[0], ctr[1], ctr[2]];
    assert uid[..7] == uid && ctr == [ctr[0], ctr[1], ctr[2]];
  }

  /** The counter is little-endian. */
  function Counter(ctr: seq<byte>): nat
    requires |ctr| == 3
  {
    ctr[2] as int * 0x10000 + ctr[1] as int * 0x100 + ctr[0] as int
  }

  /** The card's own count: one more in the first byte, carried into the second and the third. */
  function Increment(ctr: seq<byte>): (r: seq<byte>)
    requires |ctr| == 3
    ensures |r| == 3
  {
    if ctr[0] < 0xff then [ctr[0] + 1, ctr[1], ctr[2]]
    else if ctr[1] < 0xff then [0x00, ctr[1] + 1, ctr[2]]
    else if ctr[2] < 0xff then [0x00, 0x00, ctr[2] + 1]
    else [0x00, 0x00, 0x00]
  }

  /** The counter read counts the taps of the card: it starts at zero and follows each increment. */
  lemma CounterCounts(ctr: seq<byte>)
    requires |ctr| == 3
    ensures Counter([0x00, 0x00, 0x00]) == 0
    ensures ctr != [0xff, 0xff, 0xff] ==> Counter(Increment(ctr)) == Counter(ctr) + 1
    ensures Counter(ctr) <= 0xff_ffff
  {
    assert ctr == [ctr[0], ctr[1], ctr[2]];
  }

  function HexDigit(n: nat): char
    requires n < 16
  {
    "0123456789abcdef"[n]
  }

  function Hex(bytes: seq<byte>): string {
    if bytes == [] then "" else [HexDigit(bytes[0] / 16), HexDigit(bytes[0] % 16)] + Hex(bytes[1..])
  }

  lemma {:induction false} HexInjective(a: seq<byte>, b: seq<byte>)
    ensures Hex(a) == Hex(b) ==> a == b
  {
    if Hex(a) == Hex(b) && a != [] && b != [] {
      assert Hex(a)[2..] == Hex(a[1..]) && Hex(b)[2..] == Hex(b[1..]);
      HexInjective(a[1..], b[1..]);
      DigitInjective(a[0] / 16, b[0] / 16);
      DigitInjective(a[0] % 16, b[0] % 16);
      assert Hex(a)[0] == Hex(b)[0] && Hex(a)[1] == Hex(b)[1];
      assert a == [a[0]] + a[1..] && b == [b[0]] + b[1..];
    } else if a != [] {
      assert |Hex(a)| >= 2;
    } else if b != [] {
      assert |Hex(b)| >= 2;
    }
  }

  lemma DigitInjective(m: nat, n: nat)
    requires m < 16 && n < 16
    ensures HexDigit(m) == HexDigit(n) ==> m == n
  {
  }

  /** What a hexadecimal digit says. */
  function DigitValue(c: char): int {
    if '0' <= c <= '9' then c as int - '0' as int else c as int - 'a' as int + 10
  }

  lemma DigitSays(n: nat)
    requires n < 16
    ensures DigitValue(HexDigit(n)) == n
  {
  }

  /** Hexadecimal text says the bytes it was made from, two digits each, in their order. */
  lemma {:induction false} HexSays(bytes: seq<byte>, k: nat)
    requires k < |bytes|
    ensures |Hex(bytes)| == 2 * |bytes|
    ensures 16 * DigitValue(Hex(bytes)[2 * k]) + DigitValue(Hex(bytes)[2 * k + 1]) == bytes[k]
    decreases |bytes|
  {
    HexLength(bytes);
    HexLength(bytes[1..]);
    DigitSays(bytes[0] / 16);
    DigitSays(bytes[0] % 16);
    if k > 0 {
      HexSays(bytes[1..], k - 1);
      assert Hex(bytes)[2..] == Hex(bytes[1..]);
      assert Hex(bytes)[2 * k] == Hex(bytes[1..])[2 * (k - 1)];
      assert Hex(bytes)[2 * k + 1] == Hex(bytes[1..])[2 * (k - 1) + 1];
    }
  }

  lemma {:induction false} HexLength(bytes: seq<byte>)
    ensures |Hex(bytes)| == 2 * |bytes|
    decreases |bytes|
  {
    if bytes != [] { HexLength(bytes[1..]); }
  }

  lemma Sv2Injective(uid: seq<byte>, ctr: seq<byte>, uid': seq<byte>, ctr': seq<byte>)
    requires |uid| == |uid'| == 7 && Sv2(uid, ctr) == Sv2(uid', ctr')
    ensures uid == uid' && ctr == ctr'
  {
    assert uid == Sv2(uid, ctr)[6..13];
    assert uid' == Sv2(uid', ctr')[6..13];
    assert ctr == Sv2(uid, ctr)[13..];
    assert ctr' == Sv2(uid', ctr')[13..];
  }

  lemma CounterInjective(ctr: seq<byte>, ctr': seq<byte>)
    requires |ctr| == |ctr'| == 3 && Counter(ctr) == Counter(ctr')
    ensures ctr == ctr'
  {
    assert ctr == [ctr[0], ctr[1], ctr[2]] && ctr' == [ctr'[0], ctr'[1], ctr'[2]];
  }

  /** Neither the CMAC input nor the stored UID and counter confuse two taps. */
  lemma TapsStayApart(uid: seq<byte>, ctr: seq<byte>, uid': seq<byte>, ctr': seq<byte>)
    requires |uid| == |uid'| == 7 && |ctr| == |ctr'| == 3
    ensures Sv2(uid, ctr) == Sv2(uid', ctr') <==> (uid, ctr) == (uid', ctr')
    ensures (Hex(uid), Counter(ctr)) == (Hex(uid'), Counter(ctr')) <==> (uid, ctr) == (uid', ctr')
  {
    if Sv2(uid, ctr) == Sv2(uid', ctr') { Sv2Injective(uid, ctr, uid', ctr'); }
    HexInjective(uid, uid');
    if Counter(ctr) == Counter(ctr') { CounterInjective(ctr, ctr'); }
  }

  datatype Answer = Validated(card: nat) | Refused

  /** What the decrypted p parameter says, when it is card data at all. */
  function Uid(dec: seq<byte>): string
    requires |dec| == 16
  {
    Hex(dec[1..8])
  }

  function Ctr(dec: seq<byte>): nat
    requires |dec| == 16
  {
    Counter(dec[8..11])
  }

  /** The one live card of the UID accepts: it is enabled, its CMAC is right and its counter is behind. */
  predicate Accepts(cards: seq<Card>, dec: seq<byte>, cmac: (Card, seq<byte>) -> Check, card: nat)
    requires |dec| == 16
  {
    && dec[0] == 0xC7 && card < |cards| && LiveIds(cards, Uid(dec)) == {card}
    && cards[card].lnurlw && cmac(cards[card], Sv2(dec[1..8], dec[8..11])) == Valid
    && cards[card].counter < Ctr(dec)
  }

  /** The UID looked up says bytes 1 to 7 of the card data, and the counter counts in bytes 8 to 10, lowest first. */
  lemma CardDataSays(dec: seq<byte>, k: nat)
    requires |dec| == 16 && k < 7
    ensures |Uid(dec)| == 14
    ensures 16 * DigitValue(Uid(dec)[2 * k]) + DigitValue(Uid(dec)[2 * k + 1]) == dec[1 + k]
    ensures Ctr(dec) == dec[8] as int + 256 * dec[9] as int + 65_536 * dec[10] as int
  {
    HexSays(dec[1..8], k);
  }

  /** Acceptance on the columns of the card and the bytes of the tap. */
  lemma AcceptsIff(cards: seq<Card>, dec: seq<byte>, cmac: (Card, seq<byte>) -> Check, card: nat)
    requires |dec| == 16
    ensures Accepts(cards, dec, cmac, card) <==>
              && dec[0] == 0xC7 && card < |cards|
              && (forall k: nat | k < |cards| :: cards[k].uid == Uid(dec) && !cards[k].wiped <==> k == card)
              && cards[card].lnurlw && cards[card].counter < Ctr(dec)
              && cmac(cards[card], [0x3c, 0xc3, 0x00, 0x01, 0x00, 0x80] + dec[1..8] + dec[8..11]) == Valid
  {
    if card < |cards| {
      assert card in LiveIds(cards, Uid(dec)) <==> cards[card].uid == Uid(dec) && !cards[card].wiped;
      if forall k: nat | k < |cards| :: cards[k].uid == Uid(dec) && !cards[k].wiped <==> k == card {
        assert LiveIds(cards, Uid(dec)) == {card};
      } else if LiveIds(cards, Uid(dec)) == {card} {
        forall k: nat | k < |cards| ensures cards[k].uid == Uid(dec) && !cards[k].wiped <==> k == card {
          assert k in LiveIds(cards, Uid(dec)) <==> k == card;
        }
      }
    }
  }

  /** The tap after an accepted one is accepted: the card has counted on, and nothing else has changed. */
  lemma NextTapIsAccepted(db: Db, dec: seq<byte>, next: seq<byte>, cmac: (Card, seq<byte>) -> Check, card: nat)
    requires |dec| == |next| == 16 && Accepts(db.cards, dec, cmac, card)
    requires next[0] == dec[0] && next[1..8] == dec[1..8] && next[8..11] == Increment(dec[8..11])
    requires dec[8..11] != [0xff, 0xff, 0xff]
    requires var t := CheckCounter(db, card, Ctr(dec)).0; cmac(t.cards[card], Sv2(next[1..8], next[8..11])) == Valid
    ensures Accepts(CheckCounter(db, card, Ctr(dec)).0.cards, next, cmac, card)
  {
    var cards := CheckCounter(db, card, Ctr(dec)).0.cards;
    CounterCounts(dec[8..11]);
    assert card in LiveIds(db.cards, Uid(dec));
    assert LiveIds(cards, Uid(next)) == LiveIds(db.cards, Uid(dec)) by {
      forall k: nat ensures k in LiveIds(cards, Uid(next)) <==> k in LiveIds(db.cards, Uid(dec)) {}
    }
  }

  method LiveCards(db: Database, uid: string) returns (ids: seq<nat>)
    ensures forall k: nat :: k in ids <==> k in LiveIds(db.cards, uid)
    ensures |ids| == |LiveIds(db.cards, uid)|
  {
    ids := [];
    var i := 0;
    while i < |db.cards|
      invariant 0 <= i <= |db.cards|
      invariant forall k: nat :: k in ids <==> k < i && Live(db.cards[k], uid)
      invariant |ids| == |set k: nat | k < i && k < |db.cards| && Live(db.cards[k], uid)|
    {
      var before := set k: nat | k < i && k < |db.cards| && Live(db.cards[k], uid);
      var after := set k: nat | k < i + 1 && k < |db.cards| && Live(db.cards[k], uid);
      assert after == if Live(db.cards[i], uid) then before + {i} else before;
      if Live(db.cards[i], uid) {
        ids := ids + [i];
      }
      i := i + 1;
    }
    assert (set k: nat | k < i && k < |db.cards| && Live(db.cards[k], uid)) == LiveIds(db.cards, uid);
  }

  /** After a tap with an unknown UID, a card found under the UID is the one just bound, with the tap's own counter. */
  lemma AfterBinding(before: seq<Card>, after: seq<Card>, bound: Option<nat>, uid: string, ctr: nat)
    requires LiveIds(before, uid) == {}
    requires bound.None? ==> after == before
    requires bound.Some? ==>
               && bound.value < |before|
               && after == before[bound.value := before[bound.value].(uid := uid, counter := ctr)]
    ensures forall k | k in LiveIds(after, uid) :: after[k].counter == ctr
  {
    forall k | k in LiveIds(after, uid) ensures bound == Some(k) {
      assert k !in LiveIds(before, uid);
    }
  }

  /**
   parse_request from the decrypted data on. A tap is accepted exactly when the one live card of its UID accepts it,
   and then only that card's counter changes; a refused tap changes at most one blank card, by binding it.
   */
  method ParseRequest(db: Database, dec: seq<byte>, cmac: (Card, seq<byte>) -> Check) returns (answer: Answer)
    requires |dec| == 16
    modifies db`cards
    ensures answer.Validated? ==>
              && Accepts(old(db.cards), dec, cmac, answer.card)
              && db.State() == CheckCounter(old(db.State()), answer.card, Ctr(dec)).0
              && db.cards == old(db.cards)[answer.card := old(db.cards)[answer.card].(counter := Ctr(dec))]
    ensures answer.Refused? ==> forall c :: !Accepts(old(db.cards), dec, cmac, c)
    ensures answer.Refused? ==>
              || db.cards == old(db.cards)
              || exists k :: && 0 <= k < |old(db.cards)| && IsBlank(old(db.cards)[k])
                             && LiveIds(old(db.cards), Uid(dec)) == {}
                             && db.State() == UpdateUidCounter(old(db.State()), k, Uid(dec), Ctr(dec)).0
  {
    if dec[0] != 0xC7 {
      return Refused;
    }
    var uid, ctr := Uid(dec), Ctr(dec);
    var buffer := FillSv2(dec[1..8], dec[8..11]);
    var sv2 := buffer[..];
    var ids := LiveCards(db, uid);
    if |ids| == 0 {
      assert LiveIds(db.cards, uid) == {};
      var bound := db.SetupCardRecord(uid, ctr, (c: Card) => cmac(c, sv2));
      AfterBinding(old(db.cards), db.cards, bound, uid, ctr);
      // a card bound here holds this very counter, so the counter check below refuses it
    }
    if |ids| > 1 {
      return Refused;
    }
    var found := LiveCards(db, uid);
    if |found| == 0 {
      return Refused;
    }
    var card := found[0];
    assert card in found;
    if |ids| == 1 { OnlyOne(LiveIds(db.cards, uid), card); }
    if !db.cards[card].lnurlw || cmac(db.cards[card], sv2) != Valid {
      return Refused;
    }
    var ok := db.CheckAndUpdateCounter(card, ctr);
    if !ok {
      return Refused;
    }
    answer := Validated(card);
  }

  lemma OnlyOne(s: set<nat>, x: nat)
    requires |s| == 1 && x in s
    ensures s == {x}
  {
    assert |s - {x}| == 0;
  }
}
