/**
 Numeric encodings: canonical decimal field elements, little-endian byte strings,
 the 99-byte note message and the comparison of the thirteen public signals.
 */
module FieldEncoding {
  import opened Common

  const BN254_SCALAR_FIELD: nat :=
    21888242871839275222246405745257275088548364400416034343698204186575808495617

  type Field = n: nat | n < BN254_SCALAR_FIELD

  // ----- decimal text -----

  predicate IsDigit(c: char) { '0' <= c <= '9' }

  function DigitValue(c: char): nat
    requires IsDigit(c)
  {
    (c - '0') as nat
  }

  /** The pattern `^(0|[1-9][0-9]*)$`. */
  predicate CanonicalDecimal(s: string) {
    && |s| > 0
    && (forall i :: 0 <= i < |s| ==> IsDigit(s[i]))
    && (s[0] == '0' ==> |s| == 1)
  }

  /** BigInt of a digit string, most significant digit first. */
  function ParseDecimal(s: string): nat
    requires forall i :: 0 <= i < |s| ==> IsDigit(s[i])
  {
    if s == [] then 0 else 10 * ParseDecimal(s[..|s| - 1]) + DigitValue(s[|s| - 1])
  }

  /** BigInt.prototype.toString in base ten. */
  function PrintDecimal(n: nat): string {
    if n < 10 then ['0' + n as char] else PrintDecimal(n / 10) + ['0' + (n % 10) as char]
  }

  /** `normalizeFieldElement`: the text itself when it names a field element. */
  function NormalizeFieldElement(s: string): (r: Result<Field>) {
    if !CanonicalDecimal(s) then Err("INVALID_PUBLIC_SIGNAL")
    else if ParseDecimal(s) >= BN254_SCALAR_FIELD then Err("INVALID_PUBLIC_SIGNAL")
    else Ok(ParseDecimal(s))
  }

  lemma {:induction false} PrintIsCanonical(n: nat)
    ensures CanonicalDecimal(PrintDecimal(n))
    ensures PrintDecimal(n)[0] == '0' ==> n == 0
  {
    if n >= 10 {
      PrintIsCanonical(n / 10);
    }
  }

  lemma {:induction false} ParseOfPrint(n: nat)
    ensures CanonicalDecimal(PrintDecimal(n)) && ParseDecimal(PrintDecimal(n)) == n
  {
    PrintIsCanonical(n);
    if n >= 10 {
      ParseOfPrint(n / 10);
      var s := PrintDecimal(n);
      assert s[..|s| - 1] == PrintDecimal(n / 10);
    } else {
      var s := PrintDecimal(n);
      assert s[..|s| - 1] == [];
    }
  }

  lemma {:induction false} PrintOfParse(s: string)
    requires CanonicalDecimal(s)
    ensures PrintDecimal(ParseDecimal(s)) == s
    ensures s[0] != '0' ==> ParseDecimal(s) > 0
  {
    var n, front := ParseDecimal(s), s[..|s| - 1];
    assert s == front + [s[|s| - 1]];
    if |s| == 1 {
      assert front == [];
    } else {
      PrintOfParse(front);
      assert n / 10 == ParseDecimal(front);
    }
  }

  /** Accepted texts are exactly the decimal printings of [0, p). */
  lemma AcceptedExactlyPrintings(s: string)
    ensures NormalizeFieldElement(s).Ok? <==> exists n: Field :: s == PrintDecimal(n)
    ensures NormalizeFieldElement(s).Ok? ==> s == PrintDecimal(NormalizeFieldElement(s).value)
  {
    if NormalizeFieldElement(s).Ok? {
      PrintOfParse(s);
    }
    forall n: Field | s == PrintDecimal(n) ensures NormalizeFieldElement(s) == Ok(n) {
      ParseOfPrint(n);
    }
  }

  lemma NormalizePrinted(n: Field)
    ensures NormalizeFieldElement(PrintDecimal(n)) == Ok(n)
  {
    ParseOfPrint(n);
  }

  /** Comparing two accepted texts as strings is comparing them as numbers. */
  lemma TextEqualityIsNumericEquality(s: string, t: string)
    requires NormalizeFieldElement(s).Ok? && NormalizeFieldElement(t).Ok?
    ensures s == t <==> NormalizeFieldElement(s).value == NormalizeFieldElement(t).value
  {
    PrintOfParse(s);
    PrintOfParse(t);
  }

  // ----- public signals -----

  const SIGNAL_COUNT := 13

  /** Thirteen accepted texts. */
  predicate AllCanonical(signals: seq<string>) {
    |signals| == SIGNAL_COUNT && forall i :: 0 <= i < SIGNAL_COUNT ==> NormalizeFieldElement(signals[i]).Ok?
  }

  /**
   `verifyJoinSplit` up to the call of the Groth16 verifier: the supplied signals
   must be thirteen accepted texts equal, one by one, to the authorized ones.
   */
  method MatchSignals(supplied: seq<string>, expected: seq<string>) returns (r: Result<seq<Field>>)
    requires |expected| == SIGNAL_COUNT
    ensures r.Ok? <==>
      |supplied| == SIGNAL_COUNT && (forall i :: 0 <= i < SIGNAL_COUNT ==>
        NormalizeFieldElement(supplied[i]).Ok? && NormalizeFieldElement(supplied[i]) == NormalizeFieldElement(expected[i]))
    ensures r.Ok? ==> supplied == expected && |r.value| == SIGNAL_COUNT
    ensures r.Ok? ==> forall i :: 0 <= i < SIGNAL_COUNT ==> Ok(r.value[i]) == NormalizeFieldElement(expected[i])
    ensures |supplied| != SIGNAL_COUNT ==> r == Err("INVALID_PROOF_PACKAGE")
    ensures |supplied| == SIGNAL_COUNT && (exists i :: 0 <= i < SIGNAL_COUNT && NormalizeFieldElement(supplied[i]).Err?) ==>
      r == Err("INVALID_PUBLIC_SIGNAL")
    ensures |supplied| == SIGNAL_COUNT && AllCanonical(supplied) && AllCanonical(expected) && supplied != expected ==>
      r == Err("PROOF_CONTEXT_MISMATCH")
    ensures r.Err? && r.code == "PROOF_CONTEXT_MISMATCH" ==>
      exists i :: 0 <= i < SIGNAL_COUNT && NormalizeFieldElement(expected[i]).Ok?
        && supplied[..i] == expected[..i] && supplied[i] != expected[i]
  {
    if |supplied| != SIGNAL_COUNT {
      return Err("INVALID_PROOF_PACKAGE");
    }
    var values: seq<Field> := [];
    var index := 0;
    while index < SIGNAL_COUNT
      invariant 0 <= index <= SIGNAL_COUNT && |values| == index
      invariant forall i :: 0 <= i < index ==> NormalizeFieldElement(supplied[i]) == Ok(values[i])
    {
      var parsed := NormalizeFieldElement(supplied[index]);
      if parsed.Err? {
        return Err(parsed.code);
      }
      values := values + [parsed.value];
      index := index + 1;
    }
    index := 0;
    while index < SIGNAL_COUNT
      invariant 0 <= index <= SIGNAL_COUNT
      invariant forall i :: 0 <= i < index ==> NormalizeFieldElement(expected[i]) == Ok(values[i]) && supplied[i] == expected[i]
    {
      var wanted := NormalizeFieldElement(expected[index]);
      if wanted.Err? {
        return Err(wanted.code);
      }
      TextEqualityIsNumericEquality(supplied[index], expected[index]);
      if supplied[index] != expected[index] {
        assert supplied[..index] == expected[..index];
        return Err("PROOF_CONTEXT_MISMATCH");
      }
      index := index + 1;
    }
    return Ok(values);
  }

  // ----- little-endian bytes -----

  type Byte = b: nat | b < 256

  function Pow256(n: nat): (p: nat)
    ensures p >= 1
  {
    if n == 0 then 1 else 256 * Pow256(n - 1)
  }

  /** The number a little-endian byte string stands for. */
  function FromBytes(bs: seq<Byte>): nat {
    if bs == [] then 0 else bs[0] + 256 * FromBytes(bs[1..])
  }

  function ToBytes(v: nat, n: nat): (bs: seq<Byte>)
    ensures |bs| == n
  {
    if n == 0 then [] else [v % 256] + ToBytes(v / 256, n - 1)
  }

  lemma {:induction false} FromToBytes(v: nat, n: nat)
    requires v < Pow256(n)
    ensures FromBytes(ToBytes(v, n)) == v
  {
    if n > 0 {
      FromToBytes(v / 256, n - 1);
      assert ToBytes(v, n)[1..] == ToBytes(v / 256, n - 1);
    }
  }

  /** `leBytes`: fixed-width little-endian encoding with its two range errors. */
  method LeBytes(v: int, n: nat) returns (r: Result<seq<Byte>>)
    ensures r.Ok? <==> 0 <= v < Pow256(n)
    ensures r.Ok? ==> |r.value| == n && FromBytes(r.value) == v && r.value == ToBytes(v, n)
    ensures v < 0 ==> r == Err("negative value")
    ensures v >= Pow256(n) ==> r == Err("value does not fit")
  {
    if v < 0 {
      return Err("negative value");
    }
    if v >= Pow256(n) {
      return Err("value does not fit");
    }
    var x: nat := v;
    var b: seq<Byte> := [];
    for i := 0 to n
      invariant |b| == i
      invariant ToBytes(v, n) == b + ToBytes(x, n - i)
    {
      b := b + [x % 256];
      x := x / 256;
    }
    FromToBytes(v, n);
    assert ToBytes(v, n) == b;
    return Ok(b);
  }

  // ----- note message -----

  const NOTE_DOMAIN: nat := 0x434c324e4f544501

  datatype Note = Note(amount: int, assetType: int, ownerPubKey: int, nonce: int, blinding: int)

  /** One fixed-width field of a message: its value and its width in bytes. */
  datatype Slot = Slot(value: int, width: nat)

  predicate Fits(slot: Slot) { 0 <= slot.value < Pow256(slot.width) }

  /** The 99-byte layout: domain 8, amount 8, asset type 4, owner key 32, nonce 16, blinding 31. */
  function Layout(note: Note): seq<Slot> {
    [Slot(NOTE_DOMAIN, 8), Slot(note.amount, 8), Slot(note.assetType, 4),
     Slot(note.ownerPubKey, 32), Slot(note.nonce, 16), Slot(note.blinding, 31)]
  }

  predicate AllFit(slots: seq<Slot>) {
    forall i :: 0 <= i < |slots| ==> Fits(slots[i])
  }

  /** The ranges `assertRange` and `leBytes` enforce together. */
  predicate InRange(note: Note) {
    AllFit(Layout(note))
  }

  function Pack(slots: seq<Slot>): seq<Byte>
    requires AllFit(slots)
  {
    if slots == [] then []
    else
      assert Fits(slots[0]);
      ToBytes(slots[0].value, slots[0].width) + Pack(slots[1..])
  }

  function TotalWidth(slots: seq<Slot>): nat {
    if slots == [] then 0 else slots[0].width + TotalWidth(slots[1..])
  }

  lemma {:induction false} PackWidth(slots: seq<Slot>)
    requires AllFit(slots)
    ensures |Pack(slots)| == TotalWidth(slots)
  {
    if slots != [] {
      PackWidth(slots[1..]);
    }
  }

  /** Messages with the same layout are equal only when every field is. */
  lemma {:induction false} PackInjective(s: seq<Slot>, t: seq<Slot>)
    requires |s| == |t| && forall i :: 0 <= i < |s| ==> s[i].width == t[i].width
    requires AllFit(s) && AllFit(t)
    requires Pack(s) == Pack(t)
    ensures s == t
  {
    if s != [] {
      var a, b := ToBytes(s[0].value, s[0].width), ToBytes(t[0].value, t[0].width);
      assert a == Pack(s)[..s[0].width] == Pack(t)[..s[0].width] == b;
      assert Pack(s[1..]) == Pack(s)[s[0].width..] == Pack(t)[s[0].width..] == Pack(t[1..]);
      FromToBytes(s[0].value, s[0].width);
      FromToBytes(t[0].value, t[0].width);
      PackInjective(s[1..], t[1..]);
    }
  }

  /** `noteMessage`: the six fields in layout order, or a range error. */
  method NoteMessage(note: Note) returns (r: Result<seq<Byte>>)
    ensures r.Ok? <==> InRange(note)
    ensures r.Ok? ==> r.value == Pack(Layout(note)) && |r.value| == 99
  {
    DomainFits();
    PackedWidth99(note);
    r := EncodeSlots(Layout(note));
  }

  /** The range checks and the concatenation of `noteMessage`, over the six slots. */
  method EncodeSlots(slots: seq<Slot>) returns (r: Result<seq<Byte>>)
    requires |slots| == 6 && Fits(slots[0])
    ensures r.Ok? <==> AllFit(slots)
    ensures r.Ok? ==> r.value == Pack(slots)
  {
    // the four ranged fields are checked before any byte is written
    if !Fits(slots[1]) || !Fits(slots[2]) || !Fits(slots[4]) || !Fits(slots[5]) {
      return Err("out of range");
    }
    var domain := LeBytes(slots[0].value, slots[0].width);
    var amount := LeBytes(slots[1].value, slots[1].width);
    var asset := LeBytes(slots[2].value, slots[2].width);
    var owner := LeBytes(slots[3].value, slots[3].width);
    if owner.Err? {
      return Err(owner.code);
    }
    var nonce := LeBytes(slots[4].value, slots[4].width);
    var blinding := LeBytes(slots[5].value, slots[5].width);
    PackSix(slots);
    return Ok(domain.value + (amount.value + (asset.value + (owner.value + (nonce.value + blinding.value)))));
  }

  lemma PackedWidth99(note: Note)
    ensures InRange(note) ==> |Pack(Layout(note))| == 99
  {
    if InRange(note) {
      PackWidth(Layout(note));
      PackSix(Layout(note));
    }
  }

  lemma PackSix(s: seq<Slot>)
    requires |s| == 6 && AllFit(s)
    ensures Pack(s) == ToBytes(s[0].value, s[0].width) + (ToBytes(s[1].value, s[1].width) + (ToBytes(s[2].value, s[2].width)
      + (ToBytes(s[3].value, s[3].width) + (ToBytes(s[4].value, s[4].width) + ToBytes(s[5].value, s[5].width)))))
    ensures TotalWidth(s) == s[0].width + s[1].width + s[2].width + s[3].width + s[4].width + s[5].width
  {
    assert s[1..][1..] == s[2..] && s[2..][1..] == s[3..] && s[3..][1..] == s[4..] && s[4..][1..] == s[5..] && s[5..][1..] == [];
    assert Pack(s[5..]) == ToBytes(s[5].value, s[5].width);
    assert Pack(s[3..]) == ToBytes(s[3].value, s[3].width) + Pack(s[4..]);
    assert Pack(s[1..]) == ToBytes(s[1].value, s[1].width) + Pack(s[2..]);
    assert TotalWidth(s[5..]) == s[5].width;
    assert TotalWidth(s[3..]) == s[3].width + TotalWidth(s[4..]);
    assert TotalWidth(s[1..]) == s[1].width + TotalWidth(s[2..]);
  }

  lemma DomainFits()
    ensures NOTE_DOMAIN < Pow256(8)
  {
    assert Pow256(2) == 0x10000;
    assert Pow256(4) == 0x100000000;
    assert Pow256(6) == 0x1000000000000;
  }

  /** No two in-range notes share a message. */
  lemma NoteMessageInjective(a: Note, b: Note)
    requires InRange(a) && InRange(b) && Pack(Layout(a)) == Pack(Layout(b))
    ensures a == b
  {
    PackInjective(Layout(a), Layout(b));
    assert Layout(a)[1] == Layout(b)[1] && Layout(a)[2] == Layout(b)[2] && Layout(a)[3] == Layout(b)[3]
      && Layout(a)[4] == Layout(b)[4] && Layout(a)[5] == Layout(b)[5];
  }
}
