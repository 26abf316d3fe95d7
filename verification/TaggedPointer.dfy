/** Tagged 64-bit words: an array index or an address packed together with a modification tag. */
module TaggedPointer {
  import opened Arithmetic

  const WORD: int := 0x1_0000_0000_0000_0000
  const HALF: int := 0x1_0000_0000
  const ADDRESS: int := 0x1_0000_0000_0000     // 2^48: where the 16-bit tag begins
  const SIGN_BIT: int := 0x8000_0000_0000      // kX64AddressSignBit
  const INVALID_TAG: int := 0xdead

  // ---- index and 32-bit tag ----

  function PackIndex(index: int, tag: int): int {
    index * HALF + tag
  }

  function Tag(word: int): int {
    word % HALF
  }

  function Index(word: int): int {
    word / HALF
  }

  lemma IndexRoundTrip(index: int, tag: int)
    requires 0 <= index < 0x1_0000_0000 && 0 <= tag < 0x1_0000_0000
    ensures 0 <= PackIndex(index, tag) < 0x1_0000_0000_0000_0000
    ensures Index(PackIndex(index, tag)) == index && Tag(PackIndex(index, tag)) == tag
  {
  }

  // ---- address and 16-bit tag ----

  function MakePointer(address: int, tag: int): int {
    address % ADDRESS + tag * ADDRESS
  }

  function GetTag(word: int): int {
    word / ADDRESS
  }

  /** The low 48 bits, sign-extended from bit 47. */
  function GetPointer(word: int): int {
    word % ADDRESS + if word / SIGN_BIT % 2 == 1 then 0xFFFF * ADDRESS else 0
  }

  /** A 64-bit address whose top 17 bits agree. */
  predicate Canonical(address: int) {
    address < 0x8000_0000_0000 || address >= 0xFFFF_8000_0000_0000
  }

  /** The tag always survives; the address survives exactly when it is canonical. */
  lemma PointerRoundTrip(address: int, tag: int)
    requires 0 <= address < 0x1_0000_0000_0000_0000 && 0 <= tag < 0x1_0000
    ensures GetTag(MakePointer(address, tag)) == tag
    ensures GetPointer(MakePointer(address, tag)) == address <==> Canonical(address)
  {
    var low := address % ADDRESS;
    assert MakePointer(address, tag) == low + tag * ADDRESS;
    assert (low + tag * ADDRESS) / SIGN_BIT == low / SIGN_BIT + 2 * tag;
  }

  // ---- the cycle of 16-bit tags that leaves out INVALID_TAG ----

  function NextTag(tag: int): int {
    var n := (tag + 1) % 0x1_0000;
    if n == INVALID_TAG then n + 1 else n
  }

  function PrevTag(tag: int): int {
    var n := (tag - 1) % 0x1_0000;
    if n == INVALID_TAG then n - 1 else n
  }

  predicate ValidTag(tag: int) {
    0 <= tag < 0x1_0000 && tag != 0xdead
  }

  lemma NextPrevInverse(tag: int)
    requires ValidTag(tag)
    ensures ValidTag(NextTag(tag)) && PrevTag(NextTag(tag)) == tag
    ensures ValidTag(PrevTag(tag)) && NextTag(PrevTag(tag)) == tag
  {
  }

  /** The tag reached from 0 after n steps of NextTag. */
  function TagAt(n: nat): int {
    if n == 0 then 0 else NextTag(TagAt(n - 1))
  }

  /** The period of the tags: all 65536 values but one. */
  const PERIOD: nat := 0xFFFF

  function ClosedForm(r: int): int {
    if r < 0xdead then r else r + 1
  }

  lemma ClosedFormStep(r: int)
    requires 0 <= r < PERIOD
    ensures NextTag(ClosedForm(r)) == ClosedForm(if r + 1 == PERIOD then 0 else r + 1)
  {
  }

  lemma {:induction false} TagClosedForm(n: nat)
    ensures TagAt(n) == ClosedForm(n % PERIOD)
  {
    if n > 0 {
      TagClosedForm(n - 1);
      ClosedFormStep((n - 1) % PERIOD);
      NextRemainder(n - 1, PERIOD);
    }
  }

  lemma TagAtValid(n: nat)
    ensures ValidTag(TagAt(n)) && TagAt(n + 1) == NextTag(TagAt(n)) && TagAt(n) == PrevTag(TagAt(n + 1))
  {
    TagClosedForm(n);
    NextPrevInverse(TagAt(n));
  }

  /** Two moments carry the same tag exactly when they are a multiple of 65535 steps apart. */
  lemma TagsCollide(p: nat, q: nat)
    ensures TagAt(p) == TagAt(q) <==> p % 65535 == q % 65535
  {
    TagClosedForm(p);
    TagClosedForm(q);
  }
}
