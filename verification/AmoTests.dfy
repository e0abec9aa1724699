/** The tests the AMO torture program picks from: the arithmetic ones on the integers below two to the 64, the
    bitwise ones on 64-bit vectors. */
module AmoTests {
  import opened Division
  import opened PairedFaults
  import opened PairedTest
  import opened Words

  type Bits = bv64

  /** The value of a word read as two's complement. */
  function Signed(x: Word): int {
    if x < WORDS / 2 then x else x - WORDS
  }

  /** The memory operations of section 8.4 of the RISC-V Unprivileged ISA, version 20191213. */
  datatype Arithmetic = Add | Max | MaxU | Min | MinU

  datatype Bitwise = Xor | And | Or

  /** What the AMO leaves in the word. */
  function Apply(op: Arithmetic, word: Word, src: Word): Word {
    match op
    case Add => (word + src) % WORDS
    case Max => if Signed(word) < Signed(src) then src else word
    case MaxU => if word < src then src else word
    case Min => if Signed(word) > Signed(src) then src else word
    case MinU => if word > src then src else word
  }

  function ApplyBits(op: Bitwise, word: Bits, src: Bits): Bits {
    match op
    case Xor => word ^ src
    case And => word & src
    case Or => word | src
  }

  /** The left hart's reference computation on the two operands. */
  function Crude(op: Arithmetic, lhs: Word, rhs: Word): Word {
    match op
    case Add => (lhs + rhs) % WORDS
    case Max => if Signed(lhs) > Signed(rhs) then lhs else rhs
    case MaxU => if lhs > rhs then lhs else rhs
    case Min => if Signed(lhs) < Signed(rhs) then lhs else rhs
    case MinU => if lhs < rhs then lhs else rhs
  }

  function CrudeBits(op: Bitwise, lhs: Bits, rhs: Bits): Bits {
    match op
    case Xor => lhs ^ rhs
    case And => lhs & rhs
    case Or => lhs | rhs
  }

  function Initval(op: Arithmetic): Word {
    match op
    case Max => WORDS / 2
    case Min => WORDS / 2 - 1
    case MinU => WORDS - 1
    case _ => 0
  }

  function InitialBits(op: Bitwise): Bits {
    if op.And? then 0xFFFF_FFFF_FFFF_FFFF else 0
  }

  function ArithmeticTest(op: Arithmetic, rand: (nat, nat) -> Word): Test<Word> {
    Test((w: Word, v: Word) => (Apply(op, w, v), v), false,
         (left: Word, right: Word, word: Word) => word == Crude(op, left, right), Initval(op), rand)
  }

  function BitwiseTest(op: Bitwise, rand: (nat, nat) -> Bits): Test<Bits> {
    UnitTest(op, (w, v) => ApplyBits(op, w, v), rand)
  }

  /** The same test of a unit that may compute anything. */
  function UnitTest(op: Bitwise, unit: (Bits, Bits) -> Bits, rand: (nat, nat) -> Bits): Test<Bits> {
    Test((w, v) => (unit(w, v), v), false, (left, right, word) => word == CrudeBits(op, left, right),
         InitialBits(op), rand)
  }

  function SwapOperand(h: nat, rnd: Bits): Bits {
    (rnd & !3) | if h == 1 then 1 else 0
  }

  predicate SwapAccepts(operand: Bits, partner: Bits, dest: Bits) {
    !(partner & 3 == 1 || operand & 3 == 0 || dest & 3 == 2 || dest == operand || dest == partner || operand == partner)
  }

  function SwapTest(rand: (nat, nat) -> Bits): Test<Bits> {
    Test((w, v) => (v, w), true, (left, right, word) => SwapAccepts(left, right, word), 2,
         (h, k) => SwapOperand(h, rand(h, k)))
  }

  // ---- the initial value is neutral and the order of the two AMOs does not matter ------------------------------

  lemma ArithmeticNeutral(op: Arithmetic, a: Word)
    ensures Apply(op, Initval(op), a) == a
  {
  }

  lemma ArithmeticSymmetric(op: Arithmetic, a: Word, b: Word)
    ensures Apply(op, a, b) == Apply(op, b, a) == Crude(op, a, b)
  {
  }

  lemma ArithmeticOnce(op: Arithmetic, a: Word, b: Word)
    ensures Apply(op, Apply(op, Initval(op), a), b) == Crude(op, a, b)
    ensures Apply(op, Apply(op, Initval(op), b), a) == Crude(op, a, b)
  {
    hide Apply, Initval, Crude;
    ArithmeticNeutral(op, a);
    ArithmeticNeutral(op, b);
    ArithmeticSymmetric(op, a, b);
  }

  lemma BitwiseNeutral(op: Bitwise, a: Bits)
    ensures ApplyBits(op, InitialBits(op), a) == a
  {
    match op
    case Xor => XorZero(a);
    case And => AndOnes(a);
    case Or => OrZero(a);
  }

  lemma XorZero(a: Bits)
    ensures 0 ^ a == a
  {
  }

  lemma AndOnes(a: Bits)
    ensures 0xFFFF_FFFF_FFFF_FFFF & a == a
  {
  }

  lemma OrZero(a: Bits)
    ensures 0 | a == a
  {
  }

  lemma BitwiseSymmetric(op: Bitwise, a: Bits, b: Bits)
    ensures ApplyBits(op, a, b) == ApplyBits(op, b, a) == CrudeBits(op, a, b)
  {
  }

  lemma BitwiseOnce(op: Bitwise, a: Bits, b: Bits)
    ensures ApplyBits(op, ApplyBits(op, InitialBits(op), a), b) == CrudeBits(op, a, b)
    ensures ApplyBits(op, ApplyBits(op, InitialBits(op), b), a) == CrudeBits(op, a, b)
  {
    hide ApplyBits, InitialBits, CrudeBits;
    BitwiseNeutral(op, a);
    BitwiseNeutral(op, b);
    BitwiseSymmetric(op, a, b);
  }

  // ---- what the operations compute ------------------------------------------------------------------------------

  /** Bit `i` of a word. */
  predicate Bit(x: Bits, i: Bits)
    requires i < 64
  {
    (x >> i) & 1 == 1
  }

  /** Bit by bit: exactly one, both, at least one. */
  lemma BitwiseBits(op: Bitwise, word: Bits, src: Bits, i: Bits)
    requires i < 64
    ensures Bit(ApplyBits(op, word, src), i) <==>
      match op
      case Xor => Bit(word, i) != Bit(src, i)
      case And => Bit(word, i) && Bit(src, i)
      case Or => Bit(word, i) || Bit(src, i)
  {
    match op
    case Xor => XorBit(word, src, i);
    case And => AndBit(word, src, i);
    case Or => OrBit(word, src, i);
  }

  lemma XorBit(a: Bits, b: Bits, i: Bits)
    requires i < 64
    ensures Bit(a ^ b, i) <==> Bit(a, i) != Bit(b, i)
  {
  }

  lemma AndBit(a: Bits, b: Bits, i: Bits)
    requires i < 64
    ensures Bit(a & b, i) <==> Bit(a, i) && Bit(b, i)
  {
  }

  lemma OrBit(a: Bits, b: Bits, i: Bits)
    requires i < 64
    ensures Bit(a | b, i) <==> Bit(a, i) || Bit(b, i)
  {
  }

  /** The sum is right modulo two to the 64; the others give one of the two, the greater or lesser as read. */
  lemma ArithmeticMeans(op: Arithmetic, word: Word, src: Word)
    ensures var r := Apply(op, word, src);
      match op
      case Add => r == word + src || r == word + src - WORDS
      case Max => (r == word || r == src) && Signed(r) >= Signed(word) && Signed(r) >= Signed(src)
      case MaxU => (r == word || r == src) && r >= word && r >= src
      case Min => (r == word || r == src) && Signed(r) <= Signed(word) && Signed(r) <= Signed(src)
      case MinU => (r == word || r == src) && r <= word && r <= src
  {
    if op.Add? {
      AddMeans(word, src, WORDS);
    }
  }

  lemma AddMeans(a: nat, b: nat, n: nat)
    requires a < n && b < n
    ensures (a + b) % n == a + b || (a + b) % n == a + b - n
  {
    WrapOnce(a + b, n);
  }

  // ---- the tests catch a lost operation ---------------------------------------------------------------------------

  /** With one of the two AMOs lost, the check accepts if and only if the lost one would have changed nothing. */
  lemma LostArithmetic(op: Arithmetic, rand: (nat, nat) -> Word, a: Word, b: Word)
    ensures var test := ArithmeticTest(op, rand); var word := Apply(op, Initval(op), a);
      (test.accepts(a, b, word) <==> Apply(op, word, b) == word)
        && (test.accepts(b, a, word) <==> Apply(op, word, b) == word)
  {
    hide Apply, Crude, Initval;
    ArithmeticOnce(op, a, b);
    ArithmeticOnce(op, b, a);
  }

  lemma LostBitwise(op: Bitwise, rand: (nat, nat) -> Bits, a: Bits, b: Bits)
    ensures var test := BitwiseTest(op, rand); var word := ApplyBits(op, InitialBits(op), a);
      && (test.accepts(a, b, word) <==> ApplyBits(op, word, b) == word)
      && (test.accepts(b, a, word) <==> ApplyBits(op, word, b) == word)
  {
    hide ApplyBits, CrudeBits, InitialBits;
    BitwiseOnce(op, a, b);
    BitwiseOnce(op, b, a);
  }

  /** A lost swap is always reported. */
  lemma LostSwap(rand: (nat, nat) -> Bits, k: nat)
    ensures var test := SwapTest(rand); var a, b := test.rand(0, k), test.rand(1, k);
      !test.accepts(2, b, a) && !test.accepts(a, 2, b)
  {
    hide SwapOperand;
    SwapLowBits(0, rand(0, k));
    SwapLowBits(1, rand(1, k));
    SwapMissing(SwapOperand(0, rand(0, k)), SwapOperand(1, rand(1, k)));
  }

  lemma SwapMissing(a: Bits, b: Bits)
    requires a & 3 == 0 && b & 3 == 1
    ensures !SwapAccepts(2, b, a) && !SwapAccepts(a, 2, b)
  {
  }

  /** A unit is reported in some interleaving if and only if, on the operands of some iteration, it leaves something
      else than the operation asked for. */
  lemma WrongUnitIsFound(op: Bitwise, unit: (Bits, Bits) -> Bits, rand: (nat, nat) -> Bits)
    ensures CanFail(UnitTest(op, unit, rand)) <==>
      exists k: nat :: Miscomputes(op, unit, rand(0, k), rand(1, k))
  {
    hide CrudeBits, InitialBits, CanFail;
    var test := UnitTest(op, unit, rand);
    FailsExactly(test);
    if k: nat :| Miscomputes(op, unit, rand(0, k), rand(1, k)) {
      var a, b := rand(0, k), rand(1, k);
      assert BothRan(test, k, a, b, unit(unit(InitialBits(op), a), b));
      assert BothRan(test, k, a, b, unit(unit(InitialBits(op), b), a));
    } else {
      forall k: nat, left, right, word | BothRan(test, k, left, right, word)
        ensures test.accepts(left, right, word)
      {
        assert !Miscomputes(op, unit, rand(0, k), rand(1, k));
      }
    }
  }

  /** Some order of the two operands gives a wrong word. */
  predicate Miscomputes(op: Bitwise, unit: (Bits, Bits) -> Bits, a: Bits, b: Bits) {
    || unit(unit(InitialBits(op), a), b) != CrudeBits(op, a, b)
    || unit(unit(InitialBits(op), b), a) != CrudeBits(op, a, b)
  }

  // ---- the programs' tests accept what their AMOs leave -----------------------------------------------------------

  lemma ArithmeticAgrees(op: Arithmetic, rand: (nat, nat) -> Word)
    ensures Agrees(ArithmeticTest(op, rand))
  {
    hide Apply, Crude, Initval;
    var test := ArithmeticTest(op, rand);
    forall k: nat, left, right, word | BothRan(test, k, left, right, word)
      ensures test.accepts(left, right, word)
    {
      ArithmeticOnce(op, rand(0, k), rand(1, k));
    }
  }

  lemma BitwiseAgrees(op: Bitwise, rand: (nat, nat) -> Bits)
    ensures Agrees(BitwiseTest(op, rand))
  {
    hide ApplyBits, InitialBits, CrudeBits;
    var test := BitwiseTest(op, rand);
    forall k: nat, left, right, word | BothRan(test, k, left, right, word)
      ensures test.accepts(left, right, word)
    {
      BitwiseOnce(op, rand(0, k), rand(1, k));
    }
  }

  lemma SwapLowBits(h: nat, rnd: Bits)
    ensures SwapOperand(h, rnd) & 3 == if h == 1 then 1 else 0
  {
  }

  /** Either order leaves the three values in three new places. */
  lemma SwapOnce(a: Bits, b: Bits)
    requires a & 3 == 0 && b & 3 == 1
    ensures SwapAccepts(2, a, b) && SwapAccepts(b, 2, a)
  {
  }

  lemma SwapAgrees(rand: (nat, nat) -> Bits)
    ensures Agrees(SwapTest(rand))
  {
    hide SwapOperand, SwapAccepts;
    var test := SwapTest(rand);
    forall k: nat, left, right, word | BothRan(test, k, left, right, word)
      ensures test.accepts(left, right, word)
    {
      SwapLowBits(0, rand(0, k));
      SwapLowBits(1, rand(1, k));
      SwapOnce(test.rand(0, k), test.rand(1, k));
    }
  }

  // ---- every test of the program ---------------------------------------------------------------------------

  lemma ArithmeticTestNeverFails(op: Arithmetic, rand: (nat, nat) -> Word, s: State<Word>, order: seq<nat>)
    requires IsInitial(s) && forall k :: 0 <= k < |order| ==> order[k] < 2
    ensures !Run(ArithmeticTest(op, rand), s, order).failed
  {
    hide Agrees, ArithmeticTest, Run;
    ArithmeticAgrees(op, rand);
    NeverFails(ArithmeticTest(op, rand), s, order);
  }

  lemma BitwiseTestNeverFails(op: Bitwise, rand: (nat, nat) -> Bits, s: State<Bits>, order: seq<nat>)
    requires IsInitial(s) && forall k :: 0 <= k < |order| ==> order[k] < 2
    ensures !Run(BitwiseTest(op, rand), s, order).failed
  {
    hide Agrees, BitwiseTest, Run;
    BitwiseAgrees(op, rand);
    NeverFails(BitwiseTest(op, rand), s, order);
  }

  lemma SwapTestNeverFails(rand: (nat, nat) -> Bits, s: State<Bits>, order: seq<nat>)
    requires IsInitial(s) && forall k :: 0 <= k < |order| ==> order[k] < 2
    ensures !Run(SwapTest(rand), s, order).failed
  {
    hide Agrees, SwapTest, Run;
    SwapAgrees(rand);
    NeverFails(SwapTest(rand), s, order);
  }
}
