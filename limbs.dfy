/**
 * Index arithmetic of the counting animation: which of the twenty audio clips
 * a count plays, and on which finger or toe a number is drawn. Hands hold the
 * numbers 1 to 10 (left hand to right hand), feet the numbers 11 to 20.
 */
module Limbs {
  /** Fingers plus toes: the largest sum the calculator will count. */
  const LIMBS: nat := 20
  /** Entries of the finger-position table. */
  const FINGERS: nat := 10
  /** Entries of the toe-position table. */
  const TOES: nat := 10
  /** Entries of the audio-clip table (clip k holds the spoken number k + 1). */
  const AUDIO_CLIPS: nat := 20

  /** The clip played when the count reaches `count`. */
  function AudioSlot(count: nat): (k: nat)
    requires 1 <= count <= LIMBS
    ensures k < AUDIO_CLIPS
    ensures k + 1 == count
  {
    count - 1
  }

  /** Where a number is drawn: an entry of the finger table or of the toe table. */
  datatype Slot = Finger(index: nat) | Toe(index: nat)

  predicate InTable(slot: Slot) {
    match slot
    case Finger(k) => k < FINGERS
    case Toe(k) => k < TOES
  }

  /** The position of number `i`: finger entry `i - 1` up to ten, toe entry `i - 11` above. */
  function SlotOf(i: nat): (slot: Slot)
    requires 1 <= i <= LIMBS
    ensures InTable(slot)
    ensures slot.Finger? <==> i <= FINGERS
  {
    if i <= FINGERS then Finger(i - 1) else Toe(i - 11)
  }

  /** The number drawn at a table entry: the inverse of `SlotOf`. */
  function NumberAt(slot: Slot): (i: nat)
    requires InTable(slot)
    ensures 1 <= i <= LIMBS
  {
    match slot
    case Finger(k) => k + 1
    case Toe(k) => k + 11
  }

  /** Each number has its own position ... */
  lemma NumberAtSlotOf(i: nat)
    requires 1 <= i <= LIMBS
    ensures NumberAt(SlotOf(i)) == i
  {
  }

  /** ... and every one of the twenty positions belongs to some number. */
  lemma SlotOfNumberAt(slot: Slot)
    requires InTable(slot)
    ensures SlotOf(NumberAt(slot)) == slot
  {
  }

  /** The feet picture is drawn only for sums that do not fit on the hands. */
  predicate ShowFeet(total: nat) {
    total > FINGERS
  }

  /** Numbers up to the first operand are coloured as the first operand. */
  predicate IsFirstOperand(i: nat, num1: nat) {
    i <= num1
  }
}
