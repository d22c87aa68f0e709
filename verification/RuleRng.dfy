/**
 Stateless draws of the rule engine. A draw is a 64-bit prefix of a digest of
 (seed, counter, stream); the digest itself is an arbitrary function.
 */
module RuleRng {
  import opened GameConstants

  const TWO_64: nat := 0x1_0000_0000_0000_0000

  datatype Dice = Dice(
    digest: (string, nat, string) -> nat,
    goldenDigest: (string, string, nat, nat, nat) -> nat,
    storyDigest: (string, string, nat, Category) -> nat,
    commitmentDigest: (string, string, Category) -> nat)

  function Word(dice: Dice, seed: string, counter: nat, stream: string): (w: nat)
    ensures w < TWO_64
  {
    dice.digest(seed, counter, stream) % TWO_64
  }

  /** Whether word / 2^64 is below a probability in thousandths. */
  predicate RollsBelow(word: nat, thousandths: int) {
    word * 1000 < thousandths * TWO_64
  }

  lemma ScaledBelow(word: nat, span: nat)
    requires word < TWO_64 && 0 < span
    ensures word * span / TWO_64 < span
  {
  }

  /** An inclusive draw: lower plus the scaled and truncated word. */
  function RandInt(word: nat, lower: int, upper: int): (n: int)
    requires word < TWO_64 && lower <= upper
    ensures lower <= n <= upper
  {
    ScaledBelow(word, upper - lower + 1);
    lower + word * (upper - lower + 1) / TWO_64
  }
}
