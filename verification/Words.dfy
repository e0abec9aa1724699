/** The machine words of the torture programs. */
module Words {

  const WORDS: nat := 0x1_0000_0000_0000_0000

  type Word = x: nat | x < WORDS
}
