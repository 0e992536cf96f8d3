/** The label of the evasive "No" button: one entry of a fixed table of
    twelve messages, chosen by the number of failed attempts so far. */
module NoLabel {
  import opened Numeric

  /** The attempt count at which the "No" button is removed. */
  const MaxNoAttempts: nat := 12

  /** Progressive messages, in the order they are shown. */
  const NoButtonMessages: seq<string> := [
    "No 😢",
    "Why? 😢",
    "Hey… don't do that 💔",
    "Okay wow that hurts 😞",
    "I thought we had something 🥺",
    "I'm crying now 😭",
    "Pleaseeee 💕",
    "This is getting painful 😖",
    "Last chance pls 😔",
    "You're breaking my heart 💔",
    "Fine… but I'll be sad forever 😢",
    "Okay… last chance was real 😭💔"
  ]

  /** The final entry of the table, shown once 11 failed attempts are
      counted. */
  const TerminalMessage: string := NoButtonMessages[11]

  /** The label shown after `attempts` failed attempts. The table lookup
      saturates at both ends: no attempt shows the first entry, and every
      count from the cap upwards shows the terminal entry. */
  function NoButtonText(attempts: nat): (text: string)
    ensures attempts == 0 ==> text == NoButtonMessages[0]
    ensures 1 <= attempts < |NoButtonMessages| ==> text == NoButtonMessages[attempts]
    ensures attempts >= |NoButtonMessages| - 1 ==> text == TerminalMessage
  {
    if attempts >= MaxNoAttempts then NoButtonMessages[11]
    else if attempts == 0 then NoButtonMessages[0]
    else NoButtonMessages[MinInt(attempts, |NoButtonMessages| - 1)]
  }

  /** The three branches of the label rule agree with one plain saturating
      index, min(attempts, 11): the explicit branches for 0 and for the cap
      change nothing. */
  lemma NoButtonTextIsSaturatingLookup(attempts: nat)
    ensures NoButtonText(attempts) == NoButtonMessages[MinInt(attempts, 11)]
  {
  }

  /** Up to the terminal entry, every further failed attempt shows a label
      different from the one before: no two neighbouring table entries are
      equal. */
  lemma LabelChangesEachAttempt(attempts: nat)
    requires attempts < |NoButtonMessages| - 1
    ensures NoButtonText(attempts) != NoButtonText(attempts + 1)
  {
  }
}
