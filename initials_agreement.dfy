/** How the card's capped initials relate to the top bar's uncapped ones. */
module InitialsAgreement {
  import opened JsStrings
  import opened NameInitials
  import TaskCard
  import TopBar

  /**
    The card's initials are the first two of the top bar's initials; for a name of at
    most two words the two are the same string.
   */
  lemma CardInitialsArePrefix(name: string)
    ensures TaskCard.GetInitials(name) == Slice(TopBar.Initials(name), 2)
    ensures |Words(name)| <= 2 ==> TaskCard.GetInitials(name) == TopBar.Initials(name)
  {
    TopBar.InitialsPerWord(name);
    SliceToUpperCase(WordStarts(name, true), 2);
  }
}
