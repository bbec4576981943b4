/** The top bar: the signed-in user's name, e-mail and avatar initials. */
module TopBar {
  import opened Options
  import opened JsStrings
  import opened NameInitials

  /** The current user of the session. */
  datatype User = User(name: string, email: string)

  /** What the bar shows about the user. */
  datatype TopBarView = TopBarView(name: string, email: string, initials: string)

  /** The avatar initials: one upper-cased first character per word of the name, with no cap. */
  function Initials(name: string): (r: string)
    ensures r == ToUpperCase(WordStarts(name, true))
    ensures forall k :: 0 <= k < |r| ==> !IsLower(r[k])
  {
    FirstLettersOfSplit(name);
    ToUpperCase(FirstLetters(Split(name, ' ')))
  }

  /** Exactly one initial per non-empty word, in word order. */
  lemma InitialsPerWord(name: string)
    ensures |Initials(name)| == |Words(name)|
    ensures forall k :: 0 <= k < |Initials(name)| ==> Initials(name)[k] == UpperChar(Words(name)[k][0])
  {
    FirstLettersPerWord(Split(name, ' '));
  }

  /** An empty name gives empty initials. */
  lemma InitialsOfEmptyName()
    ensures Initials("") == ""
  {
  }

  /** The bar renders nothing without a current user; otherwise it shows the user and the initials. */
  function Render(user: Option<User>): (view: Option<TopBarView>)
    ensures view == None <==> user == None
    ensures user != None ==> view.value.name == user.value.name && view.value.email == user.value.email
    ensures user != None ==> view.value.initials == Initials(user.value.name)
    ensures user != None ==> |view.value.initials| == |Words(user.value.name)|
  {
    match user
    case None => None
    case Some(u) =>
      InitialsPerWord(u.name);
      Some(TopBarView(u.name, u.email, Initials(u.name)))
  }
}
