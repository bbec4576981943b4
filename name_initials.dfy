/**
  What the two initials computations share: the words of a display name split on a
  single space, and the first character of each of them.
 */
module NameInitials {
  import opened JsStrings

  /**
    `words.map((n) => n[0]).join("")`: `n[0]` of an empty word is `undefined`, which
    `join` renders as the empty string, so empty words contribute nothing.
   */
  function FirstLetters(words: seq<string>): (r: string)
    ensures |r| <= |words|
  {
    if words == [] then ""
    else (if words[0] == "" then "" else [words[0][0]]) + FirstLetters(words[1..])
  }

  /** The non-empty entries of `words`, in their order. */
  function NonEmptyWords(words: seq<string>): (r: seq<string>)
    ensures |r| <= |words|
    ensures forall k :: 0 <= k < |r| ==> r[k] != "" && r[k] in words
    ensures forall w :: w in words && w != "" ==> w in r
  {
    if words == [] then []
    else (if words[0] == "" then [] else [words[0]]) + NonEmptyWords(words[1..])
  }

  /** The words of a name: the non-empty pieces of `name.split(" ")`. */
  function Words(name: string): seq<string>
  {
    NonEmptyWords(Split(name, ' '))
  }

  /**
    Reference definition, independent of `split`: the characters of `s` that begin a
    run of non-space characters, in order. `atBoundary` says whether the position
    just before `s[0]` is the start of the name or a space.
   */
  function WordStarts(s: string, atBoundary: bool): (r: string)
    ensures forall k :: 0 <= k < |r| ==> r[k] != ' ' && r[k] in s
  {
    if s == [] then ""
    else (if atBoundary && s[0] != ' ' then [s[0]] else "") + WordStarts(s[1..], s[0] == ' ')
  }

  /** `FirstLetters` yields exactly one character per non-empty word: its first, in word order. */
  lemma {:induction false} FirstLettersPerWord(words: seq<string>)
    ensures |FirstLetters(words)| == |NonEmptyWords(words)|
    ensures forall k :: 0 <= k < |FirstLetters(words)| ==>
      FirstLetters(words)[k] == NonEmptyWords(words)[k][0]
  {
    if words != [] {
      FirstLettersPerWord(words[1..]);
    }
  }

  /** The first letters of the pieces of a split on " " are exactly the word starts of the string. */
  lemma {:induction false} FirstLettersOfSplit(s: string)
    ensures FirstLetters(Split(s, ' ')) == WordStarts(s, true)
    decreases |s|, 1
  {
    if s != [] {
      var rest := Split(s[1..], ' ');
      if s[0] == ' ' {
        assert Split(s, ' ') == [""] + rest;
        assert ([""] + rest)[1..] == rest;
        FirstLettersOfSplit(s[1..]);
      } else {
        var parts := [[s[0]] + rest[0]] + rest[1..];
        assert Split(s, ' ') == parts;
        assert parts[1..] == rest[1..];
        RestOfSplit(s[1..]);
      }
    }
  }

  /** Past the first piece, the first letters of a split are the word starts found after the first character. */
  lemma {:induction false} RestOfSplit(s: string)
    ensures FirstLetters(Split(s, ' ')[1..]) == WordStarts(s, false)
    decreases |s|, 0
  {
    if s != [] {
      var rest := Split(s[1..], ' ');
      if s[0] == ' ' {
        assert Split(s, ' ') == [""] + rest;
        assert ([""] + rest)[1..] == rest;
        FirstLettersOfSplit(s[1..]);
      } else {
        var parts := [[s[0]] + rest[0]] + rest[1..];
        assert Split(s, ' ') == parts;
        assert parts[1..] == rest[1..];
        RestOfSplit(s[1..]);
      }
    }
  }

  /** A non-empty name without a space is one word, whatever else it contains. */
  lemma SingleWord(name: string)
    requires name != "" && ' ' !in name
    ensures Words(name) == [name]
    ensures FirstLetters(Split(name, ' ')) == [name[0]]
  {
    SplitOfPiece(name, ' ');
  }

  /** The empty name has no words and no initials. */
  lemma EmptyName()
    ensures Words("") == []
    ensures FirstLetters(Split("", ' ')) == ""
  {
  }
}
