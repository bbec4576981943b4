/** The board card of one task: the priority colour, the assignee's initials and the due date. */
module TaskCard {
  import opened Options
  import opened Entities
  import opened JsStrings
  import opened NameInitials

  /** The badge class of each priority, keyed by the priority's string. */
  const PriorityColors: map<string, string> := map[
    "low" := "bg-gray-500",
    "medium" := "bg-blue-500",
    "high" := "bg-orange-500",
    "urgent" := "bg-red-500"
  ]

  /** `priorityColors[task.priority]`: one of the table's classes. */
  function PriorityColor(p: Priority): (c: string)
    ensures c in PriorityColors.Values
  {
    PriorityColors[PriorityKey(p)]
  }

  /** The table has an entry for every priority and for nothing else. */
  lemma PriorityColorsTotal()
    ensures forall p: Priority :: PriorityKey(p) in PriorityColors
    ensures forall k :: k in PriorityColors ==> exists p: Priority :: PriorityKey(p) == k
  {
    assert PriorityKey(Low) == "low" && PriorityKey(Medium) == "medium";
    assert PriorityKey(High) == "high" && PriorityKey(Urgent) == "urgent";
  }

  /** Different priorities are shown in different colours. */
  lemma PriorityColorsDistinct(p: Priority, q: Priority)
    requires p != q
    ensures PriorityColor(p) != PriorityColor(q)
  {
  }

  /**
    `formatDate(date)`: `null` when the date is absent or the empty string; otherwise the
    locale rendering, which belongs to the browser and is the parameter `localeDate` here.
   */
  function FormatDate(date: Option<string>, localeDate: string -> string): (r: Option<string>)
    ensures r == None <==> (date == None || date == Some(""))
    ensures r != None ==> r == Some(localeDate(date.value))
  {
    if date == None || date == Some("") then None else Some(localeDate(date.value))
  }

  /**
    `getInitials(name)`: the first characters of the words of `name`, upper-cased, cut to
    at most two.
   */
  function GetInitials(name: string): (r: string)
    ensures |r| <= 2
    ensures r == Slice(ToUpperCase(WordStarts(name, true)), 2)
    ensures forall k :: 0 <= k < |r| ==> !IsLower(r[k])
  {
    FirstLettersOfSplit(name);
    Slice(ToUpperCase(FirstLetters(Split(name, ' '))), 2)
  }

  /** The initials are the first letters of the first (at most two) words, in word order. */
  lemma GetInitialsOfWords(name: string)
    ensures |GetInitials(name)| == if |Words(name)| < 2 then |Words(name)| else 2
    ensures forall k :: 0 <= k < |GetInitials(name)| ==>
      GetInitials(name)[k] == UpperChar(Words(name)[k][0])
  {
    FirstLettersPerWord(Split(name, ' '));
  }

  /** A single word gives exactly its upper-cased first character; an empty name gives "". */
  lemma GetInitialsEdgeCases(name: string)
    ensures name == "" ==> GetInitials(name) == ""
    ensures name != "" && ' ' !in name ==> GetInitials(name) == [UpperChar(name[0])]
  {
    if name != "" && ' ' !in name {
      SingleWord(name);
    }
  }
}
