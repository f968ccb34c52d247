/** The about page: the most recent `about_page` entry, and the initials
    shown for a team member without a photo. */
module AboutPage {
  import opened Wrappers
  import opened JsString
  import opened Entries
  import opened Ordering

  class About {
    var aboutData: Option<Entry>
    var loading: bool

    constructor ()
      ensures aboutData == None && loading
    {
      aboutData := None;
      loading := true;
    }

    /** `loadAboutData` given the list `fetchEntries` returned: a non-empty
        list is sorted in place, most recent first, and its head is shown; a
        missing or empty list keeps the current data. */
    method LoadAboutData(entries: array?<Entry>)
      modifies this, entries
      ensures !loading
      ensures (entries == null || entries.Length == 0) ==> aboutData == old(aboutData)
      ensures entries != null ==> entries[..] == SortDesc(old(entries[..]), Recency)
      ensures entries != null && entries.Length > 0 ==> aboutData == Some(entries[0])
    {
      if entries != null && entries.Length > 0 {
        SortInPlace(entries, Recency);
        aboutData := Some(entries[0]);
      } else if entries != null {
        assert entries[..] == [];
      }
      loading := false;
    }

    /** `aboutData || fallbackData`. */
    function Rendered(): (s: Shown)
      reads this
      ensures s.FallbackData? <==> aboutData.None?
    {
      Displayed(aboutData)
    }
  }

  /** `parts.map(n => n[0]).join('')`: the first character of each part, an
      empty part contributing nothing. */
  function FirstChars(parts: seq<string>): (r: string)
    ensures |r| <= |parts|
    ensures (forall i :: 0 <= i < |parts| ==> parts[i] != []) ==>
      |r| == |parts| && forall i :: 0 <= i < |parts| ==> r[i] == parts[i][0]
  {
    if parts == [] then []
    else (if parts[0] == [] then [] else [parts[0][0]]) + FirstChars(parts[1..])
  }

  /** `member.name?.split(' ').map(n => n[0]).join('') || 'TM'`. */
  function Initials(name: Option<string>): (r: string)
    ensures r != []
    ensures name.None? ==> r == "TM"
  {
    var joined := if name.Some? then FirstChars(Split(name.value, ' ')) else [];
    if joined == [] then "TM" else joined
  }

  /** Reference definition: every character that is not a space and follows
      the start of the text (when `atStart`) or a space. */
  function WordStarts(s: string, atStart: bool): string {
    if s == [] then []
    else (if atStart && s[0] != ' ' then [s[0]] else []) + WordStarts(s[1..], s[0] == ' ')
  }

  /** Taking the first character of every space-separated part picks out the
      word starts, and doing so for the parts after the first picks out the
      word starts after the first space. */
  lemma {:induction false} FirstCharsOfSplit(s: string)
    ensures FirstChars(Split(s, ' ')) == WordStarts(s, true)
    ensures FirstChars(Split(s, ' ')[1..]) == WordStarts(s, false)
  {
    if s != [] {
      FirstCharsOfSplit(s[1..]);
      var rest := Split(s[1..], ' ');
      if s[0] == ' ' {
        assert Split(s, ' ') == [[]] + rest;
        assert FirstChars([[]] + rest) == FirstChars(rest);
        assert Split(s, ' ')[1..] == rest;
      } else {
        assert Split(s, ' ') == [[s[0]] + rest[0]] + rest[1..];
        FirstCharsTail(rest, s[0]);
        assert Split(s, ' ')[1..] == rest[1..];
      }
    }
  }

  /** Prepending a non-space character to the first part adds exactly that
      character to the first characters. */
  lemma FirstCharsTail(rest: seq<string>, c: char)
    requires |rest| >= 1
    ensures FirstChars([[c] + rest[0]] + rest[1..]) == [c] + FirstChars(rest[1..])
  {
    var parts := [[c] + rest[0]] + rest[1..];
    assert parts[1..] == rest[1..];
  }

  /** The initials are the word starts of the name, or "TM" when there are none. */
  lemma InitialsAreWordStarts(name: string)
    ensures Initials(Some(name)) == if WordStarts(name, true) == [] then "TM" else WordStarts(name, true)
  {
    FirstCharsOfSplit(name);
  }
}
