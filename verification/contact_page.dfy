/** The contact page: the most recent `contact_page` entry. */
module ContactPage {
  import opened Wrappers
  import opened Entries
  import opened Ordering

  class Contact {
    var contactData: Option<Entry>
    var loading: bool

    constructor ()
      ensures contactData == None && loading
    {
      contactData := None;
      loading := true;
    }

    /** `loadContactData` given the list `fetchEntries` returned: a non-empty
        list is sorted in place, most recent first, and its head is shown; a
        missing or empty list keeps the current data. */
    method LoadContactData(entries: array?<Entry>)
      modifies this, entries
      ensures !loading
      ensures (entries == null || entries.Length == 0) ==> contactData == old(contactData)
      ensures entries != null ==> entries[..] == SortDesc(old(entries[..]), Recency)
      ensures entries != null && entries.Length > 0 ==> contactData == Some(entries[0])
    {
      if entries != null && entries.Length > 0 {
        SortInPlace(entries, Recency);
        contactData := Some(entries[0]);
      } else if entries != null {
        assert entries[..] == [];
      }
      loading := false;
    }

    /** `contactData || fallbackData`. */
    function Rendered(): (s: Shown)
      reads this
      ensures s.FallbackData? <==> contactData.None?
    {
      Displayed(contactData)
    }
  }
}
