/**
 * The two append-only ledgers of the session (moods and journal entries)
 * and the read-only views the screens take of them.
 * Dates and timestamps come from the clock and the locale; here they are
 * opaque values handed in by the caller.
 */
module Ledger {

  /** One saved mood: the selected button value (1..5 by construction) and the notes. */
  datatype MoodEntry = MoodEntry(date: string, mood: int, notes: string, timestamp: int)

  /** One saved journal entry; `id` is a clock reading and need not be unique. */
  datatype JournalEntry = JournalEntry(id: int, title: string, content: string, date: string, timestamp: int)

  /** Title stored when the title field is left empty. */
  const DEFAULT_TITLE: string := "Journal Entry"

  /** How many entries the "recent" lists show. */
  const RECENT_COUNT := 3

  /** How many characters of a journal entry the preview keeps. */
  const PREVIEW_LENGTH := 100

  const ELLIPSIS: string := "..."

  /** The title an entry gets: the typed one, or the placeholder when it is empty (JS `title || default`). */
  function EntryTitle(title: string): (r: string)
    ensures r != []
    ensures title != [] ==> r == title
    ensures title == [] ==> r == DEFAULT_TITLE
  {
    if title == [] then DEFAULT_TITLE else title
  }

  /** The sequence in reverse order. */
  function Reverse<T>(s: seq<T>): (r: seq<T>)
    ensures |r| == |s|
    ensures forall k :: 0 <= k < |s| ==> r[k] == s[|s| - 1 - k]
  {
    if s == [] then [] else Reverse(s[1..]) + [s[0]]
  }

  /** `list.slice(-3).reverse()`: the last three entries, newest first. */
  function Recent<T>(s: seq<T>): (r: seq<T>)
    ensures |r| == if |s| < RECENT_COUNT then |s| else RECENT_COUNT
    ensures forall k :: 0 <= k < |r| ==> r[k] == s[|s| - 1 - k]
  {
    var start := if |s| > RECENT_COUNT then |s| - RECENT_COUNT else 0;
    Reverse(s[start..])
  }

  /** The journal card text: the content, cut to 100 characters plus "..." when longer. */
  function Preview(content: string): (r: string)
    ensures |r| <= PREVIEW_LENGTH + |ELLIPSIS|
    ensures |content| <= PREVIEW_LENGTH ==> r == content
    ensures |content| > PREVIEW_LENGTH ==>
              |r| == PREVIEW_LENGTH + |ELLIPSIS| &&
              r[..PREVIEW_LENGTH] == content[..PREVIEW_LENGTH] && r[PREVIEW_LENGTH..] == ELLIPSIS
  {
    if |content| > PREVIEW_LENGTH then content[..PREVIEW_LENGTH] + ELLIPSIS else content
  }
}
