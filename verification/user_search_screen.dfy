/** The user search screen (forntend/instagram/src/screens/user/UserSearchScreen.tsx):
    which queries are sent, how the answer becomes a list, the list keys and
    the text shown for an empty list. All are expressions of the typed query
    and the fetched data. */
module UserSearchScreen {
  import opened Common
  import opened Text

  /** Queries shorter than this many UTF-16 code units are not sent. */
  const ClientMinLength: nat := 2

  /** The `skip` flag of `useSearchUsersQuery`: `query.length < 2` on the raw
      text, whitespace included. */
  function Skip(query: string): (skip: bool)
    ensures skip <==> Utf16Length(query) < ClientMinLength
    ensures query == [] ==> skip
    ensures |query| >= ClientMinLength ==> !skip
  {
    Utf16Length(query) < ClientMinLength
  }

  /** UTF-16 length adds up over concatenation. */
  lemma {:induction false} Utf16LengthConcat(a: string, b: string)
    ensures Utf16Length(a + b) == Utf16Length(a) + Utf16Length(b)
  {
    if a == [] {
      assert a + b == b;
    } else {
      assert (a + b)[0] == a[0] && (a + b)[1..] == a[1..] + b;
      Utf16LengthConcat(a[1..], b);
    }
  }

  /** Typing more never brings the gate back: once a query is sent, every
      extension of it is sent too. */
  lemma SkipOnlyShrinks(query: string, more: string)
    ensures !Skip(query) ==> !Skip(query + more)
    ensures Skip(query + more) ==> Skip(query)
  {
    Utf16LengthConcat(query, more);
  }

  /** A search hit as the list uses it: an id and a username, either possibly
      missing. */
  datatype Item = Item(id: Option<int>, username: Option<string>)

  /** The fetched `data`: nothing yet, a bare array, or an object whose
      `results` may be missing. */
  datatype SearchData = NoData | ListData(items: seq<Item>) | PageData(results: Option<seq<Item>>)

  /** `Array.isArray(data) ? data : data?.results || []`; an array is truthy
      even when empty. */
  function Users(data: SearchData): (users: seq<Item>)
    ensures data.ListData? ==> users == data.items
    ensures data.PageData? && data.results.Some? ==> users == data.results.value
    ensures data.NoData? || (data.PageData? && data.results.None?) ==> users == []
  {
    match data
    case NoData => []
    case ListData(items) => items
    case PageData(results) => results.GetOr([])
  }

  /** `keyExtractor`: the id printed in decimal when present (never empty,
      so never falls through), else the username. */
  function KeyOf(item: Item): (key: Option<string>)
    ensures item.id.Some? ==> key == Some(IntToString(item.id.value)) && key.value != ""
    ensures item.id.None? ==> key == item.username
  {
    if item.id.Some? then Some(IntToString(item.id.value)) else item.username
  }

  /** Items that carry distinct ids get distinct keys. */
  lemma KeysDistinct(a: Item, b: Item)
    requires a.id.Some? && b.id.Some? && a.id != b.id
    ensures KeyOf(a) != KeyOf(b)
  {
    IntToStringInjective(a.id.value, b.id.value);
  }

  const ShortQueryHint: string := "Enter at least 2 characters to search."
  const NoResultsText: string := "No users found."

  /** The text shown when the list is empty: the hint while the query is
      too short to be sent, otherwise the no-results text. */
  function EmptyMessage(query: string): (text: string)
    ensures text == ShortQueryHint <==> Skip(query)
    ensures text == NoResultsText <==> !Skip(query)
  {
    if Utf16Length(query) < 2 then ShortQueryHint else NoResultsText
  }
}
