/** The list filters: client search (a blank query after trimming spaces and tabs
    shows every client), item search (only the empty query shows every item; a
    whitespace query is matched literally), the current user's estimates, the paid
    total per client, and the small display rules of the list rows. */
module Search {
  import opened Basics
  import opened Text
  import opened Models

  /** A case-insensitive substring match of the query in a name. */
  predicate NameMatches(name: string, query: string)
  {
    Contains(Lower(name), Lower(query))
  }

  function ClientMatches(query: string): Client -> bool
  {
    (c: Client) => NameMatches(c.name, query)
  }

  /** `filteredClients`. */
  function FilteredClients(clients: seq<Client>, searchText: string): (r: seq<Client>)
    ensures AllIn(searchText, Whitespaces) ==> r == clients
    ensures !AllIn(searchText, Whitespaces) ==>
      (forall i :: 0 <= i < |r| ==> r[i] in clients && NameMatches(r[i].name, searchText))
      && (forall i :: 0 <= i < |clients| && NameMatches(clients[i].name, searchText) ==> clients[i] in r)
    ensures IsSubsequence(r, clients)
  {
    TrimEmptyIff(searchText, Whitespaces);
    if Trim(searchText, Whitespaces) == [] then
      IsSubsequenceRefl(clients);
      clients
    else
      FilterIsSubsequence(clients, ClientMatches(searchText));
      Filter(clients, ClientMatches(searchText))
  }

  function ItemMatches(query: string): Item -> bool
  {
    (it: Item) => NameMatches(it.name, query)
  }

  /** `filteredItems`. */
  function FilteredItems(items: seq<Item>, searchText: string): (r: seq<Item>)
    ensures searchText == [] ==> r == items
    ensures searchText != [] ==>
      (forall i :: 0 <= i < |r| ==> r[i] in items && NameMatches(r[i].name, searchText))
      && (forall i :: 0 <= i < |items| && NameMatches(items[i].name, searchText) ==> items[i] in r)
    ensures IsSubsequence(r, items)
  {
    if searchText == [] then
      IsSubsequenceRefl(items);
      items
    else
      FilterIsSubsequence(items, ItemMatches(searchText));
      Filter(items, ItemMatches(searchText))
  }

  /** The two searches disagree on a query of one space: every client is listed, but
      an item named without a space is not. */
  lemma SearchesDifferOnBlankQuery(clients: seq<Client>, it: Item)
    requires forall i :: 0 <= i < |it.name| ==> it.name[i] != ' '
    ensures FilteredClients(clients, " ") == clients
    ensures FilteredItems([it], " ") == []
  {
    assert Lower(" ") == " ";
  }

  /** `ItemRowView`: the details line is shown only for present, non-empty details. */
  predicate ShowsDetails(it: Item)
  {
    it.details.Some? && it.details.value != []
  }

  /** A row shows details exactly when the details would survive the empty-to-nil normalisation. */
  lemma ShowsDetailsIffNormalised(it: Item)
    ensures ShowsDetails(it) <==> NilIfEmptyOpt(it.details).Some?
  {
  }

  /** `userEstimates`: the current user's invoices marked as estimates, in stored order. */
  function UserEstimates(currentUser: Option<User>): (r: seq<Invoice>)
    ensures currentUser.None? ==> r == []
    ensures currentUser.Some? ==> IsSubsequence(r, currentUser.value.invoices)
    ensures forall i :: 0 <= i < |r| ==> r[i].isEstimate
    ensures currentUser.Some? ==>
      forall i :: 0 <= i < |currentUser.value.invoices| && currentUser.value.invoices[i].isEstimate ==>
        currentUser.value.invoices[i] in r
  {
    match currentUser
    case None => []
    case Some(u) =>
      FilterIsSubsequence(u.invoices, IsEstimate);
      Filter(u.invoices, IsEstimate)
  }

  predicate IsEstimate(inv: Invoice) { inv.isEstimate }

  /** `EstimateRowView.formatDate`: `"--"` for a missing date; the platform's short style otherwise. */
  function FormatShortDate(d: Option<Date>, shortStyle: Date -> string): (r: string)
    ensures d.None? ==> r == "--"
    ensures d.Some? ==> r == shortStyle(d.value)
  {
    match d
    case None => "--"
    case Some(v) => shortStyle(v)
  }

  /** The invoice is a paid invoice of the client with id `clientId`. */
  function PaidFor(clientId: int): Invoice -> bool
  {
    (inv: Invoice) => inv.client.Some? && inv.client.value.id == clientId && inv.wasPaid
  }

  /** `totalPaid(for:)` over every stored invoice. */
  function TotalPaidFor(all: seq<Invoice>, client: Client): real
  {
    Sum(Filter(all, PaidFor(client.id)), InvoiceTotal)
  }

  /** The client's paid total counts each of the client's paid invoices once and every
      other invoice not at all; it is 0 when the client has no paid invoice. */
  lemma TotalPaidForCountsOwnPaid(all: seq<Invoice>, client: Client)
    ensures TotalPaidFor(all, client) == Sum(all, Masked(PaidFor(client.id), InvoiceTotal))
    ensures (forall i :: 0 <= i < |all| ==> !PaidFor(client.id)(all[i])) ==> TotalPaidFor(all, client) == 0.0
  {
    SumFilter(all, PaidFor(client.id), InvoiceTotal);
    if forall i :: 0 <= i < |all| ==> !PaidFor(client.id)(all[i]) {
      NoneSelected(all, PaidFor(client.id));
    }
  }
}
