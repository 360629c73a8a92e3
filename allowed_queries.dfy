/** The allow-list of named queries (the `allowed_queries` table: query
    name, SQL text, description), the lookup the dispatcher performs in it,
    and the `get_allowed_queries` listing. */
module AllowedQueries {
  import opened Joining

  datatype Option<T> = None | Some(value: T)

  /** One row of the `allowed_queries` table. */
  datatype AllowedQuery = AllowedQuery(name: string, sql: string, description: string)

  /** Rows of the table, in the order the store returns them. */
  type Store = seq<AllowedQuery>

  const Header: string := "Allowed Queries with Details:"
  const NoQueries: string := "No allowed queries found."

  predicate Named(store: Store, name: string)
  {
    exists i | 0 <= i < |store| :: store[i].name == name
  }

  /** Index of the first row called `name`, as `fetchone` on
      `SELECT ... WHERE query_name = ?` yields it. */
  function FirstMatch(store: Store, name: string): (r: Option<nat>)
    ensures r.None? <==> !Named(store, name)
    ensures r.Some? ==> r.value < |store| && store[r.value].name == name
    ensures r.Some? ==> forall j | 0 <= j < r.value :: store[j].name != name
  {
    if |store| == 0 then None
    else if store[0].name == name then Some(0)
    else
      match FirstMatch(store[1..], name)
      case None =>
        assert forall i | 1 <= i < |store| :: store[i] == store[1..][i - 1];
        None
      case Some(k) =>
        assert forall j | 1 <= j < k + 1 :: store[j] == store[1..][j - 1];
        Some(k + 1)
  }

  /** The SQL text the dispatcher looks up for `name`: that of the first
      row with that name, or nothing when no row has it. */
  function LookupSql(store: Store, name: string): (r: Option<string>)
    ensures r.None? <==> !Named(store, name)
    ensures r.Some? ==> exists i | 0 <= i < |store| :: store[i].name == name && store[i].sql == r.value
  {
    match FirstMatch(store, name)
    case None => None
    case Some(i) => Some(store[i].sql)
  }

  /** The first row that carries the name decides the lookup, whatever
      rows with the same name follow it. */
  lemma FirstRowWins(store: Store, name: string, i: nat)
    requires i < |store| && store[i].name == name
    requires forall j | 0 <= j < i :: store[j].name != name
    ensures LookupSql(store, name) == Some(store[i].sql)
  {
  }

  /** Rows appended after a row that already matches never change the
      lookup. */
  lemma LookupIgnoresLaterRows(store: Store, more: Store, name: string)
    requires LookupSql(store, name).Some?
    ensures LookupSql(store + more, name) == LookupSql(store, name)
  {
    var i := FirstMatch(store, name).value;
    FirstRowWins(store + more, name, i);
  }

  /** The block one allowed query contributes to the listing; the SQL text
      is not part of it. */
  function Block(q: AllowedQuery): string
  {
    "Query Name: " + q.name + "\nDescription: " + q.description + "\n"
  }

  function Blocks(store: Store): seq<string>
  {
    seq(|store|, i requires 0 <= i < |store| => Block(store[i]))
  }

  /** The text `get_allowed_queries` returns for the rows of the store: the
      fixed message exactly when the store is empty, and otherwise led by
      the header. */
  function Listing(store: Store): (r: string)
    ensures r == NoQueries <==> store == []
    ensures store != [] ==> Header <= r
  {
    if store == [] then NoQueries
    else
      var r := Join([Header] + Blocks(store), "\n");
      assert r[0] == 'A';
      r
  }

  /** `get_allowed_queries`: the header, then one block per row appended in
      a loop, joined by newlines; a fixed message for an empty store. */
  method GetAllowedQueries(store: Store) returns (r: string)
    ensures r == Listing(store)
    ensures r == NoQueries <==> store == []
  {
    if store != [] {
      var detailed := [Header];
      for i := 0 to |store|
        invariant detailed == [Header] + Blocks(store[..i])
      {
        detailed := detailed + [Block(store[i])];
      }
      assert store[..|store|] == store;
      r := Join(detailed, "\n");
    } else {
      r := NoQueries;
    }
  }

  /** A non-empty listing is the header followed, row by row in store
      order, by a newline and that row's block. */
  lemma ListingShape(store: Store)
    requires store != []
    ensures Listing(store) == Header + Prefixed(Blocks(store), "\n")
  {
    var parts := [Header] + Blocks(store);
    JoinIsHeadThenPrefixed(parts, "\n");
    assert parts[1..] == Blocks(store);
  }

  /** The listing depends only on the names and descriptions: two stores
      that differ only in their SQL texts list identically. */
  lemma ListingOmitsSql(store: Store, other: Store)
    requires |store| == |other|
    requires forall i | 0 <= i < |store| :: store[i].name == other[i].name && store[i].description == other[i].description
    ensures Listing(store) == Listing(other)
  {
    assert Blocks(store) == Blocks(other);
  }
}
