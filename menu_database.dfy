/**
 * The on-device menu store of the Home screen (screens/database.js): one
 * table `menu`, created if absent, filled by a bulk insert and read back
 * whole or through a parameterised filter query.
 *
 * The SQL engine itself is not modelled. The table is the sequence of rows
 * it holds, the id counter is the engine's AUTOINCREMENT sequence, and
 * every statement handed to the engine is recorded, in order, in `issued`.
 * The query builder produces the query text and its positional parameters;
 * which rows the engine then selects (LIKE matching, collation, order) is
 * the engine's business and is not stated here.
 */
module MenuDatabase {
  import opened Wrappers
  import opened JsText

  /** One dish as the caller hands it to `saveMenuItems`: every column but `id`. */
  datatype MenuItem = MenuItem(name: string, price: real, description: string, image: string, category: string)

  /** A stored row: the item and the id the engine assigned to it. */
  datatype MenuRow = MenuRow(id: nat, item: MenuItem)

  /** A positional parameter bound to a `?` placeholder. */
  datatype SqlValue = Text(text: string) | Real(number: real)

  /** One `executeSql` call: the statement text and its parameters. */
  datatype Statement = Statement(sql: string, params: seq<SqlValue>)

  const CreateTableSql := "CREATE TABLE IF NOT EXISTS menu (id INTEGER PRIMARY KEY AUTOINCREMENT, name TEXT, price REAL, description TEXT, image TEXT, category TEXT);"
  const InsertSql := "INSERT INTO menu (name, price, description, image, category) VALUES (?, ?, ?, ?, ?);"
  const SelectAllSql := "SELECT * FROM menu;"

  /** The filter query before any clause is added; `1=1` holds of every row. */
  const FilterBase := "SELECT * FROM menu WHERE 1=1"
  const CategoryClauseHead := " AND category IN ("
  const SearchClause := " AND name LIKE ?"

  /** `categories.map(() => '?').join(', ')` for `n` categories. */
  function Placeholders(n: nat): string {
    if n == 0 then "" else if n == 1 then "?" else Placeholders(n - 1) + ", ?"
  }

  /** The placeholder list holds exactly one `?` per category. */
  lemma {:induction false} PlaceholdersCount(n: nat)
    ensures Count(Placeholders(n), '?') == n
  {
    if n > 1 {
      PlaceholdersCount(n - 1);
      CountAppend(Placeholders(n - 1), ", ?", '?');
      assert Count(", ?", '?') == 1;
    }
  }

  /** The text of the filter query for `n` categories, with or without a search term. */
  function FilterQueryText(n: nat, hasSearch: bool): string {
    FilterBase
    + (if n > 0 then CategoryClauseHead + Placeholders(n) + ")" else "")
    + (if hasSearch then SearchClause else "")
  }

  /** The wildcard-wrapped search term, `%${searchQuery}%`. */
  function SearchPattern(searchQuery: string): string {
    "%" + searchQuery + "%"
  }

  /** The positional parameters of the filter query. */
  function FilterParams(categories: seq<string>, searchQuery: string): seq<string> {
    categories + (if searchQuery != "" then [SearchPattern(searchQuery)] else [])
  }

  /**
   * filterMenuItems, up to the point where the statement is handed to the
   * engine: the query grows by appending clauses and the parameter list by
   * taking the categories and then pushing the search pattern. The text
   * depends only on how many categories there are and on whether the
   * search term is empty.
   */
  method BuildFilterQuery(categories: seq<string>, searchQuery: string) returns (query: string, params: seq<string>)
    ensures query == FilterQueryText(|categories|, searchQuery != "")
    ensures params == FilterParams(categories, searchQuery)
  {
    query := FilterBase;
    params := [];
    if |categories| > 0 {
      query := query + CategoryClauseHead + Placeholders(|categories|) + ")";
      params := categories;
    }
    if searchQuery != "" {
      query := query + SearchClause;
      params := params + [SearchPattern(searchQuery)];
    }
  }

  /** Every filter query starts with the base query; the clauses only append to it. */
  lemma FilterQueryExtendsBase(n: nat, hasSearch: bool)
    ensures FilterBase <= FilterQueryText(n, hasSearch)
    ensures FilterQueryText(n, false) <= FilterQueryText(n, hasSearch)
  {
  }

  /** No categories and an empty search: the bare base query and no parameters. */
  lemma EmptyFilterIsBase(categories: seq<string>, searchQuery: string)
    requires categories == [] && searchQuery == ""
    ensures FilterQueryText(|categories|, searchQuery != "") == FilterBase
    ensures FilterParams(categories, searchQuery) == []
  {
  }

  /**
   * Of the fixed pieces of the filter query, only the search clause holds a
   * `?`. The character is a parameter, pinned to `'?'` by the requires,
   * rather than the literal itself: with the literal in the ensures the
   * verifier unfolds the count over every character of each piece.
   */
  lemma FixedTextMembership(c: char)
    requires c == '?'
    ensures c !in FilterBase && c !in CategoryClauseHead && c !in ")"
    ensures SearchClause == " AND name LIKE " + [c] && c !in " AND name LIKE "
  {
  }

  /** The same, counted; the character is a parameter for the same reason. */
  lemma FixedTextCounts(c: char)
    requires c == '?'
    ensures Count(FilterBase, c) == 0
    ensures Count(CategoryClauseHead, c) == 0
    ensures Count(")", c) == 0
    ensures Count(SearchClause, c) == 1
  {
    FixedTextMembership(c);
    CountAbsent(FilterBase, c);
    CountAbsent(CategoryClauseHead, c);
    CountAbsent(")", c);
    CountAbsent(" AND name LIKE ", c);
    CountAppend(" AND name LIKE ", [c], c);
  }

  /**
   * Counting over the shape of a filter query, with its fixed pieces left
   * abstract so that no literal is counted character by character.
   */
  lemma {:induction false} ShapeCount(base: string, head: string, close: string, search: string, n: nat, hasSearch: bool, c: char)
    requires c == '?'
    requires Count(base, c) == 0 && Count(head, c) == 0 && Count(close, c) == 0 && Count(search, c) == 1
    ensures Count(base + (if n > 0 then head + Placeholders(n) + close else "") + (if hasSearch then search else ""), c)
            == n + (if hasSearch then 1 else 0)
  {
    var cat := if n > 0 then head + Placeholders(n) + close else "";
    var tail := if hasSearch then search else "";
    if n > 0 {
      PlaceholdersCount(n);
      CountAppend(head, Placeholders(n), c);
      CountAppend(head + Placeholders(n), close, c);
    } else {
      assert cat == [];
    }
    assert Count(cat, c) == n;
    assert Count(tail, c) == if hasSearch then 1 else 0;
    CountAppend(base, cat, c);
    CountAppend(base + cat, tail, c);
  }

  /** The query carries exactly as many `?` placeholders as there are parameters. */
  lemma PlaceholdersMatchParams(categories: seq<string>, searchQuery: string)
    ensures Count(FilterQueryText(|categories|, searchQuery != ""), '?') == |FilterParams(categories, searchQuery)|
  {
    var q := '?';
    FixedTextCounts(q);
    ShapeCount(FilterBase, CategoryClauseHead, ")", SearchClause, |categories|, searchQuery != "", q);
  }

  /**
   * The parameters are the categories as given (same order, duplicates
   * kept), followed by the search pattern when the search term is not empty.
   */
  lemma FilterParamsLayout(categories: seq<string>, searchQuery: string)
    ensures var ps := FilterParams(categories, searchQuery);
      && |ps| == |categories| + (if searchQuery != "" then 1 else 0)
      && ps[..|categories|] == categories
      && (searchQuery != "" ==> ps[|ps| - 1] == "%" + searchQuery + "%")
  {
  }

  /** The statement `saveMenuItems` issues for one item: its columns in table order. */
  function InsertStatement(item: MenuItem): Statement {
    Statement(InsertSql, [Text(item.name), Real(item.price), Text(item.description), Text(item.image), Text(item.category)])
  }

  /** The statements of a bulk insert of `items`. */
  function InsertStatements(items: seq<MenuItem>): seq<Statement> {
    if items == [] then [] else [InsertStatement(items[0])] + InsertStatements(items[1..])
  }

  /**
   * A bulk insert issues exactly one insert per item, in input order, each
   * binding name, price, description, image and category in that order.
   */
  lemma {:induction false} InsertsOnePerItem(items: seq<MenuItem>)
    ensures |InsertStatements(items)| == |items|
    ensures forall i | 0 <= i < |items| ::
      InsertStatements(items)[i] == Statement(InsertSql, [Text(items[i].name), Real(items[i].price),
                                                         Text(items[i].description), Text(items[i].image),
                                                         Text(items[i].category)])
  {
    if items != [] {
      InsertsOnePerItem(items[1..]);
    }
  }

  /** The rows that inserting `items` creates when the next free id is `first`. */
  function NumberedRows(first: nat, items: seq<MenuItem>): (r: seq<MenuRow>)
    ensures |r| == |items|
    ensures forall i | 0 <= i < |items| :: r[i] == MenuRow(first + i, items[i])
    decreases items
  {
    if items == [] then [] else [MenuRow(first, items[0])] + NumberedRows(first + 1, items[1..])
  }

  /** The items stored in a sequence of rows, ids dropped. */
  function ItemsOf(rows: seq<MenuRow>): (r: seq<MenuItem>)
    ensures |r| == |rows|
    ensures forall i | 0 <= i < |rows| :: r[i] == rows[i].item
  {
    if rows == [] then [] else [rows[0].item] + ItemsOf(rows[1..])
  }

  /** Ids grow strictly in insertion order and all lie below `next`. */
  ghost predicate IdsFresh(rows: seq<MenuRow>, next: nat) {
    && (forall i, j | 0 <= i < j < |rows| :: rows[i].id < rows[j].id)
    && (forall i | 0 <= i < |rows| :: 1 <= rows[i].id < next)
  }

  /**
   * Appending freshly numbered rows keeps the ids fresh, and the inserted
   * items are read back unchanged and in order.
   */
  lemma InsertKeepsIdsFresh(rows: seq<MenuRow>, next: nat, items: seq<MenuItem>)
    requires next >= 1 && IdsFresh(rows, next)
    ensures IdsFresh(rows + NumberedRows(next, items), next + |items|)
    ensures ItemsOf(rows + NumberedRows(next, items)) == ItemsOf(rows) + items
  {
    var all := rows + NumberedRows(next, items);
    assert forall i | |rows| <= i < |all| :: all[i].id == next + (i - |rows|);
  }

  lemma {:induction false} InsertStatementsAppend(a: seq<MenuItem>, b: seq<MenuItem>)
    ensures InsertStatements(a + b) == InsertStatements(a) + InsertStatements(b)
  {
    if a == [] {
      assert a + b == b;
    } else {
      assert (a + b)[1..] == a[1..] + b;
      InsertStatementsAppend(a[1..], b);
    }
  }

  /** Issuing the inserts one item at a time issues them all, in order. */
  lemma InsertStatementsSnoc(items: seq<MenuItem>, i: nat)
    requires i < |items|
    ensures InsertStatements(items[..i + 1]) == InsertStatements(items[..i]) + [InsertStatement(items[i])]
  {
    assert items[..i + 1] == items[..i] + [items[i]];
    InsertStatementsAppend(items[..i], [items[i]]);
  }

  /** Numbering the items one at a time numbers them all, consecutively. */
  lemma NumberedRowsSnoc(first: nat, items: seq<MenuItem>, i: nat)
    requires i < |items|
    ensures NumberedRows(first, items[..i + 1]) == NumberedRows(first, items[..i]) + [MenuRow(first + i, items[i])]
  {
    assert items[..i + 1] == items[..i] + [items[i]];
  }

  /** Distinct rows of a table with fresh ids carry distinct ids. */
  lemma FreshIdsAreUnique(rows: seq<MenuRow>, next: nat)
    requires IdsFresh(rows, next)
    ensures forall i, j | 0 <= i < |rows| && 0 <= j < |rows| && i != j :: rows[i].id != rows[j].id
  {
    forall i, j | 0 <= i < |rows| && 0 <= j < |rows| && i != j
      ensures rows[i].id != rows[j].id
    {
      if i < j { assert rows[i].id < rows[j].id; } else { assert rows[j].id < rows[i].id; }
    }
  }

  /**
   * The menu database: the `menu` table (absent until created), its rows,
   * the engine's AUTOINCREMENT counter, and the statements issued so far.
   */
  class MenuStore {
    var tableExists: bool
    var rows: seq<MenuRow>
    var nextId: nat
    var issued: seq<Statement>

    ghost predicate Valid()
      reads this
    {
      && nextId >= 1
      && (!tableExists ==> rows == [])
      && IdsFresh(rows, nextId)
    }

    /** A database file with no table in it yet. */
    constructor ()
      ensures Valid()
      ensures !tableExists && rows == [] && nextId == 1 && issued == []
    {
      tableExists := false;
      rows := [];
      nextId := 1;
      issued := [];
    }

    /** createTable: `CREATE TABLE IF NOT EXISTS`, so an existing table and its rows are kept. */
    method CreateTable()
      requires Valid()
      modifies this
      ensures Valid()
      ensures tableExists
      ensures rows == old(rows) && nextId == old(nextId)
      ensures issued == old(issued) + [Statement(CreateTableSql, [])]
    {
      issued := issued + [Statement(CreateTableSql, [])];
      tableExists := true;
    }

    /**
     * One `INSERT INTO menu` of saveMenuItems: the row gets the next id; on
     * a missing table the insert fails and nothing is stored.
     */
    method InsertItem(item: MenuItem)
      requires Valid()
      modifies this
      ensures Valid()
      ensures tableExists == old(tableExists)
      ensures issued == old(issued) + [InsertStatement(item)]
      ensures tableExists ==> rows == old(rows) + [MenuRow(old(nextId), item)] && nextId == old(nextId) + 1
      ensures !tableExists ==> rows == old(rows) && nextId == old(nextId)
    {
      issued := issued + [InsertStatement(item)];
      if tableExists {
        InsertKeepsIdsFresh(rows, nextId, [item]);
        assert NumberedRows(nextId, [item]) == [MenuRow(nextId, item)];
        rows := rows + [MenuRow(nextId, item)];
        nextId := nextId + 1;
      }
    }

    /**
     * saveMenuItems: one insert per item, in input order, each row getting
     * the next id. Without the table every insert fails and the rows stay
     * as they were.
     */
    method SaveMenuItems(items: seq<MenuItem>)
      requires Valid()
      modifies this
      ensures Valid()
      ensures tableExists == old(tableExists)
      ensures issued == old(issued) + InsertStatements(items)
      ensures tableExists ==> rows == old(rows) + NumberedRows(old(nextId), items) && nextId == old(nextId) + |items|
      ensures !tableExists ==> rows == old(rows) && nextId == old(nextId)
    {
      ghost var rows0, first, issued0 := rows, nextId, issued;
      for i := 0 to |items|
        invariant Valid()
        invariant tableExists == old(tableExists)
        invariant issued == issued0 + InsertStatements(items[..i])
        invariant tableExists ==> rows == rows0 + NumberedRows(first, items[..i]) && nextId == first + i
        invariant !tableExists ==> rows == rows0 && nextId == first
      {
        InsertStatementsSnoc(items, i);
        NumberedRowsSnoc(first, items, i);
        InsertItem(items[i]);
      }
      assert items[..|items|] == items;
    }

    /**
     * getMenuItems: every row of the table, delivered once, in an order the
     * engine chooses; nothing is delivered when the table does not exist.
     */
    method GetMenuItems() returns (delivered: Option<seq<MenuRow>>)
      requires Valid()
      modifies this
      ensures Valid()
      ensures tableExists == old(tableExists) && rows == old(rows) && nextId == old(nextId)
      ensures issued == old(issued) + [Statement(SelectAllSql, [])]
      ensures delivered.Some? <==> tableExists
      ensures delivered.Some? ==> multiset(delivered.value) == multiset(rows)
    {
      issued := issued + [Statement(SelectAllSql, [])];
      delivered := if tableExists then Some(rows) else None;
    }

    /**
     * filterMenuItems: builds the query and its parameters and hands them
     * to the engine; the rows the engine selects are not modelled.
     */
    method FilterMenuItems(categories: seq<string>, searchQuery: string)
      requires Valid()
      modifies this
      ensures Valid()
      ensures tableExists == old(tableExists) && rows == old(rows) && nextId == old(nextId)
      ensures issued == old(issued) + [Statement(FilterQueryText(|categories|, searchQuery != ""),
                                                 AsText(FilterParams(categories, searchQuery)))]
    {
      var query, params := BuildFilterQuery(categories, searchQuery);
      issued := issued + [Statement(query, AsText(params))];
    }
  }

  /** String parameters as SQL text values. */
  function AsText(ps: seq<string>): (r: seq<SqlValue>)
    ensures |r| == |ps|
    ensures forall i | 0 <= i < |ps| :: r[i] == Text(ps[i])
  {
    if ps == [] then [] else [Text(ps[0])] + AsText(ps[1..])
  }

  /**
   * After N items are inserted into an existing table, the table's rows are
   * the old rows followed by N rows carrying the items unchanged, in order,
   * with ids that no other row has; a later `SELECT *` delivers these
   * rows, in an order the engine chooses (GetMenuItems).
   */
  lemma InsertThenRead(rows: seq<MenuRow>, next: nat, items: seq<MenuItem>)
    requires next >= 1 && IdsFresh(rows, next)
    ensures var after := rows + NumberedRows(next, items);
      && |after| == |rows| + |items|
      && ItemsOf(after[|rows|..]) == items
      && (forall i, j | 0 <= i < |after| && 0 <= j < |after| && i != j :: after[i].id != after[j].id)
  {
    var after := rows + NumberedRows(next, items);
    InsertKeepsIdsFresh(rows, next, items);
    FreshIdsAreUnique(after, next + |items|);
    assert after[|rows|..] == NumberedRows(next, items);
  }
}
