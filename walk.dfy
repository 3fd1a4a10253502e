/** The argument check of `scripts/walk.ts`: the column to sort by must be one of the
    seven listed columns and the sort order one of the two listed orders;
    both have defaults. Its number formatting is `NumberFormat.FormatNumber`. */
module Walk {
  import Membership

  const Columns: seq<string> :=
    ["hackLevel", "hackValue", "hasRoot", "incomeRate", "name", "security", "serverMoney"]

  const SortOrders: seq<string> := ["asc", "desc"]

  const DefaultColumn: string := "hackLevel"
  const DefaultSortOrder: string := "asc"

  /** `isValidSort`: the column is one of the seven columns. */
  function IsValidSort(sort: string): (r: bool)
    ensures r <==> sort in {"hackLevel", "hackValue", "hasRoot", "incomeRate", "name", "security", "serverMoney"}
  {
    var ok := Membership.Includes(Columns, sort);
    assert ok <==> sort in Columns;
    ok
  }

  /** `isValidSortOrder`: the order is "asc" or "desc". */
  function IsValidSortOrder(order: string): (r: bool)
    ensures r <==> order == "asc" || order == "desc"
  {
    var ok := Membership.Includes(SortOrders, order);
    assert ok <==> order in SortOrders;
    ok
  }

  /** The guard of `main`: the listing goes ahead only when both arguments
      are valid; otherwise the usage text is printed. */
  predicate ArgumentsAccepted(column: string, sortOrder: string)
  {
    IsValidSort(column) && IsValidSortOrder(sortOrder)
  }

  /** Run without arguments, the defaults pass the check. */
  lemma DefaultsAccepted()
    ensures ArgumentsAccepted(DefaultColumn, DefaultSortOrder)
  {
  }

  /** The check is case-sensitive and admits nothing else: the order "ASC"
      and a column not in the list are refused. */
  lemma OthersRefused()
    ensures !IsValidSortOrder("ASC")
    ensures !IsValidSort("growAmount")
  {
  }
}
