/** The argument check of `scripts/nukeall.ts`. Its lists of columns and sort orders
    come from `scripts/shared-server-list.ts`, which is not part of this
    model, so they are parameters here. Its number formatting is
    `NumberFormat.FormatNumber`, the same definition as in `scripts/walk.ts`. */
module NukeAll {
  import Membership
  import Walk

  const DefaultColumn: string := "hackLevel"
  const DefaultSortOrder: string := "asc"

  /** `isValidSort`: the column is one of the imported columns. */
  function IsValidSort(columns: seq<string>, sort: string): (r: bool)
    ensures r <==> sort in columns
  {
    Membership.Includes(columns, sort)
  }

  /** `isValidSortOrder`: the order is one of the imported sort orders. */
  function IsValidSortOrder(sortOrders: seq<string>, order: string): (r: bool)
    ensures r <==> order in sortOrders
  {
    Membership.Includes(sortOrders, order)
  }

  /** The guard of `main`. */
  predicate ArgumentsAccepted(columns: seq<string>, sortOrders: seq<string>, column: string, sortOrder: string)
  {
    IsValidSort(columns, column) && IsValidSortOrder(sortOrders, sortOrder)
  }

  /** Should the shared lists be those of `scripts/walk.ts`, both scripts accept
      exactly the same arguments. */
  lemma SameAsWalk(column: string, sortOrder: string)
    ensures ArgumentsAccepted(Walk.Columns, Walk.SortOrders, column, sortOrder)
        <==> Walk.ArgumentsAccepted(column, sortOrder)
  {
  }

  /** The defaults pass the check exactly when the shared lists hold them. */
  lemma DefaultsAccepted(columns: seq<string>, sortOrders: seq<string>)
    ensures ArgumentsAccepted(columns, sortOrders, DefaultColumn, DefaultSortOrder)
        <==> DefaultColumn in columns && DefaultSortOrder in sortOrders
  {
  }
}
