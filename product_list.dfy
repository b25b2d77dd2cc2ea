/** ManageProducts.tsx: the product table's search and status filter and
    the delete confirmation dialog. */
module ProductList {
  import opened Wrappers
  import opened Text
  import opened ProductSlice
  import EntitySlice
  import Seqs

  /** One product against the lower-cased query: the query occurs in the
      lower-cased name or SKU, and the status equals the filter unless the
      filter is empty. */
  predicate MatchesLowered(p: Product, loweredQuery: string, statusFilter: string)
  {
    && (Includes(ToLower(p.name), loweredQuery) || Includes(ToLower(p.sku), loweredQuery))
    && (statusFilter == "" || p.status == statusFilter)
  }

  predicate Matches(p: Product, query: string, statusFilter: string)
  {
    MatchesLowered(p, ToLower(query), statusFilter)
  }

  /** `filteredProducts`: the products that match, in store order. */
  function FilterProducts(products: seq<Product>, query: string, statusFilter: string): (r: seq<Product>)
    ensures forall i :: 0 <= i < |r| ==> r[i] in products && Matches(r[i], query, statusFilter)
    ensures forall i :: 0 <= i < |products| && Matches(products[i], query, statusFilter) ==> products[i] in r
    ensures Seqs.IsSubsequence(r, products)
    ensures forall i :: 0 <= i < |products| ==>
      multiset(r)[products[i]] == if Matches(products[i], query, statusFilter) then multiset(products)[products[i]] else 0
  {
    var lowered := ToLower(query);
    Seqs.Filter(products, (p: Product) => MatchesLowered(p, lowered, statusFilter))
  }

  /** With no query and no status filter every product is listed. */
  lemma EmptyFilterListsAll(products: seq<Product>)
    ensures FilterProducts(products, "", "") == products
  {
    forall i | 0 <= i < |products|
      ensures MatchesLowered(products[i], ToLower(""), "")
    {
      IncludesEmpty(ToLower(products[i].name));
    }
    Seqs.FilterAll(products, (p: Product) => MatchesLowered(p, ToLower(""), ""));
  }

  /** The search ignores the case of the query's ASCII letters. */
  lemma SearchIgnoresQueryCase(products: seq<Product>, query: string, statusFilter: string)
    ensures FilterProducts(products, ToUpper(query), statusFilter) == FilterProducts(products, query, statusFilter)
  {
    ToLowerOfUpper(query);
  }

  /** Filtering the filtered table again changes nothing. */
  lemma FilterStable(products: seq<Product>, query: string, statusFilter: string)
    ensures FilterProducts(FilterProducts(products, query, statusFilter), query, statusFilter)
         == FilterProducts(products, query, statusFilter)
  {
    Seqs.FilterIdempotent(products, (p: Product) => MatchesLowered(p, ToLower(query), statusFilter));
  }

  /** Once the delete reducer has removed an id from the store, no row of
      the table carries it, whatever the search. */
  lemma DeletedNotListed(products: seq<Product>, id: string, query: string, statusFilter: string)
    ensures forall i :: 0 <= i < |FilterProducts(EntitySlice.RemoveById(products, id, ProductId), query, statusFilter)| ==>
      FilterProducts(EntitySlice.RemoveById(products, id, ProductId), query, statusFilter)[i].id != Some(id)
  {
    var remaining := EntitySlice.RemoveById(products, id, ProductId);
    var shown := FilterProducts(remaining, query, statusFilter);
    forall i | 0 <= i < |shown| ensures shown[i].id != Some(id) {
      var j :| 0 <= j < |remaining| && remaining[j] == shown[i];
      assert ProductId(remaining[j]) != Some(id);
    }
  }

  /** The delete confirmation dialog: the id picked by a row's delete
      button and whether the dialog shows. */
  class DeleteDialog {
    var productToDelete: Option<string>
    var showDeleteConfirm: bool

    constructor ()
      ensures productToDelete == None && !showDeleteConfirm
    {
      productToDelete := None;
      showDeleteConfirm := false;
    }

    /** `handleDeleteClick(product._id)`; a product without an id gives `None`. */
    method DeleteClick(productId: Option<string>)
      modifies this
      ensures productToDelete == productId && showDeleteConfirm
    {
      productToDelete := productId;
      showDeleteConfirm := true;
    }

    /** `confirmDelete`: with a non-empty id picked, returns it for
        `deleteProduct` and closes the dialog; otherwise does nothing. */
    method ConfirmDelete() returns (deleted: Option<string>)
      modifies this
      ensures old(productToDelete).Some? && old(productToDelete).value != "" ==>
        deleted == old(productToDelete) && productToDelete == None && !showDeleteConfirm
      ensures !(old(productToDelete).Some? && old(productToDelete).value != "") ==>
        deleted == None && productToDelete == old(productToDelete) && showDeleteConfirm == old(showDeleteConfirm)
    {
      if productToDelete.Some? && productToDelete.value != "" {
        deleted := productToDelete;
        showDeleteConfirm := false;
        productToDelete := None;
      } else {
        deleted := None;
      }
    }

    /** The cancel button hides the dialog; the picked id stays. */
    method Cancel()
      modifies this
      ensures !showDeleteConfirm && productToDelete == old(productToDelete)
    {
      showDeleteConfirm := false;
    }
  }

  /** A delete click followed by a confirmation deletes exactly the clicked
      product, and only when it has a non-empty id. */
  method ClickThenConfirm(productId: Option<string>) returns (deleted: Option<string>)
    ensures deleted == if productId.Some? && productId.value != "" then productId else None
  {
    var dialog := new DeleteDialog();
    dialog.DeleteClick(productId);
    deleted := dialog.ConfirmDelete();
  }
}
