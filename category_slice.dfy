// The client-side category cache and the body of the create request.

module CategorySlice {
  import opened Js
  import opened Text
  import opened Catalog

  /** The body `createCategory` posts: `{category_name: name.trim()}`. */
  datatype NewCategory = NewCategory(categoryName: string)

  /** The create request carries the typed name with its surrounding
      whitespace removed, and nothing else. */
  function CreateCategoryRequest(name: string): (body: NewCategory)
    ensures Trimmed(name, body.categoryName)
  {
    NewCategory(Trim(name))
  }

  /** A name that is not blank is still non-empty once the request trims it. */
  lemma RequestNameNonEmpty(name: string)
    requires !IsBlank(name)
    ensures CreateCategoryRequest(name).categoryName != []
  {
    TrimmedEmpty(name, CreateCategoryRequest(name).categoryName);
  }

  /** The categories slice of the store. */
  class CategoryState {
    var items: seq<Category>
    var loading: bool
    var error: Option<string>

    constructor ()
      ensures items == [] && !loading && error == None
    {
      items, loading, error := [], false, None;
    }

    /** A fetch has started. */
    method FetchPending()
      modifies this`loading, this`error
      ensures loading && error == None && items == old(items)
    {
      loading := true;
      error := None;
    }

    /** A fetch returned the full list: it replaces the cached one. */
    method FetchFulfilled(payload: seq<Category>)
      modifies this`loading, this`items
      ensures !loading && items == payload && error == old(error)
    {
      loading := false;
      items := payload;
    }

    /** A fetch failed with the given message (absent when the error had none). */
    method FetchRejected(message: Option<string>)
      modifies this`loading, this`error
      ensures !loading && error == message && items == old(items)
    {
      loading := false;
      error := message;
    }

    /** The server created `created`: it is appended, even when a cached
        category already has that name. */
    method CreateFulfilled(created: Category)
      modifies this`items
      ensures items == old(items) + [created]
      ensures loading == old(loading) && error == old(error)
    {
      items := items + [created];
    }
  }
}
