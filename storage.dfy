/** The browser-storage entry under the key 'codify-receipts' that every page
    reads with `JSON.parse(localStorage.getItem('codify-receipts') || '[]')`
    and writes back whole with `setItem`. Serialisation is not modelled: the
    entry holds the receipt sequence itself, or nothing when the key is absent. */
module Storage {
  import opened Types

  class ReceiptStore {
    /** None while the key has never been written. */
    var saved: Option<seq<Receipt>>

    constructor (initial: Option<seq<Receipt>>)
      ensures saved == initial
    {
      saved := initial;
    }

    /** The collection a page sees when it loads the key. */
    function Loaded(): seq<Receipt>
      reads this
    {
      saved.GetOr([])
    }

    /** Reads the collection; a missing key reads as the empty list. */
    method Load() returns (rs: seq<Receipt>)
      ensures saved.None? ==> rs == []
      ensures saved.Some? ==> rs == saved.value
    {
      rs := Loaded();
    }

    /** `setItem`: the whole collection is replaced by `rs`. */
    method Store(rs: seq<Receipt>)
      modifies this
      ensures saved == Some(rs)
    {
      saved := Some(rs);
    }
  }
}
