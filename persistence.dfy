/**
 * The records the app keeps in the browser's `localStorage`, and the store
 * itself: a dictionary from keys to stored values that every page shares.
 */
module Persistence {
  import opened Wrappers

  /** `User`; `phone` is absent when the sign-in form leaves it empty. */
  datatype User = User(name: string, email: string, phone: Option<string>)

  /** One recorded payment: `{ id, createdAt, currency, status, city, type, amount }`. */
  datatype Asset = Asset(id: string, createdAt: string, currency: string, status: string,
                         city: string, kind: string, amount: int)

  /** A virtual bank account: `{ bank, number, name }`. */
  datatype Account = Account(bank: string, number: string, name: string)

  /**
   * A stored value, by what `JSON.parse` makes of it: one of the app's own
   * records, JSON `null`, or text that does not parse (an empty string included,
   * which the loaders skip just as they skip a parse failure).
   */
  datatype Stored =
    | UserValue(user: User)
    | AssetsValue(assets: seq<Asset>)
    | AccountValue(account: Account)
    | NullValue
    | Unparsable

  /** The storage keys of the signed-in user, the asset list and the virtual account. */
  const PcUser := "pc_user"
  const PcAssets := "pc_assets"
  const PcVa := "pc_va"

  /** `window.localStorage`. */
  class LocalStorage {
    var entries: map<string, Stored>

    constructor (initial: map<string, Stored>)
      ensures entries == initial
    {
      entries := initial;
    }

    /** `getItem`: the stored value, or none when the key is absent. */
    function GetItem(key: string): (r: Option<Stored>)
      reads this
      ensures r.Some? <==> key in entries
      ensures r.Some? ==> r.value == entries[key]
    {
      if key in entries then Some(entries[key]) else None
    }

    /** `setItem`: stores `value` under `key`, replacing what was there. */
    method SetItem(key: string, value: Stored)
      modifies this
      ensures entries == old(entries)[key := value]
    {
      entries := entries[key := value];
    }

    /** `removeItem`: drops `key`. */
    method RemoveItem(key: string)
      modifies this
      ensures entries == old(entries) - {key}
    {
      entries := entries - {key};
    }
  }
}
