/**
 * Booking on the Explore page: the booking total, the nights field, the gate
 * that sends visitors who are not signed in to the sign-in page, and the page
 * state kept in `localStorage`: the list of recorded payments (`pc_assets`) and
 * the cached virtual account (`pc_va`).
 */
module Booking {
  import opened Wrappers
  import opened Text
  import opened Apartments
  import opened Persistence
  import opened SignInPage

  // ---------------------------------------------------------------- booking modal

  /** `useState(2)`: the nights a booking starts with. */
  const InitialNights := 2

  /** `Math.max(1, nights) * unit.pricePerNight`: a stay is charged for at least one night. */
  function BookingTotal(nights: int, price: int): (total: int)
    ensures nights >= 1 ==> total == nights * price
    ensures nights < 1 ==> total == price
  {
    (if nights < 1 then 1 else nights) * price
  }

  /** `Math.max(1, Number(value || '1'))`: an empty field counts as one night, and so does anything below one. */
  function NightsFromInput(value: Option<int>): (n: int)
    ensures n >= 1
    ensures value.None? ==> n == 1
    ensures value.Some? && value.value >= 1 ==> n == value.value
    ensures value.Some? && value.value < 1 ==> n == 1
  {
    var v := if value.None? then 1 else value.value;
    if v < 1 then 1 else v
  }

  /** More nights never cost less, and a booking costs at least one night. */
  lemma {:induction false} TotalMonotone(m: int, n: int, price: nat)
    requires m <= n
    ensures price <= BookingTotal(m, price) <= BookingTotal(n, price)
  {
    var a := if m < 1 then 1 else m;
    var b := if n < 1 then 1 else n;
    assert 1 <= a <= b;
    assert a * price <= b * price by {
      assert b * price == a * price + (b - a) * price;
    }
  }

  // ---------------------------------------------------------------- sign-in gate

  datatype BookAction = GoTo(path: string) | OpenBooking(city: string, unit: Unit)

  /** The path `handleBook` sends visitors who are not signed in to. */
  const SignInForBooking := "/auth?redirect=/explore"

  /** `handleBook`: without a user, go to the sign-in page; otherwise open the booking form for the unit. */
  function HandleBook(user: Option<User>, city: string, unit: Unit): (a: BookAction)
    ensures user.None? <==> a.GoTo?
    ensures a.GoTo? ==> a.path == SignInForBooking
    ensures a.OpenBooking? ==> a.city == city && a.unit == unit
  {
    if user.None? then GoTo(SignInForBooking) else OpenBooking(city, unit)
  }

  /** The query string of the gate's path. */
  lemma {:induction false} GateSearch()
    ensures SearchOf(SignInForBooking) == "redirect=/explore"
  {
    assert SignInForBooking == "/auth" + "?" + "redirect=/explore" + "";
    assert '?' !in "/auth" && '#' !in "/auth" && '#' !in "redirect=/explore";
    SearchOfSplit("/auth", "redirect=/explore", "");
  }

  /** The `redirect` parameter of the gate's query string. */
  lemma {:induction false} GateRedirectParam()
    ensures SearchParam("redirect=/explore", "redirect") == Some("/explore")
  {
    assert '=' !in "redirect" && '&' !in "redirect" && '&' !in "/explore";
    assert "redirect" + "=" + "/explore" + "" == "redirect=/explore";
    SearchParamFirst("redirect", "/explore", "");
  }

  /**
   * The gate's path carries `redirect=/explore` in its query string, and the
   * sign-in page reads and keeps that target, so signing in returns to Explore.
   */
  lemma {:induction false} GateReturnsToExplore(user: Option<User>, city: string, unit: Unit)
    requires user.None?
    ensures var a := HandleBook(user, city, unit);
            a.GoTo? && Redirect(SearchParam(SearchOf(a.path), "redirect")) == "/explore"
  {
    GateSearch();
    GateRedirectParam();
  }

  // ---------------------------------------------------------------- page state

  /** The argument of `addAsset`: `{ city, type, amount, status? }`. */
  datatype AssetRequest = AssetRequest(city: string, kind: string, amount: int, status: Option<string>)

  /**
   * The record `addAsset` appends: an id from the clock reading `now`, the time
   * stamp, currency NGN and status pending, then the request's own fields, whose
   * status (when given) overrides the default.
   */
  function NewAsset(req: AssetRequest, now: nat, createdAt: string): (a: Asset)
    ensures a.id == "a" + NatToDecimal(now) && a.createdAt == createdAt && a.currency == "NGN"
    ensures a.status == if req.status.Some? then req.status.value else "pending"
    ensures a.city == req.city && a.kind == req.kind && a.amount == req.amount
  {
    Asset("a" + NatToDecimal(now), createdAt, "NGN",
          if req.status.Some? then req.status.value else "pending",
          req.city, req.kind, req.amount)
  }

  /** Records made at different clock readings have different ids. */
  lemma {:induction false} AssetIdsDistinct(r1: AssetRequest, r2: AssetRequest, t1: nat, t2: nat, c1: string, c2: string)
    requires t1 != t2
    ensures NewAsset(r1, t1, c1).id != NewAsset(r2, t2, c2).id
  {
    assert NewAsset(r1, t1, c1).id[1..] == NatToDecimal(t1);
    assert NewAsset(r2, t2, c2).id[1..] == NatToDecimal(t2);
    if NatToDecimal(t1) == NatToDecimal(t2) {
      NatToDecimalInjective(t1, t2);
    }
  }

  /** The demo bank and the fallback account holder of `ensureVA`. */
  const DemoBank := "PropBank (Demo)"

  /** `user?.name || 'Customer'` */
  function HolderName(user: Option<User>): (r: string)
    ensures r != ""
    ensures user.Some? && user.value.name != "" ==> r == user.value.name
    ensures user.None? || user.value.name == "" ==> r == "Customer"
  {
    if user.Some? && user.value.name != "" then user.value.name else "Customer"
  }

  /**
   * The account `ensureVA` opens: "10" followed by the nine-digit draw
   * `100000000 + offset`, held in custody for the signed-in user.
   */
  function NewAccount(user: Option<User>, offset: nat): (acct: Account)
    requires offset < 900000000
    ensures acct.bank == DemoBank
    ensures acct.name == "PropComfy Custody - " + HolderName(user)
    ensures |acct.number| == 11 && AllDigits(acct.number) && acct.number[..2] == "10"
    ensures DigitsValue(acct.number[2..]) == 100000000 + offset
  {
    var d := NatToDecimal(100000000 + offset);
    assert |d| == 9 by {
      assert Pow10(8) == 100000000 && Pow10(9) == 1000000000;
      NatToDecimalLength(100000000 + offset, 9);
    }
    var number := "10" + d;
    assert number[2..] == d;
    assert AllDigits(number) by {
      forall k | 0 <= k < |number| ensures IsDigit(number[k]) {
        if k >= 2 { assert number[k] == d[k - 2]; }
      }
    }
    Account(DemoBank, number, "PropComfy Custody - " + HolderName(user))
  }

  /** The Explore page's stored state, loaded from and written through to `localStorage`. */
  class ExploreStore {
    var assets: seq<Asset>
    var va: Option<Account>
    const store: LocalStorage

    /** The initial values `[]` and `null`, before the load effects run. */
    constructor (store: LocalStorage)
      ensures this.store == store && assets == [] && va == None
    {
      this.store := store;
      assets := [];
      va := None;
    }

    /**
     * The load effects of `useLocalStorage`: a stored list or account replaces
     * the initial value, a stored JSON `null` empties it, and a missing or
     * unparsable entry leaves it.
     */
    method Load()
      modifies this
      ensures assets == LoadedAssets(old(assets), store.GetItem(PcAssets))
      ensures va == LoadedAccount(old(va), store.GetItem(PcVa))
      ensures old(va).None? ==> AccountSynced()
    {
      var rawAssets := store.GetItem(PcAssets);
      match rawAssets {
        case Some(AssetsValue(list)) => assets := list;
        case Some(NullValue) => assets := [];
        case _ =>
      }
      var rawVa := store.GetItem(PcVa);
      match rawVa {
        case Some(AccountValue(a)) => va := Some(a);
        case Some(NullValue) => va := None;
        case _ =>
      }
    }

    /** The cached account is the one `pc_va` holds. */
    predicate AccountSynced()
      reads this, store
    {
      va.Some? ==> PcVa in store.entries && store.entries[PcVa] == AccountValue(va.value)
    }

    /** `addAsset`: appends the new record and writes the whole list back to `pc_assets`. */
    method AddAsset(req: AssetRequest, now: nat, createdAt: string)
      modifies this, store
      ensures assets == old(assets) + [NewAsset(req, now, createdAt)]
      ensures va == old(va)
      ensures store.entries == old(store.entries)[PcAssets := AssetsValue(assets)]
    {
      assets := assets + [NewAsset(req, now, createdAt)];
      store.SetItem(PcAssets, AssetsValue(assets));
    }

    /**
     * `ensureVA`: the cached account when there is one, with nothing changed;
     * otherwise a new account, cached and written to `pc_va`.
     */
    method EnsureVA(user: Option<User>, offset: nat) returns (acct: Account)
      requires offset < 900000000
      modifies this, store
      ensures old(va).Some? ==> acct == old(va).value && va == old(va) && store.entries == old(store.entries)
      ensures old(va).None? ==> acct == NewAccount(user, offset) && va == Some(acct)
      ensures old(va).None? ==> store.entries == old(store.entries)[PcVa := AccountValue(acct)]
      ensures assets == old(assets)
    {
      if va.Some? {
        return va.value;
      }
      acct := NewAccount(user, offset);
      va := Some(acct);
      store.SetItem(PcVa, AccountValue(acct));
    }

    /**
     * A paid booking: the payment form shows the account from `ensureVA`, and
     * "I've paid" records the booking's total under the unit's title.
     */
    method PayForBooking(city: string, unit: Unit, nights: int, user: Option<User>, offset: nat,
                         now: nat, createdAt: string) returns (acct: Account)
      requires offset < 900000000
      modifies this, store
      ensures old(va).Some? ==> acct == old(va).value
      ensures va == Some(acct)
      ensures assets == old(assets) + [Asset("a" + NatToDecimal(now), createdAt, "NGN", "pending", city,
                                             "Apartment Booking — " + unit.title,
                                             BookingTotal(nights, unit.pricePerNight))]
      ensures store.entries == (if old(va).Some? then old(store.entries)
                                else old(store.entries)[PcVa := AccountValue(acct)])[PcAssets := AssetsValue(assets)]
    {
      var total := BookingTotal(nights, unit.pricePerNight);
      acct := EnsureVA(user, offset);
      AddAsset(AssetRequest(city, "Apartment Booking — " + unit.title, total, None), now, createdAt);
    }
  }

  /** What the asset-list loader makes of the stored `pc_assets` value. */
  function LoadedAssets(prior: seq<Asset>, raw: Option<Stored>): (r: seq<Asset>)
    ensures raw.Some? && raw.value.AssetsValue? ==> r == raw.value.assets
    ensures raw == Some(NullValue) ==> r == []
    ensures raw.None? || !(raw.value.AssetsValue? || raw.value.NullValue?) ==> r == prior
  {
    match raw
    case Some(AssetsValue(list)) => list
    case Some(NullValue) => []
    case _ => prior
  }

  /** What the account loader makes of the stored `pc_va` value. */
  function LoadedAccount(prior: Option<Account>, raw: Option<Stored>): (r: Option<Account>)
    ensures raw.Some? && raw.value.AccountValue? ==> r == Some(raw.value.account)
    ensures raw == Some(NullValue) ==> r == None
    ensures raw.None? || !(raw.value.AccountValue? || raw.value.NullValue?) ==> r == prior
  {
    match raw
    case Some(AccountValue(a)) => Some(a)
    case Some(NullValue) => None
    case _ => prior
  }

  /** Recorded payments survive a reload: a fresh store over the same storage loads the list back. */
  method ReloadAfterPayment(s: ExploreStore, req: AssetRequest, now: nat, createdAt: string)
    returns (t: ExploreStore)
    modifies s, s.store
    ensures fresh(t) && t.store == s.store
    ensures t.assets == old(s.assets) + [NewAsset(req, now, createdAt)]
  {
    s.AddAsset(req, now, createdAt);
    t := new ExploreStore(s.store);
    t.Load();
  }

  /** The account survives a reload too: once opened, later payments reuse the same account. */
  method AccountStableAcrossReload(s: ExploreStore, user: Option<User>, o1: nat, o2: nat)
    returns (a1: Account, a2: Account)
    requires o1 < 900000000 && o2 < 900000000
    requires s.AccountSynced()
    modifies s, s.store
    ensures a1 == a2
  {
    a1 := s.EnsureVA(user, o1);
    var t := new ExploreStore(s.store);
    t.Load();
    a2 := t.EnsureVA(user, o2);
  }
}
