/**
 * The sign-in page's derivations: the sanitised redirect target, the headline
 * chosen by the `scenario` parameter, the user records its three handlers build,
 * and the handlers themselves, each of which signs in once and then navigates.
 */
module SignInPage {
  import opened Wrappers
  import opened Text
  import opened Persistence
  import opened Session

  // ---------------------------------------------------------------- redirect

  /**
   * `search.get('redirect') || '/'`, kept only when it starts with `/`: a missing
   * or empty parameter, or any other value, sends the user to the home page.
   */
  function Redirect(param: Option<string>): (r: string)
    ensures |r| > 0 && r[0] == '/'
    ensures param.Some? && |param.value| > 0 && param.value[0] == '/' ==> r == param.value
    ensures !(param.Some? && |param.value| > 0 && param.value[0] == '/') ==> r == "/"
  {
    var raw := if param.Some? && param.value != "" then param.value else "/";
    if StartsWith(raw, "/") then raw else "/"
  }

  /** A sanitised target passes through the sanitiser unchanged. */
  lemma {:induction false} RedirectIdempotent(param: Option<string>)
    ensures Redirect(Some(Redirect(param))) == Redirect(param)
  {
    var r := Redirect(param);
    assert |r| > 0 && r[0] == '/';
  }

  /** A target that starts with two slashes starts with `/`, so it is kept as well. */
  lemma {:induction false} RedirectKeepsDoubleSlash(rest: string)
    ensures Redirect(Some("//" + rest)) == "//" + rest
  {
    assert ("//" + rest)[0] == '/';
  }

  // ---------------------------------------------------------------- query string

  /**
   * `location.search` without its `?`: what follows the first `?` of the path
   * up to its `#` fragment, or nothing when the part before the fragment has no `?`.
   */
  function SearchOf(path: string): (s: string)
    ensures '#' !in s
    ensures var url := BeforeFirst(path, '#'); '?' in url ==> url == BeforeFirst(url, '?') + "?" + s
    ensures '?' !in BeforeFirst(path, '#') ==> s == []
  {
    var url := BeforeFirst(path, '#');
    var before := BeforeFirst(url, '?');
    if |before| < |url| then
      var s := url[|before| + 1..];
      assert url == before + "?" + s by { assert url[|before|] == '?'; }
      assert '#' !in s by {
        forall i | 0 <= i < |s| ensures s[i] != '#' { assert s[i] == url[|before| + 1 + i]; }
      }
      s
    else []
  }

  /** The query string of `a?b#f` is `b` when the path part `a` has no `?`, whether or not a fragment follows. */
  lemma {:induction false} SearchOfSplit(a: string, b: string, fragment: string)
    requires '?' !in a && '#' !in a && '#' !in b
    requires fragment == [] || fragment[0] == '#'
    ensures SearchOf(a + "?" + b + fragment) == b
  {
    var url := a + "?" + b;
    assert '#' !in url;
    BeforeFirstPrefix(url, '#', fragment);
    assert url == a + ("?" + b);
    BeforeFirstPrefix(a, '?', "?" + b);
    assert url[|a| + 1..] == b;
  }

  /** `search.split('&')`: the pairs between the `&` separators, in order. */
  function SplitPairs(search: string): (ps: seq<string>)
    decreases |search|
    ensures |ps| >= 1
    ensures forall i :: 0 <= i < |ps| ==> '&' !in ps[i]
  {
    var pair := BeforeFirst(search, '&');
    if |pair| < |search| then [pair] + SplitPairs(search[|pair| + 1..]) else [pair]
  }

  /** The pairs joined back with `&`. */
  function JoinPairs(ps: seq<string>): string
    requires |ps| >= 1
  {
    if |ps| == 1 then ps[0] else ps[0] + "&" + JoinPairs(ps[1..])
  }

  /** Splitting a query string into its pairs loses nothing. */
  lemma {:induction false} JoinSplitPairs(search: string)
    decreases |search|
    ensures JoinPairs(SplitPairs(search)) == search
  {
    var pair := BeforeFirst(search, '&');
    if |pair| < |search| {
      var rest := search[|pair| + 1..];
      JoinSplitPairs(rest);
      var ps := SplitPairs(search);
      assert ps[1..] == SplitPairs(rest);
      assert search == pair + "&" + rest by {
        assert search == search[..|pair|] + [search[|pair|]] + rest;
      }
    }
  }

  /** A non-empty pair whose name, the part before its first `=`, is `key`. */
  predicate Named(pair: string, key: string) {
    pair != [] && BeforeFirst(pair, '=') == key
  }

  /** The value of a pair: what follows its first `=`, or the empty string. */
  function PairValue(pair: string): string {
    var name := BeforeFirst(pair, '=');
    if |name| < |pair| then pair[|name| + 1..] else []
  }

  /**
   * `URLSearchParams.get(key)`: the value of the first `&`-separated pair whose
   * name is `key`, the empty string for a pair without `=`; empty pairs are skipped.
   */
  function SearchParam(search: string, key: string): (r: Option<string>)
    decreases |search|
    ensures r.Some? ==> '&' !in r.value
  {
    var pair := BeforeFirst(search, '&');
    if Named(pair, key) then Some(PairValue(pair))
    else if |pair| < |search| then SearchParam(search[|pair| + 1..], key)
    else None
  }

  /** The value of the first pair in `ps` named `key`. */
  function FirstNamed(ps: seq<string>, key: string): Option<string> {
    if ps == [] then None
    else if Named(ps[0], key) then Some(PairValue(ps[0]))
    else FirstNamed(ps[1..], key)
  }

  /** No value exactly when no pair is named `key`; otherwise the first such pair's value. */
  lemma {:induction false} FirstNamedSpec(ps: seq<string>, key: string)
    ensures FirstNamed(ps, key).None? <==> forall i :: 0 <= i < |ps| ==> !Named(ps[i], key)
    ensures forall i :: 0 <= i < |ps| && Named(ps[i], key) && (forall j :: 0 <= j < i ==> !Named(ps[j], key))
              ==> FirstNamed(ps, key) == Some(PairValue(ps[i]))
  {
    if ps != [] && !Named(ps[0], key) {
      var qs := ps[1..];
      FirstNamedSpec(qs, key);
      forall i | 1 <= i < |ps| ensures ps[i] == qs[i - 1] { }
      forall i | 0 <= i < |qs| ensures qs[i] == ps[i + 1] { }
    }
  }

  /** Scanning the query string is looking the key up among its pairs. */
  lemma {:induction false} SearchParamSplit(search: string, key: string)
    decreases |search|
    ensures SearchParam(search, key) == FirstNamed(SplitPairs(search), key)
  {
    var pair := BeforeFirst(search, '&');
    var ps := SplitPairs(search);
    if |pair| < |search| {
      var rest := search[|pair| + 1..];
      SearchParamSplit(rest, key);
      assert ps[1..] == SplitPairs(rest);
    }
  }

  /**
   * `get` reads the pairs of `split('&')`: no parameter exactly when no pair is
   * named `key`, and otherwise the value of the first pair that is.
   */
  lemma {:induction false} SearchParamPairs(search: string, key: string)
    ensures var ps := SplitPairs(search);
            SearchParam(search, key).None? <==> forall i :: 0 <= i < |ps| ==> !Named(ps[i], key)
    ensures var ps := SplitPairs(search);
            forall i :: 0 <= i < |ps| && Named(ps[i], key) && (forall j :: 0 <= j < i ==> !Named(ps[j], key))
              ==> SearchParam(search, key) == Some(PairValue(ps[i]))
  {
    SearchParamSplit(search, key);
    FirstNamedSpec(SplitPairs(search), key);
  }

  /** A leading pair that is empty or named otherwise is skipped. */
  lemma {:induction false} SearchParamSkip(search: string, key: string)
    requires !Named(BeforeFirst(search, '&'), key) && '&' in search
    ensures SearchParam(search, key) == SearchParam(search[|BeforeFirst(search, '&')| + 1..], key)
  {
    var pair := BeforeFirst(search, '&');
    assert pair == search[..|pair|];
  }

  /** A leading `key=value` pair is read back as `value`. */
  lemma {:induction false} SearchParamFirst(key: string, value: string, rest: string)
    requires key != [] && '=' !in key && '&' !in key && '&' !in value
    requires rest == [] || rest[0] == '&'
    ensures SearchParam(key + "=" + value + rest, key) == Some(value)
  {
    var pair := key + "=" + value;
    assert '&' !in pair by {
      forall i | 0 <= i < |pair| ensures pair[i] != '&' {
        if i < |key| { assert pair[i] == key[i]; }
        else if i > |key| { assert pair[i] == value[i - |key| - 1]; }
      }
    }
    BeforeFirstPrefix(pair, '&', rest);
    assert key + "=" + value + rest == pair + rest;
    assert key + "=" + value == key + ("=" + value);
    BeforeFirstPrefix(key, '=', "=" + value);
    assert pair[|key| + 1..] == value;
  }

  /** A pair `name=value` named otherwise is passed over. */
  lemma {:induction false} SearchParamAfterPair(name: string, value: string, rest: string, key: string)
    requires name != [] && name != key && '=' !in name && '&' !in name && '&' !in value
    ensures SearchParam(name + "=" + value + "&" + rest, key) == SearchParam(rest, key)
  {
    var pair := name + "=" + value;
    assert '&' !in pair by {
      forall i | 0 <= i < |pair| ensures pair[i] != '&' {
        if i < |name| { assert pair[i] == name[i]; }
        else if i > |name| { assert pair[i] == value[i - |name| - 1]; }
      }
    }
    var search := name + "=" + value + "&" + rest;
    assert search == pair + ("&" + rest);
    BeforeFirstPrefix(pair, '&', "&" + rest);
    assert pair == name + ("=" + value);
    BeforeFirstPrefix(name, '=', "=" + value);
    assert search[|pair| + 1..] == rest;
  }

  /**
   * A `redirect` after another parameter is still honoured, as in
   * `?scenario=hosts&redirect=/x`.
   */
  lemma {:induction false} RedirectAfterOtherParam(name: string, value: string, target: string)
    requires name != [] && name != "redirect" && '=' !in name && '&' !in name && '&' !in value
    requires '&' !in target && |target| > 0 && target[0] == '/'
    ensures Redirect(SearchParam(name + "=" + value + "&" + ("redirect" + "=" + target), "redirect")) == target
  {
    var rest := "redirect" + "=" + target;
    var param := SearchParam(name + "=" + value + "&" + rest, "redirect");
    SearchParamAfterPair(name, value, rest, "redirect");
    assert rest + "" == rest;
    SearchParamFirst("redirect", target, "");
    assert param == Some(target);
  }

  // ---------------------------------------------------------------- headline

  datatype Headline = Headline(title: string, subtitle: string)

  /** `(search.get('scenario') || '').toLowerCase()` */
  function Scenario(param: Option<string>): (r: string)
    ensures param.None? ==> r == ""
    ensures param.Some? ==> |r| == |param.value| && forall i :: 0 <= i < |r| ==> r[i] == Lower(param.value[i])
    ensures forall i :: 0 <= i < |r| ==> !('A' <= r[i] <= 'Z')
  {
    LowerStr(if param.Some? then param.value else "")
  }

  /** The headline for hosts. */
  const HostsHeadline := Headline("Become a verified host", "List apartments with verification and seamless payouts.")

  /** The headline for investors. */
  const InvestorsHeadline := Headline("Invest in property assets", "Diversify with asset‑backed units and track ROI.")

  /** The headline for guests, the default. */
  const GuestsHeadline := Headline("Let’s get you settled", "Book verified apartments with flexible deposits and instant payments.")

  /** The title and subtitle for a lowercased scenario: hosts, investors, or guests by default. */
  function HeadlineFor(scenario: string): (h: Headline)
    ensures scenario == "hosts" ==> h == HostsHeadline
    ensures scenario == "investors" ==> h == InvestorsHeadline
    ensures scenario != "hosts" && scenario != "investors" ==> h == GuestsHeadline
  {
    if scenario == "hosts" then HostsHeadline
    else if scenario == "investors" then InvestorsHeadline
    else GuestsHeadline
  }

  /** The headline ignores the letter case of the `scenario` parameter. */
  lemma {:induction false} HeadlineIgnoresCase(param: string)
    ensures HeadlineFor(Scenario(Some(param))) == HeadlineFor(Scenario(Some(LowerStr(param))))
  {
    assert LowerStr(LowerStr(param)) == LowerStr(param) by {
      forall i | 0 <= i < |param| ensures LowerStr(LowerStr(param))[i] == LowerStr(param)[i] {
        LowerIdempotent(param[i]);
      }
    }
  }

  // ---------------------------------------------------------------- user records

  /**
   * `handleSignInSubmit`'s record: the trimmed email, the part of it before the
   * first `@` as the name (or "Guest" when there is no email), and the trimmed
   * phone, dropped when it is empty.
   */
  function SignInUser(email: string, phone: string): (u: User)
    ensures u.email == Trim(email)
    ensures Trim(email) == [] ==> u.name == "Guest"
    ensures Trim(email) != [] ==> |u.name| <= |u.email| && u.name == u.email[..|u.name|] && '@' !in u.name
    ensures Trim(email) != [] && '@' in Trim(email) ==> u.email[|u.name|] == '@'
    ensures Trim(email) != [] && '@' !in Trim(email) ==> u.name == u.email
    ensures u.phone.None? <==> Trim(phone) == []
    ensures u.phone.Some? ==> u.phone.value == Trim(phone)
  {
    var e := Trim(email);
    var p := Trim(phone);
    User(if e != [] then BeforeFirst(e, '@') else "Guest", e, if p != [] then Some(p) else None)
  }

  /** An email that starts with `@` gives a signed-in user with an empty name. */
  lemma {:induction false} LeadingAtGivesEmptyName(rest: string, phone: string)
    ensures SignInUser("@" + rest, phone).name == ""
  {
    var e := "@" + rest;
    assert TrimStart(e) == 0 by { SkipWhileRun(e, 0, 0, IsSpace); }
    assert Trim(e)[0] == '@';
  }

  /**
   * `handleCreateSubmit`'s record: the trimmed name (or "Guest" when it is
   * empty), the trimmed email, and the trimmed phone, kept even when empty.
   */
  function CreateUser(name: string, email: string, phone: string): (u: User)
    ensures u.name == if Trim(name) == [] then "Guest" else Trim(name)
    ensures u.email == Trim(email)
    ensures u.phone == Some(Trim(phone))
  {
    var n := Trim(name);
    User(if n != [] then n else "Guest", Trim(email), Some(Trim(phone)))
  }

  /** The providers of the mock social sign-in. */
  datatype Provider = Google | Apple

  /** `oauthSignIn`'s fixed record for each provider, without a phone. */
  function OAuthUser(kind: Provider): (u: User)
    ensures kind == Google ==> u == User("Google User", "user@gmail.com", None)
    ensures kind == Apple ==> u == User("Apple User", "user@icloud.com", None)
  {
    if kind == Google then User("Google User", "user@gmail.com", None)
    else User("Apple User", "user@icloud.com", None)
  }

  /** Every record a handler builds has a non-empty name unless its email starts with `@`. */
  lemma {:induction false} NamesNonEmpty(email: string, phone: string, name: string, kind: Provider)
    ensures SignInUser(email, phone).name != [] || (Trim(email) != [] && Trim(email)[0] == '@')
    ensures CreateUser(name, email, phone).name != []
    ensures OAuthUser(kind).name != []
  {
  }

  // ---------------------------------------------------------------- handlers

  /**
   * The shared tail of the three handlers: one `signIn`, then the target to
   * navigate to, read from the page's query string `search`.
   */
  method Submit(p: AuthProvider, u: User, search: string) returns (target: string)
    modifies p, p.store
    ensures p.user == Some(u)
    ensures p.store.entries == old(p.store.entries)[PcUser := UserValue(u)]
    ensures target == Redirect(SearchParam(search, "redirect"))
  {
    p.SignIn(u);
    target := Redirect(SearchParam(search, "redirect"));
  }

  /** `handleSignInSubmit` */
  method HandleSignInSubmit(p: AuthProvider, email: string, phone: string, search: string)
    returns (target: string)
    modifies p, p.store
    ensures p.user == Some(SignInUser(email, phone))
    ensures p.store.entries == old(p.store.entries)[PcUser := UserValue(SignInUser(email, phone))]
    ensures target == Redirect(SearchParam(search, "redirect"))
  {
    target := Submit(p, SignInUser(email, phone), search);
  }

  /** `handleCreateSubmit` */
  method HandleCreateSubmit(p: AuthProvider, name: string, email: string, phone: string, search: string)
    returns (target: string)
    modifies p, p.store
    ensures p.user == Some(CreateUser(name, email, phone))
    ensures p.store.entries == old(p.store.entries)[PcUser := UserValue(CreateUser(name, email, phone))]
    ensures target == Redirect(SearchParam(search, "redirect"))
  {
    target := Submit(p, CreateUser(name, email, phone), search);
  }

  /** `oauthSignIn` */
  method OAuthSignIn(p: AuthProvider, kind: Provider, search: string) returns (target: string)
    modifies p, p.store
    ensures p.user == Some(OAuthUser(kind))
    ensures p.store.entries == old(p.store.entries)[PcUser := UserValue(OAuthUser(kind))]
    ensures target == Redirect(SearchParam(search, "redirect"))
  {
    target := Submit(p, OAuthUser(kind), search);
  }
}
