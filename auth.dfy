/** The marketplace authenticator: the string to sign (path followed by the parameters sorted
  * by key), the timestamp it adds to the caller's parameters, token refresh, the shop-cipher
  * call and the check that combines them. */
module TikTokAuth {
  import opened Values
  import opened Net

  const BaseUrl := "https://open-api.tiktokglobalshop.com"
  const RefreshPath := "/authorization/202309/token/refresh"
  const ShopsPath := "/shop/202309/shops"

  // ---------------------------------------------------------------------------------------------
  // String to sign

  /** Python's `<` on strings: code point by code point, a proper prefix first. */
  predicate StrLess(a: string, b: string)
  {
    if |a| == 0 then |b| > 0
    else if |b| == 0 then false
    else if a[0] != b[0] then a[0] < b[0]
    else StrLess(a[1..], b[1..])
  }

  lemma {:induction false} StrLessIrreflexive(a: string)
    ensures !StrLess(a, a)
  {
    if |a| > 0 {
      StrLessIrreflexive(a[1..]);
    }
  }

  lemma {:induction false} StrLessTransitive(a: string, b: string, c: string)
    requires StrLess(a, b) && StrLess(b, c)
    ensures StrLess(a, c)
  {
    if |a| > 0 && |b| > 0 && |c| > 0 && a[0] == b[0] == c[0] {
      StrLessTransitive(a[1..], b[1..], c[1..]);
    }
  }

  lemma {:induction false} StrLessTotal(a: string, b: string)
    requires a != b
    ensures StrLess(a, b) || StrLess(b, a)
  {
    if |a| > 0 && |b| > 0 && a[0] == b[0] {
      assert a == [a[0]] + a[1..] && b == [b[0]] + b[1..];
      StrLessTotal(a[1..], b[1..]);
    }
  }

  lemma StrLessAsymmetric(a: string, b: string)
    requires StrLess(a, b)
    ensures !StrLess(b, a)
  {
    if StrLess(b, a) {
      StrLessTransitive(a, b, a);
      StrLessIrreflexive(a);
    }
  }

  /** A dictionary's items: no key twice. */
  ghost predicate UniqueKeys(ps: seq<(string, string)>)
  {
    forall i, j :: 0 <= i < j < |ps| ==> ps[i].0 != ps[j].0
  }

  /** Strictly ascending keys. */
  ghost predicate SortedByKey(ps: seq<(string, string)>)
  {
    forall i, j :: 0 <= i < j < |ps| ==> StrLess(ps[i].0, ps[j].0)
  }

  function InsertByKey(p: (string, string), s: seq<(string, string)>): (r: seq<(string, string)>)
    ensures multiset(r) == multiset(s) + multiset{p}
  {
    if s == [] then [p]
    else if StrLess(p.0, s[0].0) then [p] + s
    else
      var r := [s[0]] + InsertByKey(p, s[1..]);
      assert s == [s[0]] + s[1..];
      r
  }

  /** `sorted(params.items())`; the keys are distinct, so only keys are compared. */
  function SortByKey(ps: seq<(string, string)>): (r: seq<(string, string)>)
    ensures multiset(r) == multiset(ps)
  {
    if ps == [] then []
    else
      assert ps == [ps[0]] + ps[1..];
      InsertByKey(ps[0], SortByKey(ps[1..]))
  }

  lemma {:induction false} InsertKeepsSorted(p: (string, string), s: seq<(string, string)>)
    requires SortedByKey(s) && forall q :: q in s ==> q.0 != p.0
    ensures SortedByKey(InsertByKey(p, s))
  {
    if s != [] && !StrLess(p.0, s[0].0) {
      StrLessTotal(p.0, s[0].0);
      var t := s[1..];
      assert SortedByKey(t) by {
        forall i, j | 0 <= i < j < |t| ensures StrLess(t[i].0, t[j].0) {
          assert t[i] == s[i + 1] && t[j] == s[j + 1];
        }
      }
      InsertKeepsSorted(p, t);
      var ins := InsertByKey(p, t);
      var r := [s[0]] + ins;
      forall k | 0 <= k < |ins| ensures StrLess(s[0].0, ins[k].0) {
        assert ins[k] in multiset(ins);
        if ins[k] != p {
          assert ins[k] in multiset(t);
          var m :| 0 <= m < |t| && t[m] == ins[k];
          assert t[m] == s[m + 1];
        }
      }
      forall i, j | 0 <= i < j < |r| ensures StrLess(r[i].0, r[j].0) {
        if i > 0 {
          assert r[i] == ins[i - 1] && r[j] == ins[j - 1];
        } else {
          assert r[j] == ins[j - 1];
        }
      }
    } else if s != [] {
      var r := [p] + s;
      forall i, j | 0 <= i < j < |r| ensures StrLess(r[i].0, r[j].0) {
        if i == 0 && j > 1 {
          assert r[j] == s[j - 1];
          StrLessTransitive(p.0, s[0].0, s[j - 1].0);
        }
      }
    }
  }

  /** Sorting distinct keys gives them in strictly ascending order. */
  lemma {:induction false} SortByKeySorted(ps: seq<(string, string)>)
    requires UniqueKeys(ps)
    ensures SortedByKey(SortByKey(ps))
  {
    if ps != [] {
      var t := ps[1..];
      assert UniqueKeys(t) by {
        forall i, j | 0 <= i < j < |t| ensures t[i].0 != t[j].0 {
          assert t[i] == ps[i + 1] && t[j] == ps[j + 1];
        }
      }
      SortByKeySorted(t);
      forall q | q in SortByKey(t) ensures q.0 != ps[0].0 {
        assert q in multiset(SortByKey(t));
        assert q in multiset(t);
        var m :| 0 <= m < |t| && t[m] == q;
        assert t[m] == ps[m + 1];
      }
      InsertKeepsSorted(ps[0], SortByKey(t));
    }
  }

  lemma SortedTail(a: seq<(string, string)>)
    requires SortedByKey(a) && a != []
    ensures SortedByKey(a[1..])
  {
    forall x, y | 0 <= x < y < |a[1..]| ensures StrLess(a[1..][x].0, a[1..][y].0) {
      assert a[1..][x] == a[x + 1] && a[1..][y] == a[y + 1];
    }
  }

  /** The first item of a strictly sorted sequence is the one with the least key. */
  lemma SortedHeads(a: seq<(string, string)>, b: seq<(string, string)>)
    requires SortedByKey(a) && SortedByKey(b) && multiset(a) == multiset(b) && a != []
    ensures b != [] && a[0] == b[0]
  {
    assert a[0] in multiset(b);
    assert b[0] in multiset(a);
    var i :| 0 <= i < |a| && a[i] == b[0];
    var j :| 0 <= j < |b| && b[j] == a[0];
    if i > 0 {
      assert StrLess(a[0].0, b[0].0);
      if j > 0 {
        StrLessAsymmetric(b[0].0, a[0].0);
      } else {
        StrLessIrreflexive(a[0].0);
      }
    }
  }

  /** Two strictly sorted arrangements of the same items are the same sequence. */
  lemma {:induction false} SortedUnique(a: seq<(string, string)>, b: seq<(string, string)>)
    requires SortedByKey(a) && SortedByKey(b) && multiset(a) == multiset(b)
    ensures a == b
  {
    if a != [] {
      SortedHeads(a, b);
      assert a == [a[0]] + a[1..] && b == [b[0]] + b[1..];
      calc {
        multiset(a[1..]);
        multiset(a) - multiset{a[0]};
        multiset(b) - multiset{b[0]};
        multiset(b[1..]);
      }
      SortedTail(a);
      SortedTail(b);
      SortedUnique(a[1..], b[1..]);
    } else {
      assert |b| == |multiset(b)| == 0;
    }
  }

  /** `[f"{k}={v}" for k, v in items]` */
  function KeyValues(ps: seq<(string, string)>): (r: seq<string>)
    ensures |r| == |ps| && forall i :: 0 <= i < |ps| ==> r[i] == ps[i].0 + "=" + ps[i].1
  {
    if ps == [] then [] else [ps[0].0 + "=" + ps[0].1] + KeyValues(ps[1..])
  }

  /** `path + '&'.join(f"{k}={v}" for k, v in sorted(params.items()))` */
  function StringToSign(path: string, ps: seq<(string, string)>): string
  {
    path + Join("&", KeyValues(SortByKey(ps)))
  }

  /** The string to sign lists every parameter once, in ascending key order. */
  lemma StringToSignSorted(path: string, ps: seq<(string, string)>)
    requires UniqueKeys(ps)
    ensures var sorted := SortByKey(ps);
      && StringToSign(path, ps) == path + Join("&", KeyValues(sorted))
      && SortedByKey(sorted) && multiset(sorted) == multiset(ps)
  {
    SortByKeySorted(ps);
  }

  /** The string to sign does not depend on the order the parameters were inserted in. */
  lemma StringToSignOrderFree(path: string, ps: seq<(string, string)>, qs: seq<(string, string)>)
    requires UniqueKeys(ps) && UniqueKeys(qs) && multiset(ps) == multiset(qs)
    ensures StringToSign(path, ps) == StringToSign(path, qs)
  {
    SortByKeySorted(ps);
    SortByKeySorted(qs);
    SortedUnique(SortByKey(ps), SortByKey(qs));
  }

  /** `f"{v}"` of every parameter value. */
  function Render(pyStr: Value -> string, ps: Assoc): (r: seq<(string, string)>)
    ensures |r| == |ps| && forall i :: 0 <= i < |ps| ==> r[i] == (ps[i].0, pyStr(ps[i].1))
  {
    if ps == [] then [] else [(ps[0].0, pyStr(ps[0].1))] + Render(pyStr, ps[1..])
  }

  /** `if 'timestamp' not in params: params['timestamp'] = str(int(time.time()))`: the caller's
    * dictionary after the call. */
  function WithTimestamp(ps: Assoc, now: int): (r: Assoc)
    ensures AssocGet(ps, "timestamp").Some? ==> r == ps
    ensures AssocGet(ps, "timestamp").None? ==> r == ps + [("timestamp", Str(IntText(now)))]
  {
    if AssocGet(ps, "timestamp").Some? then ps else AssocPut(ps, "timestamp", Str(IntText(now)))
  }

  /** `generate_signature`: the caller's parameters after the call, and the signature of the
    * string to sign. `hmac` stands for the HMAC-SHA256 hex digest. */
  function Signature(hmac: (string, string) -> string, secret: string, pyStr: Value -> string,
                     path: string, ps: Assoc, now: int): (r: (Assoc, string))
    ensures r.0 == WithTimestamp(ps, now)
    ensures r.1 == hmac(secret, StringToSign(path, Render(pyStr, r.0)))
  {
    var stamped := WithTimestamp(ps, now);
    (stamped, hmac(secret, StringToSign(path, Render(pyStr, stamped))))
  }

  // ---------------------------------------------------------------------------------------------
  // Tokens

  /** The authenticator's configuration: the app key and secret, HMAC and Python's `str`. */
  datatype Keys = Keys(appKey: Value, appSecret: string, hmac: (string, string) -> string, pyStr: Value -> string)

  /** The fields the authenticator updates. */
  datatype Tokens = Tokens(accessToken: Value, refreshToken: Value, shopCipher: Value)

  /** The authenticator's fields together with the network. */
  datatype Session = Session(tokens: Tokens, pending: seq<Outcome>, log: seq<Event>)

  function SendOn(s: Session, request: Request): Session
  {
    s.(pending := Rest(s.pending), log := s.log + [Sent(request)])
  }

  /** The parameters with `timestamp` ensured and `sign` set, as sent. */
  function Signed(keys: Keys, path: string, ps: Assoc, now: int): Assoc
  {
    var (stamped, signature) := Signature(keys.hmac, keys.appSecret, keys.pyStr, path, ps, now);
    AssocPut(stamped, "sign", Str(signature))
  }

  /** Signing a dictionary that already has a `timestamp` adds `sign` and leaves every other key `k` as it was. */
  lemma SignedKeeps(keys: Keys, path: string, ps: Assoc, now: int, k: string)
    requires AssocGet(ps, "timestamp").Some?
    ensures AssocGet(Signed(keys, path, ps, now), "sign").Some?
    ensures k != "sign" ==> AssocGet(Signed(keys, path, ps, now), k) == AssocGet(ps, k)
  {
  }

  function RefreshRequest(keys: Keys, tokens: Tokens, now: int): Request
  {
    var ps := [("app_key", keys.appKey), ("timestamp", Str(IntText(now))),
               ("refresh_token", tokens.refreshToken), ("grant_type", Str("refresh_token"))];
    Request("POST", BaseUrl + RefreshPath, Signed(keys, RefreshPath, ps, now), Null)
  }

  /** `refresh_access_token`: whether it returned True, and the new session. `access_token` is
    * assigned before `refresh_token` is read, so a reply that grants only an access token
    * changes it and still returns False. */
  function RefreshSpec(keys: Keys, s: Session, now: int): (r: (bool, Session))
    ensures r.1.pending == Rest(s.pending) && r.1.log == s.log + [Sent(RefreshRequest(keys, s.tokens, now))]
    ensures r.1.tokens.shopCipher == s.tokens.shopCipher
    ensures !r.0 ==> r.1.tokens.refreshToken == s.tokens.refreshToken
  {
    var s1 := SendOn(s, RefreshRequest(keys, s.tokens, now));
    match Next(s.pending)
    case Raised => (false, s1)
    case Response(status, body) =>
      if status != 200 || !body.Obj? || !EqualsZero(Get(body.fields, "code")) then (false, s1)
      else if "data" !in body.fields then (false, s1)
      else
        var data := body.fields["data"];
        if !data.Obj? || "access_token" !in data.fields then (false, s1)
        else
          var s2 := s1.(tokens := s1.tokens.(accessToken := data.fields["access_token"]));
          if "refresh_token" !in data.fields then (false, s2)
          else (true, s2.(tokens := s2.tokens.(refreshToken := data.fields["refresh_token"])))
  }

  /** The reply that refreshes both tokens: 200, `code` 0, and a `data` object holding both. */
  ghost predicate GrantsTokens(o: Outcome, access: Value, refresh: Value)
  {
    && o.Response? && o.status == 200 && o.body.Obj? && EqualsZero(Get(o.body.fields, "code"))
    && "data" in o.body.fields && o.body.fields["data"].Obj?
    && Get(o.body.fields["data"].fields, "access_token") == access && "access_token" in o.body.fields["data"].fields
    && Get(o.body.fields["data"].fields, "refresh_token") == refresh && "refresh_token" in o.body.fields["data"].fields
  }

  /** Refresh succeeds exactly on a reply granting both tokens, and then stores both. */
  lemma RefreshSucceedsIff(keys: Keys, s: Session, now: int)
    ensures var r := RefreshSpec(keys, s, now);
      r.0 <==> exists a, f :: GrantsTokens(Next(s.pending), a, f)
    ensures var r := RefreshSpec(keys, s, now);
      forall a, f :: GrantsTokens(Next(s.pending), a, f) ==>
        r.1.tokens == s.tokens.(accessToken := a, refreshToken := f)
  {
    var o := Next(s.pending);
    if RefreshSpec(keys, s, now).0 {
      var d := o.body.fields["data"].fields;
      assert GrantsTokens(o, d["access_token"], d["refresh_token"]);
    }
  }

  /** A failed refresh leaves both tokens as they were, except after a reply whose `data`
    * object has an `access_token` but no `refresh_token`. */
  lemma RefreshFailureKeepsTokens(keys: Keys, s: Session, now: int)
    ensures var r := RefreshSpec(keys, s, now);
      var o := Next(s.pending);
      !r.0 && r.1.tokens != s.tokens ==>
        && o.Response? && o.status == 200 && o.body.Obj? && "data" in o.body.fields
        && o.body.fields["data"].Obj? && "access_token" in o.body.fields["data"].fields
        && "refresh_token" !in o.body.fields["data"].fields
        && r.1.tokens == s.tokens.(accessToken := o.body.fields["data"].fields["access_token"])
  {
  }

  /** The partial update happens: a 200 reply with code 0 granting only an access token makes
    * the refresh return False with the new access token stored. */
  lemma RefreshPartialUpdate(keys: Keys, s: Session, now: int, token: Value)
    requires s.pending != [] && s.pending[0] == Response(200, Obj(map["code" := Int(0), "data" := Obj(map["access_token" := token])]))
    ensures RefreshSpec(keys, s, now).0 == false
    ensures RefreshSpec(keys, s, now).1.tokens == s.tokens.(accessToken := token)
  {
    var data := Obj(map["access_token" := token]);
    assert "refresh_token" !in data.fields;
  }

  function CipherRequest(keys: Keys, tokens: Tokens, now: int): Request
  {
    var ps := [("app_key", keys.appKey), ("timestamp", Str(IntText(now))),
               ("access_token", tokens.accessToken), ("version", Str("202309"))];
    Request("GET", BaseUrl + ShopsPath, Signed(keys, ShopsPath, ps, now), Null)
  }

  /** The cipher a reply carries: 200, a JSON object with `code` 0 whose `data` object (an absent
    * one reads as `{}`) has a truthy `shops` list whose first entry is an object with `cipher`.
    * That cipher may itself be JSON null. */
  function CipherOf(o: Outcome): Option<Value>
  {
    if !o.Response? || o.status != 200 || !o.body.Obj? then None
    else if !EqualsZero(Get(o.body.fields, "code")) then None
    else
      var data := if "data" in o.body.fields then o.body.fields["data"] else Obj(map[]);
      if !data.Obj? || !Truthy(Get(data.fields, "shops")) then None
      else
        var shops := data.fields["shops"];
        if shops.List? && shops.items[0].Obj? && "cipher" in shops.items[0].fields
        then Some(shops.items[0].fields["cipher"])
        else None
  }

  /** `get_shop_cipher`: the value returned (`Null` for None) and the new session. A reply that
    * carries a cipher stores it, even a null one, which is then returned as None; any other
    * reply returns None and leaves every token as it was. */
  function CipherSpec(keys: Keys, s: Session, now: int): (r: (Value, Session))
    ensures r.1.pending == Rest(s.pending) && r.1.log == s.log + [Sent(CipherRequest(keys, s.tokens, now))]
    ensures CipherOf(Next(s.pending)).None? ==> r.0 == Null && r.1.tokens == s.tokens
    ensures CipherOf(Next(s.pending)).Some? ==>
      r.0 == CipherOf(Next(s.pending)).value && r.1.tokens == s.tokens.(shopCipher := r.0)
  {
    var s1 := SendOn(s, CipherRequest(keys, s.tokens, now));
    match CipherOf(Next(s.pending))
    case None => (Null, s1)
    case Some(c) => (c, s1.(tokens := s1.tokens.(shopCipher := c)))
  }

  /** `ensure_valid_token`: whether it returned True, and the new session. */
  function EnsureSpec(keys: Keys, s: Session, now: int): (r: (bool, Session))
  {
    var (c1, s1) := CipherSpec(keys, s, now);
    if Truthy(c1) then (true, s1)
    else
      var (ok, s2) := RefreshSpec(keys, s1, now);
      if !ok then (false, s2)
      else
        var (c2, s3) := CipherSpec(keys, s2, now);
        (c2 != Null, s3)
  }

  /** A working cipher call settles it: True, no refresh, one request. A failed cipher call is
    * followed by exactly one refresh, and False when that refresh fails; the cipher is asked for
    * again only after a successful refresh, and then any non-null cipher, even an empty string,
    * is enough, while a reply without one or with a null one gives False. */
  lemma EnsureRefreshesAtMostOnce(keys: Keys, s: Session, now: int)
    ensures var (ok, s') := EnsureSpec(keys, s, now);
      var c1 := CipherOf(Next(s.pending));
      && (c1.Some? && Truthy(c1.value) ==> ok && s'.log == s.log + [Sent(CipherRequest(keys, s.tokens, now))])
      && (!(c1.Some? && Truthy(c1.value)) ==>
            var s1 := CipherSpec(keys, s, now).1;
            var (refreshed, s2) := RefreshSpec(keys, s1, now);
            && s'.log[..|s.log| + 2] == s.log + [Sent(CipherRequest(keys, s.tokens, now)), Sent(RefreshRequest(keys, s1.tokens, now))]
            && (!refreshed ==> !ok && s' == s2)
            && (refreshed ==> s'.log == s2.log + [Sent(CipherRequest(keys, s2.tokens, now))]
                              && (ok <==> CipherOf(Next(s2.pending)).Some? && CipherOf(Next(s2.pending)).value != Null)))
  {
    var (c1, s1) := CipherSpec(keys, s, now);
    if !Truthy(c1) {
      var (refreshed, s2) := RefreshSpec(keys, s1, now);
      var sent := [Sent(CipherRequest(keys, s.tokens, now)), Sent(RefreshRequest(keys, s1.tokens, now))];
      assert s2.log == s.log + sent;
      if refreshed {
        var s3 := CipherSpec(keys, s2, now).1;
        assert EnsureSpec(keys, s, now).1 == s3;
        TakeAppend(s2.log, [Sent(CipherRequest(keys, s2.tokens, now))]);
      } else {
        assert EnsureSpec(keys, s, now) == (false, s2);
        TakeAll(s2.log);
      }
    }
  }

  /** The authenticator. Its app key, secret, HMAC and `str` are fixed at construction; the
    * three token fields change. */
  class TikTokAuthenticator {
    const keys: Keys
    const net: Network
    var accessToken: Value
    var refreshToken: Value
    var shopCipher: Value

    constructor (keys: Keys, initial: Tokens, net: Network)
      ensures this.keys == keys && this.net == net
      ensures accessToken == initial.accessToken && refreshToken == initial.refreshToken
      ensures shopCipher == initial.shopCipher
    {
      this.keys := keys;
      this.net := net;
      accessToken := initial.accessToken;
      refreshToken := initial.refreshToken;
      shopCipher := initial.shopCipher;
    }

    function Snapshot(): Session
      reads this, net
    {
      Session(Tokens(accessToken, refreshToken, shopCipher), net.pending, net.log)
    }

    /** `refresh_access_token` */
    method RefreshAccessToken(now: int) returns (ok: bool)
      modifies this, net
      ensures (ok, Snapshot()) == RefreshSpec(keys, old(Snapshot()), now)
    {
      var o := net.Send(RefreshRequest(keys, Tokens(accessToken, refreshToken, shopCipher), now));
      if o.Raised? || o.status != 200 || !o.body.Obj? || !EqualsZero(Get(o.body.fields, "code")) {
        return false;
      }
      if "data" !in o.body.fields {
        return false;
      }
      var data := o.body.fields["data"];
      if !data.Obj? || "access_token" !in data.fields {
        return false;
      }
      accessToken := data.fields["access_token"];
      if "refresh_token" !in data.fields {
        return false;
      }
      refreshToken := data.fields["refresh_token"];
      return true;
    }

    /** `get_shop_cipher` */
    method GetShopCipher(now: int) returns (cipher: Value)
      modifies this, net
      ensures (cipher, Snapshot()) == CipherSpec(keys, old(Snapshot()), now)
    {
      var o := net.Send(CipherRequest(keys, Tokens(accessToken, refreshToken, shopCipher), now));
      var carried := CipherOf(o);
      cipher := Null;
      if carried.Some? {
        shopCipher := carried.value;
        cipher := carried.value;
      }
    }

    /** `ensure_valid_token` */
    method EnsureValidToken(now: int) returns (ok: bool)
      modifies this, net
      ensures (ok, Snapshot()) == EnsureSpec(keys, old(Snapshot()), now)
    {
      var c1 := GetShopCipher(now);
      if Truthy(c1) {
        return true;
      }
      var refreshed := RefreshAccessToken(now);
      if refreshed {
        var c2 := GetShopCipher(now);
        return c2 != Null;
      }
      return false;
    }
  }
}
