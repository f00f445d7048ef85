/** The string form of the balance cache key, internal/billing/provider_balance.go. */
module CacheKey {
  import opened Text
  import opened BalanceSnapshot

  const NUL: char := 0 as char

  /** SHA-256 digests are 32 bytes. */
  const DIGEST := 32

  predicate Clean(s: string) { NUL !in s }

  function FormatInt(n: int): string { if n < 0 then ['-'] + Decimal(-n) else Decimal(n) }

  /** Key.secret is the digest of the normalised credential. */
  function Encode(k: Key): string {
    k.provider + [NUL] + (FormatInt(k.accountId) + [NUL] + (k.baseUrl + [NUL] + (k.identity + [NUL] + k.secret)))
  }

  /** The first separator is where the first clean field ends. */
  lemma CleanHead(a: string, x: string, b: string, y: string)
    requires Clean(a) && Clean(b) && a + [NUL] + x == b + [NUL] + y
    ensures a == b && x == y
  {
    var s := a + [NUL] + x;
    assert forall i :: 0 <= i < |a| ==> s[i] == a[i] && a[i] in a;
    assert forall i :: 0 <= i < |b| ==> s[i] == b[i] && b[i] in b;
    assert s[|a|] == NUL && s[|b|] == NUL;
    assert a == s[..|a|] && b == s[..|b|];
    assert x == s[|a| + 1..] && y == s[|b| + 1..];
  }

  lemma FormatIntInjective(m: int, n: int)
    requires FormatInt(m) == FormatInt(n)
    ensures m == n
  {
    DecimalRoundTrip(if m < 0 then -m else m);
    DecimalRoundTrip(if n < 0 then -n else n);
    assert FormatInt(m)[0] == '-' <==> m < 0;
    assert FormatInt(n)[0] == '-' <==> n < 0;
    assert m < 0 ==> FormatInt(m)[1..] == Decimal(-m);
    assert n < 0 ==> FormatInt(n)[1..] == Decimal(-n);
  }

  lemma FormatIntClean(n: int)
    ensures Clean(FormatInt(n))
  {
  }

  lemma PrefixInjective(j: Key, k: Key)
    requires Clean(j.provider) && Clean(k.provider) && Encode(j) == Encode(k)
    ensures j.provider == k.provider && j.accountId == k.accountId
    ensures j.baseUrl + [NUL] + (j.identity + [NUL] + j.secret) == k.baseUrl + [NUL] + (k.identity + [NUL] + k.secret)
  {
    FormatIntClean(j.accountId);
    FormatIntClean(k.accountId);
    var x := j.baseUrl + [NUL] + (j.identity + [NUL] + j.secret);
    var y := k.baseUrl + [NUL] + (k.identity + [NUL] + k.secret);
    CleanHead(j.provider, FormatInt(j.accountId) + [NUL] + x, k.provider, FormatInt(k.accountId) + [NUL] + y);
    CleanHead(FormatInt(j.accountId), x, FormatInt(k.accountId), y);
    FormatIntInjective(j.accountId, k.accountId);
  }

  /** Two requests share an entry exactly when provider, account, URL, adapter identity and digest agree. */
  lemma KeysInjective(j: Key, k: Key)
    requires Clean(j.provider) && Clean(j.baseUrl) && |j.secret| == DIGEST
    requires Clean(k.provider) && Clean(k.baseUrl) && |k.secret| == DIGEST
    ensures Encode(j) == Encode(k) <==> j == k
  {
    if Encode(j) == Encode(k) {
      PrefixInjective(j, k);
      CleanHead(j.baseUrl, j.identity + [NUL] + j.secret, k.baseUrl, k.identity + [NUL] + k.secret);
      FixedTail(j.identity, j.secret, k.identity, k.secret);
    }
  }

  /** The identity may hold separators of its own, so it is delimited from the right. */
  lemma FixedTail(a: string, x: string, b: string, y: string)
    requires |x| == |y| && a + [NUL] + x == b + [NUL] + y
    ensures a == b && x == y
  {
    var s := a + [NUL] + x;
    assert a == s[..|a|] && b == s[..|b|];
    assert x == s[|a| + 1..] && y == s[|b| + 1..];
  }

  /** The clean URL is needed: a key also belongs to some other, clean-URL request iff its URL holds a NUL. */
  lemma SharedIffDirtyUrl(k: Key)
    requires Clean(k.provider) && |k.secret| == DIGEST
    ensures !Clean(k.baseUrl) <==>
      exists j: Key :: j != k && Clean(j.provider) && Clean(j.baseUrl) && |j.secret| == DIGEST && Encode(j) == Encode(k)
  {
    if Clean(k.baseUrl) {
      forall j: Key | Clean(j.provider) && Clean(j.baseUrl) && |j.secret| == DIGEST && Encode(j) == Encode(k)
        ensures j == k
      {
        KeysInjective(j, k);
      }
    } else {
      var i := FirstNul(k.baseUrl);
      var j := k.(baseUrl := k.baseUrl[..i], identity := k.baseUrl[i + 1..] + [NUL] + k.identity);
      assert j.baseUrl + [NUL] + (j.identity + [NUL] + j.secret) == k.baseUrl + [NUL] + (k.identity + [NUL] + k.secret);
      assert |j.baseUrl| != |k.baseUrl|;
    }
  }

  function FirstNul(s: string): (i: nat)
    requires !Clean(s)
    ensures i < |s| && s[i] == NUL && Clean(s[..i])
  {
    if s[0] == NUL then 0
    else
      assert s == [s[0]] + s[1..];
      var i := 1 + FirstNul(s[1..]);
      assert s[..i] == [s[0]] + s[1..][..i - 1];
      i
  }

  /** The fields of an HTTPJSONAdapter that its identity joins, already trimmed and upper-cased. */
  datatype HttpAdapter = HttpAdapter(endpoint: string, verb: string, auth: string, balancePath: string,
                                     currencyPath: string) {
    predicate IsClean() { Clean(endpoint) && Clean(verb) && Clean(auth) && Clean(balancePath) && Clean(currencyPath) }

    function CacheIdentity(): string {
      endpoint + [NUL] + (verb + [NUL] + (auth + [NUL] + (balancePath + [NUL] + currencyPath)))
    }
  }

  /** Differently configured adapters never share an entry. */
  lemma IdentityInjective(a: HttpAdapter, b: HttpAdapter)
    requires a.IsClean() && b.IsClean()
    ensures a.CacheIdentity() == b.CacheIdentity() <==> a == b
  {
    if a.CacheIdentity() == b.CacheIdentity() {
      CleanHead(a.endpoint, a.verb + [NUL] + (a.auth + [NUL] + (a.balancePath + [NUL] + a.currencyPath)),
                b.endpoint, b.verb + [NUL] + (b.auth + [NUL] + (b.balancePath + [NUL] + b.currencyPath)));
      CleanHead(a.verb, a.auth + [NUL] + (a.balancePath + [NUL] + a.currencyPath),
                b.verb, b.auth + [NUL] + (b.balancePath + [NUL] + b.currencyPath));
      CleanHead(a.auth, a.balancePath + [NUL] + a.currencyPath, b.auth, b.balancePath + [NUL] + b.currencyPath);
      CleanHead(a.balancePath, a.currencyPath, b.balancePath, b.currencyPath);
    }
  }

  function Nuls(s: string): nat { if s == "" then 0 else (if s[0] == NUL then 1 else 0) + Nuls(s[1..]) }

  lemma {:induction false} NulsConcat(a: string, b: string)
    ensures Nuls(a + b) == Nuls(a) + Nuls(b)
  {
    if a == "" {
      assert a + b == b;
    } else {
      NulsConcat(a[1..], b);
      assert (a + b)[1..] == a[1..] + b;
    }
  }

  lemma {:induction false} NulsZero(s: string)
    ensures Nuls(s) == 0 <==> Clean(s)
  {
    if s != "" {
      NulsZero(s[1..]);
      assert s == [s[0]] + s[1..];
    }
  }

  lemma NulsAround(a: string, b: string)
    ensures Nuls(a + [NUL] + b) == Nuls(a) + 1 + Nuls(b)
  {
    NulsConcat(a + [NUL], b);
    NulsConcat(a, [NUL]);
  }

  /** An identity holds four separators and whatever NULs its fields hold. */
  lemma IdentityNuls(a: HttpAdapter)
    ensures Nuls(a.CacheIdentity())
         == 4 + Nuls(a.endpoint) + Nuls(a.verb) + Nuls(a.auth) + Nuls(a.balancePath) + Nuls(a.currencyPath)
  {
    NulsAround(a.balancePath, a.currencyPath);
    NulsAround(a.auth, a.balancePath + [NUL] + a.currencyPath);
    NulsAround(a.verb, a.auth + [NUL] + (a.balancePath + [NUL] + a.currencyPath));
    NulsAround(a.endpoint, a.verb + [NUL] + (a.auth + [NUL] + (a.balancePath + [NUL] + a.currencyPath)));
  }

  lemma IsCleanIff(a: HttpAdapter)
    ensures a.IsClean() <==> Nuls(a.CacheIdentity()) == 4
  {
    IdentityNuls(a);
    NulsZero(a.endpoint);
    NulsZero(a.verb);
    NulsZero(a.auth);
    NulsZero(a.balancePath);
    NulsZero(a.currencyPath);
  }

  /** Two neighbouring fields one of which holds a NUL can be cut elsewhere without changing the joined text. */
  lemma Recut(a: string, b: string) returns (x: string, y: string)
    requires !Clean(a) || !Clean(b)
    ensures x + [NUL] + y == a + [NUL] + b && |x| != |a|
  {
    if !Clean(a) {
      var i := FirstNul(a);
      x, y := a[..i], a[i + 1..] + [NUL] + b;
    } else {
      var i := FirstNul(b);
      x, y := a + [NUL] + b[..i], b[i + 1..];
    }
  }

  lemma OtherAdapter(a: HttpAdapter) returns (b: HttpAdapter)
    requires !a.IsClean()
    ensures b != a && b.CacheIdentity() == a.CacheIdentity()
  {
    if !Clean(a.endpoint) || !Clean(a.verb) {
      var x, y := Recut(a.endpoint, a.verb);
      b := a.(endpoint := x, verb := y);
      var rest := a.auth + [NUL] + (a.balancePath + [NUL] + a.currencyPath);
      assert b.CacheIdentity() == x + [NUL] + y + [NUL] + rest
             && a.CacheIdentity() == a.endpoint + [NUL] + a.verb + [NUL] + rest;
    } else if !Clean(a.auth) {
      var x, y := Recut(a.verb, a.auth);
      b := a.(verb := x, auth := y);
      var rest := a.balancePath + [NUL] + a.currencyPath;
      assert x + [NUL] + (y + [NUL] + rest) == x + [NUL] + y + [NUL] + rest;
      assert a.verb + [NUL] + (a.auth + [NUL] + rest) == a.verb + [NUL] + a.auth + [NUL] + rest;
    } else {
      var x, y := Recut(a.balancePath, a.currencyPath);
      b := a.(balancePath := x, currencyPath := y);
    }
  }

  /** No other adapter, well formed or not, shares an adapter's identity if and only if its fields hold no NUL. */
  lemma IdentityUniqueIff(a: HttpAdapter)
    ensures a.IsClean() <==> forall b: HttpAdapter :: b.CacheIdentity() == a.CacheIdentity() ==> b == a
  {
    if a.IsClean() {
      forall b: HttpAdapter | b.CacheIdentity() == a.CacheIdentity() ensures b == a {
        IsCleanIff(a);
        IsCleanIff(b);
        IdentityInjective(a, b);
      }
    } else {
      var b := OtherAdapter(a);
    }
  }
}
