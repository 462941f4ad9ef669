/** The strings that credentials are hashed from. SHA-256 is taken to be injective on them, so a
    digest is modelled by the string itself. */
module CredentialKeys {
  import opened Text

  const NUL := '\0'

  /** cacheCredentialHash: the user name, a NUL, the password. */
  function CredentialHash(upn: string, password: string): (h: string) {
    upn + [NUL] + password
  }

  /** Two pairs share a hash exactly when they are the same pair, or when a stretch of text between
      two NULs is read as part of the user name in one and of the password in the other. */
  lemma HashesCollideIff(u: string, p: string, v: string, q: string)
    ensures CredentialHash(u, p) == CredentialHash(v, q) <==>
            || (u == v && p == q)
            || (exists x :: Shifted(u, p, v, q, x))
            || (exists x :: Shifted(v, q, u, p, x))
  {
    if CredentialHash(u, p) == CredentialHash(v, q) {
      if |u| < |v| {
        ShiftFound(u, p, v, q);
      } else if |v| < |u| {
        ShiftFound(v, q, u, p);
      } else {
        SameHash(u, p, v, q);
      }
    } else {
      forall x ensures !Shifted(u, p, v, q, x) && !Shifted(v, q, u, p, x) {
        ShiftCollides(u, p, v, q, x);
        ShiftCollides(v, q, u, p, x);
      }
    }
  }

  /** The longer user name is the shorter one, a NUL and `x`; the password gives `x` and a NUL up. */
  predicate Shifted(u: string, p: string, v: string, q: string, x: string) {
    v == u + [NUL] + x && p == x + [NUL] + q
  }

  lemma SameHash(u: string, p: string, v: string, q: string)
    requires CredentialHash(u, p) == CredentialHash(v, q) && |u| == |v|
    ensures u == v && p == q
  {
    var h := CredentialHash(u, p);
    assert u == h[..|u|] && v == h[..|v|] && p == h[|u| + 1..] && q == h[|v| + 1..];
  }

  lemma ShiftFound(u: string, p: string, v: string, q: string)
    requires CredentialHash(u, p) == CredentialHash(v, q) && |u| < |v|
    ensures Shifted(u, p, v, q, v[|u| + 1..])
  {
    var h := CredentialHash(u, p);
    assert v == h[..|v|] && p == h[|u| + 1..] && q == h[|v| + 1..];
    assert h[..|u|] == u && h[|u|] == NUL && h[|v|] == NUL;
    assert v == u + [NUL] + v[|u| + 1..];
    assert p == h[|u| + 1..|v|] + [NUL] + h[|v| + 1..];
  }

  lemma ShiftCollides(u: string, p: string, v: string, q: string, x: string)
    ensures Shifted(u, p, v, q, x) ==> CredentialHash(u, p) == CredentialHash(v, q)
  {
    if Shifted(u, p, v, q, x) {
      assert u + [NUL] + (x + [NUL] + q) == (u + [NUL] + x) + [NUL] + q;
    }
  }

  /** User names without NUL never share a hash. */
  lemma PlainNamesDoNotCollide(u: string, p: string, v: string, q: string)
    requires NUL !in u && NUL !in v
    ensures CredentialHash(u, p) == CredentialHash(v, q) ==> u == v && p == q
  {
    HashesCollideIff(u, p, v, q);
    forall x ensures !Shifted(u, p, v, q, x) && !Shifted(v, q, u, p, x) {
      ShiftHasNul(u, p, v, q, x);
      ShiftHasNul(v, q, u, p, x);
    }
  }

  lemma ShiftHasNul(u: string, p: string, v: string, q: string, x: string)
    ensures Shifted(u, p, v, q, x) ==> NUL in v
  {
    assert (u + [NUL] + x)[|u|] == NUL;
  }

  // --------------------------------------------------------- limiter keys: length-prefixed

  const WIDTH := 8

  function Power256(k: nat): (n: nat)
    ensures n > 0
  {
    if k == 0 then 1 else 256 * Power256(k - 1)
  }

  /** The big-endian bytes of `n`. */
  function Digits(n: nat, k: nat): (s: string)
    ensures |s| == k
  {
    if k == 0 then "" else Digits(n / 256, k - 1) + [(n % 256) as char]
  }

  lemma {:induction false} DigitsInjective(n: nat, m: nat, k: nat)
    requires n < Power256(k) && m < Power256(k) && Digits(n, k) == Digits(m, k)
    ensures n == m
  {
    if k > 0 {
      var s, t := Digits(n, k), Digits(m, k);
      assert s[..k - 1] == Digits(n / 256, k - 1) && t[..k - 1] == Digits(m / 256, k - 1);
      assert s[k - 1] == (n % 256) as char && t[k - 1] == (m % 256) as char;
      DigitsInjective(n / 256, m / 256, k - 1);
    }
  }

  /** What limiterDigest feeds its hash: every part after its length. */
  function DigestInput(parts: seq<string>): (s: string) {
    if parts == [] then "" else Digits(|parts[0]|, WIDTH) + parts[0] + DigestInput(parts[1..])
  }

  /** Lists of parts, of any lengths and any content, share a digest only if they are equal. */
  lemma {:induction false} DigestInputInjective(a: seq<string>, b: seq<string>)
    requires forall i :: 0 <= i < |a| ==> |a[i]| < Power256(WIDTH)
    requires forall i :: 0 <= i < |b| ==> |b[i]| < Power256(WIDTH)
    requires DigestInput(a) == DigestInput(b)
    ensures a == b
  {
    if a == [] || b == [] {
      assert |DigestInput(a)| == |DigestInput(b)|;
    } else {
      var s, t := DigestInput(a), DigestInput(b);
      hide Digits;
      var n, m := |a[0]|, |b[0]|;
      assert s[..WIDTH] == Digits(n, WIDTH) && t[..WIDTH] == Digits(m, WIDTH);
      DigitsInjective(n, m, WIDTH);
      assert s[WIDTH..WIDTH + n] == a[0] && t[WIDTH..WIDTH + m] == b[0];
      assert s[WIDTH + n..] == DigestInput(a[1..]) && t[WIDTH + m..] == DigestInput(b[1..]);
      DigestInputInjective(a[1..], b[1..]);
      assert a == [a[0]] + a[1..] && b == [b[0]] + b[1..];
    }
  }

  datatype AttemptKeys = AttemptKeys(client: string, principal: string, credential: string)

  /** NewAttempt. */
  function NewAttempt(clientIp: string, principal: string, password: string): (a: AttemptKeys) {
    var name := ToLower(TrimSpace(principal));
    AttemptKeys(DigestInput(["client", TrimSpace(clientIp)]), DigestInput(["principal", name]),
                DigestInput(["credential", name, password]))
  }

  /** Attempts share a bucket exactly when they agree up to case and outer space of the name and
      outer space of the address; the password counts as it is. */
  lemma AttemptsShareKeysIff(ip: string, name: string, pass: string, ip': string, name': string, pass': string)
    requires |ip| < Power256(WIDTH) && |ip'| < Power256(WIDTH) && |name| < Power256(WIDTH) && |name'| < Power256(WIDTH)
    requires |pass| < Power256(WIDTH) && |pass'| < Power256(WIDTH)
    ensures var a, b := NewAttempt(ip, name, pass), NewAttempt(ip', name', pass');
            && (a.client == b.client <==> TrimSpace(ip) == TrimSpace(ip'))
            && (a.principal == b.principal <==> ToLower(TrimSpace(name)) == ToLower(TrimSpace(name')))
            && (a.credential == b.credential <==>
                  ToLower(TrimSpace(name)) == ToLower(TrimSpace(name')) && pass == pass')
  {
    hide TrimSpace, ToLower, DigestInput;
    var n, n' := ToLower(TrimSpace(name)), ToLower(TrimSpace(name'));
    Roomy();
    Decide(["client", TrimSpace(ip)], ["client", TrimSpace(ip')]);
    Decide(["principal", n], ["principal", n']);
    Decide(["credential", n, pass], ["credential", n', pass']);
    assert ["client", TrimSpace(ip)][1] == TrimSpace(ip) && ["client", TrimSpace(ip')][1] == TrimSpace(ip');
    assert ["principal", n][1] == n && ["principal", n'][1] == n';
    assert ["credential", n, pass][1..] == [n, pass] && ["credential", n', pass'][1..] == [n', pass'];
    assert [n, pass][0] == n && [n, pass][1] == pass && [n', pass'][0] == n' && [n', pass'][1] == pass';
  }

  lemma Roomy()
    ensures Power256(WIDTH) > 100
  {
    assert Power256(1) == 256;
    assert Power256(2) == 65536 && Power256(4) > 100 && Power256(6) > 100;
  }

  lemma Decide(a: seq<string>, b: seq<string>)
    requires forall i :: 0 <= i < |a| ==> |a[i]| < Power256(WIDTH)
    requires forall i :: 0 <= i < |b| ==> |b[i]| < Power256(WIDTH)
    ensures DigestInput(a) == DigestInput(b) <==> a == b
  {
    if DigestInput(a) == DigestInput(b) { DigestInputInjective(a, b); }
  }
}
