/**
 Job tokens. HMAC (section 2 of RFC 2104) is a parameter, a function from key and message to bytes; only the
 last section assumes anything about it. Clock readings are nanoseconds.
 */
module JobToken {
  import opened Wrappers
  import opened Decimal

  type Byte = b: nat | b < 256
  type Key = seq<Byte>
  type Mac = (Key, string) -> seq<Byte>

  datatype Verdict = Accepted | Invalid | Expired

  // -- Signing --

  function HexDigit(d: nat): char
    requires d < 16
  {
    if d < 10 then '0' + d as char else 'a' + (d - 10) as char
  }

  function Hex(bytes: seq<Byte>): string {
    if bytes == [] then "" else [HexDigit(bytes[0] / 16), HexDigit(bytes[0] % 16)] + Hex(bytes[1..])
  }

  function Payload(jobID: string, expiry: int): string {
    jobID + ":" + Format(expiry)
  }

  function Sign(mac: Mac, key: Key, jobID: string, expiry: int): string {
    Hex(mac(key, Payload(jobID, expiry))) + ":" + Format(expiry)
  }

  // -- Validation --

  /** The part of the string after its first colon. */
  function AfterColon(s: string): Option<string> {
    if s == [] then None else if s[0] == ':' then Some(s[1..]) else AfterColon(s[1..])
  }

  const SECOND: int := 1_000_000_000

  /** Unix seconds. */
  function Unix(now: int): int {
    now / SECOND
  }

  function ValidateWith(mac: Mac, key: Key, jobID: string, token: string, now: int): Verdict {
    match AfterColon(token)
    case None => Invalid
    case Some(expiryStr) =>
      match ParseInt64(expiryStr)
      case None => Invalid
      case Some(expiry) =>
        if token != Sign(mac, key, jobID, expiry) then Invalid
        else if Unix(now) > expiry then Expired
        else Accepted
  }

  datatype Signer = Signer(key: Key, prevKey: Option<Key>, ttl: int) {
    function WithPreviousKey(prev: Key): Signer {
      Signer(key, Some(prev), ttl)
    }

    function SignAt(mac: Mac, jobID: string, now: int): string {
      Sign(mac, key, jobID, Unix(now + ttl))
    }

    function Validate(mac: Mac, jobID: string, token: string, now: int): Verdict {
      var first := ValidateWith(mac, key, jobID, token, now);
      if prevKey.Some? && first == Invalid then ValidateWith(mac, prevKey.value, jobID, token, now) else first
    }

    predicate Trusts(k: Key) {
      k == key || prevKey == Some(k)
    }
  }

  // -- The format --

  lemma {:induction false} HexHasNoColon(bytes: seq<Byte>)
    ensures ':' !in Hex(bytes)
  {
    if bytes != [] {
      HexHasNoColon(bytes[1..]);
    }
  }

  /** How bytes are spelled: two lower-case hexadecimal digits each, in order. */
  lemma HexSpelled(b: Byte, rest: seq<Byte>)
    ensures Hex([]) == ""
    ensures Hex([b] + rest) == ["0123456789abcdef"[b / 16]] + ["0123456789abcdef"[b % 16]] + Hex(rest)
  {
    assert ([b] + rest)[1..] == rest;
    forall d: nat | d < 16 ensures HexDigit(d) == "0123456789abcdef"[d] {
    }
  }

  lemma HexDigitInjective(a: nat, b: nat)
    requires a < 16 && b < 16 && HexDigit(a) == HexDigit(b)
    ensures a == b
  {
  }

  lemma {:induction false} HexInjective(a: seq<Byte>, b: seq<Byte>)
    requires Hex(a) == Hex(b)
    ensures a == b
  {
    if a != [] && b != [] {
      var h := Hex(a);
      assert h[0] == HexDigit(a[0] / 16) == HexDigit(b[0] / 16);
      assert h[1] == HexDigit(a[0] % 16) == HexDigit(b[0] % 16);
      HexDigitInjective(a[0] / 16, b[0] / 16);
      HexDigitInjective(a[0] % 16, b[0] % 16);
      assert h[2..] == Hex(a[1..]) == Hex(b[1..]);
      HexInjective(a[1..], b[1..]);
      assert a[0] == b[0];
    }
  }

  lemma {:induction false} AfterFirstColon(head: string, tail: string)
    requires ':' !in head
    ensures AfterColon(head + ":" + tail) == Some(tail)
  {
    var s := head + ":" + tail;
    if head == [] {
      assert s[1..] == tail;
    } else {
      assert s[1..] == head[1..] + ":" + tail;
      AfterFirstColon(head[1..], tail);
    }
  }

  /** Two strings split at their last colon are equal only part by part. */
  lemma LastColonSplits(a: string, b: string, a': string, b': string)
    requires ':' !in b && ':' !in b' && a + ":" + b == a' + ":" + b'
    ensures a == a' && b == b'
  {
    var s, s' := a + ":" + b, a' + ":" + b';
    assert s[|a|] == ':' && s'[|a'|] == ':';
    assert |a| == |a'|;
    assert a == s[..|a|] && a' == s'[..|a'|];
    assert b == s[|a| + 1..] && b' == s'[|a'| + 1..];
  }

  lemma FormatHasNoColon(n: int)
    ensures ':' !in Format(n)
  {
    if ':' in Format(n) {
      FormatHas(n, ':');
    }
  }

  /** Distinct pairs of job id and expiry are signed as distinct payloads, whatever the job id contains. */
  lemma PayloadInjective(jobID: string, expiry: int, jobID': string, expiry': int)
    requires Payload(jobID, expiry) == Payload(jobID', expiry')
    ensures jobID == jobID' && expiry == expiry'
  {
    FormatHasNoColon(expiry);
    FormatHasNoColon(expiry');
    LastColonSplits(jobID, Format(expiry), jobID', Format(expiry'));
    FormatInjective(expiry, expiry');
  }

  /** A token determines its expiry and its signature. */
  lemma TokenDetermines(mac: Mac, k: Key, jobID: string, expiry: int, k': Key, jobID': string, expiry': int)
    requires Sign(mac, k, jobID, expiry) == Sign(mac, k', jobID', expiry')
    ensures expiry == expiry' && mac(k, Payload(jobID, expiry)) == mac(k', Payload(jobID', expiry'))
  {
    FormatHasNoColon(expiry);
    FormatHasNoColon(expiry');
    var m, m' := mac(k, Payload(jobID, expiry)), mac(k', Payload(jobID', expiry'));
    LastColonSplits(Hex(m), Format(expiry), Hex(m'), Format(expiry'));
    FormatInjective(expiry, expiry');
    HexInjective(m, m');
  }

  // -- What validation accepts --

  lemma ValidateSigned(mac: Mac, key: Key, k: Key, jobID: string, expiry: int, now: int)
    requires IsInt64(expiry)
    ensures ValidateWith(mac, key, jobID, Sign(mac, k, jobID, expiry), now)
            == if Sign(mac, k, jobID, expiry) != Sign(mac, key, jobID, expiry) then Invalid
               else if Unix(now) > expiry then Expired else Accepted
  {
    var sig := Hex(mac(k, Payload(jobID, expiry)));
    HexHasNoColon(mac(k, Payload(jobID, expiry)));
    AfterFirstColon(sig, Format(expiry));
    ParseFormat(expiry);
  }

  ghost predicate IsToken(mac: Mac, signer: Signer, jobID: string, token: string, k: Key, expiry: int) {
    signer.Trusts(k) && IsInt64(expiry) && token == Sign(mac, k, jobID, expiry)
  }

  /** Validate answers Invalid exactly for strings that no trusted key signed for this job. */
  lemma InvalidExactlyWhen(mac: Mac, signer: Signer, jobID: string, token: string, now: int)
    ensures signer.Validate(mac, jobID, token, now) == Invalid
            <==> !exists k, expiry :: IsToken(mac, signer, jobID, token, k, expiry)
  {
    if k, expiry :| IsToken(mac, signer, jobID, token, k, expiry) {
      ValidateSigned(mac, signer.key, k, jobID, expiry, now);
      if signer.prevKey.Some? {
        ValidateSigned(mac, signer.prevKey.value, k, jobID, expiry, now);
      }
    }
    if signer.Validate(mac, jobID, token, now) != Invalid {
      var k := if ValidateWith(mac, signer.key, jobID, token, now) != Invalid then signer.key
               else signer.prevKey.value;
      assert IsToken(mac, signer, jobID, token, k, ParseInt64(AfterColon(token).value).value);
    }
  }

  /**
   Validate accepts exactly the tokens that the current or the previous key signed for this job with an
   expiry that has not passed, and reports as expired exactly those whose expiry has passed.
   */
  lemma AcceptedExactlyWhen(mac: Mac, signer: Signer, jobID: string, token: string, now: int)
    ensures signer.Validate(mac, jobID, token, now) == Accepted
            <==> exists k, expiry :: IsToken(mac, signer, jobID, token, k, expiry) && now / 1_000_000_000 <= expiry
    ensures signer.Validate(mac, jobID, token, now) == Expired
            <==> exists k, expiry :: IsToken(mac, signer, jobID, token, k, expiry) && now / 1_000_000_000 > expiry
  {
    InvalidExactlyWhen(mac, signer, jobID, token, now);
    forall k, expiry | IsToken(mac, signer, jobID, token, k, expiry)
      ensures signer.Validate(mac, jobID, token, now) == if Unix(now) > expiry then Expired else Accepted
    {
      ValidateSigned(mac, signer.key, k, jobID, expiry, now);
      if signer.prevKey.Some? {
        ValidateSigned(mac, signer.prevKey.value, k, jobID, expiry, now);
      }
    }
  }

  /** A token is good until its last second, under its own signer and under one that has rotated to a new key. */
  lemma GoodUntilExpiry(mac: Mac, signer: Signer, newKey: Key, jobID: string, issued: int, now: int)
    requires IsInt64(Unix(issued + signer.ttl))
    ensures var token := signer.SignAt(mac, jobID, issued);
            var rotated := Signer(newKey, None, signer.ttl).WithPreviousKey(signer.key);
            var expected := if now / 1_000_000_000 <= (issued + signer.ttl) / 1_000_000_000 then Accepted else Expired;
            signer.Validate(mac, jobID, token, now) == expected && rotated.Validate(mac, jobID, token, now) == expected
  {
    var expiry := Unix(issued + signer.ttl);
    ValidateSigned(mac, signer.key, signer.key, jobID, expiry, now);
    ValidateSigned(mac, newKey, signer.key, jobID, expiry, now);
  }

  /** A token accepted for two jobs is a collision of the MAC on two different messages. */
  lemma TwoJobsMeanCollision(mac: Mac, signer: Signer, jobID: string, jobID': string, token: string, now: int)
    requires jobID != jobID'
    requires signer.Validate(mac, jobID, token, now) == Accepted
    requires signer.Validate(mac, jobID', token, now) == Accepted
    ensures exists k, k', m, m' :: signer.Trusts(k) && signer.Trusts(k') && m != m' && mac(k, m) == mac(k', m')
  {
    AcceptedExactlyWhen(mac, signer, jobID, token, now);
    AcceptedExactlyWhen(mac, signer, jobID', token, now);
    var k, e :| IsToken(mac, signer, jobID, token, k, e);
    var k', e' :| IsToken(mac, signer, jobID', token, k', e');
    TokenDetermines(mac, k, jobID, e, k', jobID', e');
    if Payload(jobID, e) == Payload(jobID', e') {
      PayloadInjective(jobID, e, jobID', e');
    }
  }
}
