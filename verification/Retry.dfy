/**
 How one HTTP request is repeated (`withRetry` in cli/src/client.ts): which answers lead to another attempt, how
 long the client waits, and which cookie it keeps. The network is a script of what each attempt would meet.
 */
module Retry {
  import opened Prelude

  /** What an attempt meets: no answer at all, or a status with its cookies and requested delay in milliseconds. */
  datatype Outcome = NoAnswer | Answer(status: int, cookies: seq<string>, retryAfter: int)

  predicate Again(o: Outcome, safe: bool) {
    match o
    case NoAnswer => safe
    case Answer(status, _, _) => status == 429 || (safe && status >= 500)
  }

  /** Only an answer of 429 tells that the request changed nothing. */
  predicate CanTakeEffect(o: Outcome) {
    o.NoAnswer? || o.status != 429
  }

  function Effects(met: seq<Outcome>): nat {
    if met == [] then 0 else (if CanTakeEffect(met[0]) then 1 else 0) + Effects(met[1..])
  }

  /** The attempts that a request makes: up to the first that is not repeated, and at most one more than `retries`. */
  ghost predicate Attempts(script: seq<Outcome>, safe: bool, retries: nat, n: nat) {
    && 1 <= n <= retries + 1 && n <= |script|
    && (forall k :: 0 <= k < n - 1 ==> Again(script[k], safe))
    && (n == retries + 1 || !Again(script[n - 1], safe))
  }

  lemma AttemptsAreDetermined(script: seq<Outcome>, safe: bool, retries: nat, m: nat, n: nat)
    requires Attempts(script, safe, retries, m) && Attempts(script, safe, retries, n)
    ensures m == n
  {
  }

  lemma {:induction false} OnlyTooManyRequests(met: seq<Outcome>)
    requires forall k :: 0 <= k < |met| - 1 ==> !CanTakeEffect(met[k])
    ensures Effects(met) <= 1
    ensures met != [] && !CanTakeEffect(met[|met| - 1]) ==> Effects(met) == 0
  {
    if |met| > 0 {
      assert |met| > 1 ==> !CanTakeEffect(met[0]) && met[1..][|met| - 2] == met[|met| - 1];
      OnlyTooManyRequests(met[1..]);
    }
  }

  /** A method that is not safe is sent at most once in a way that can take effect, however the network behaves. */
  lemma UnsafeTakesEffectAtMostOnce(script: seq<Outcome>, retries: nat, n: nat)
    requires Attempts(script, false, retries, n)
    ensures Effects(script[..n]) <= 1
    ensures Effects(script[..n]) == 1 <==> CanTakeEffect(script[n - 1])
  {
    var met := script[..n];
    OnlyTooManyRequests(met);
    if CanTakeEffect(met[n - 1]) {
      EffectsCountsLast(met);
    }
  }

  lemma {:induction false} EffectsCountsLast(met: seq<Outcome>)
    requires met != [] && CanTakeEffect(met[|met| - 1])
    ensures Effects(met) >= 1
  {
    if |met| > 1 {
      assert met[1..][|met| - 2] == met[|met| - 1];
      EffectsCountsLast(met[1..]);
    }
  }

  // ----- the browser identity -----

  function NameAndValue(cookie: string): (pair: string)
    ensures ';' !in pair && pair <= cookie
    ensures pair == cookie || cookie[|pair|] == ';'
  {
    if cookie == "" || cookie[0] == ';' then "" else [cookie[0]] + NameAndValue(cookie[1..])
  }

  predicate IsIdentity(pair: string) {
    "ah_anon=" <= pair || "__Host-ah_anon=" <= pair
  }

  /** The newest identity among the cookies of the answers met so far. */
  function Newest(cookies: seq<string>, before: Option<string>): Option<string> {
    if cookies == [] then before
    else
      var last := NameAndValue(cookies[|cookies| - 1]);
      if IsIdentity(last) then Some(last) else Newest(cookies[..|cookies| - 1], before)
  }

  /** The identity that a client holds after the answers it met. */
  function Identity(met: seq<Outcome>, before: Option<string>): Option<string> {
    if met == [] then before
    else
      var last, earlier := met[|met| - 1], Identity(met[..|met| - 1], before);
      if last.Answer? then Newest(last.cookies, earlier) else earlier
  }

  /** An identity that was once received is never forgotten, only replaced by one from a later answer. */
  lemma {:induction false} IdentityIsKept(met: seq<Outcome>, before: Option<string>)
    ensures before.Some? ==> Identity(met, before).Some?
    ensures Identity(met, before) == before
      || (exists k, c :: 0 <= k < |met| && met[k].Answer? && 0 <= c < |met[k].cookies|
                      && Identity(met, before) == Some(NameAndValue(met[k].cookies[c])))
  {
    if met != [] {
      var last := met[|met| - 1];
      IdentityIsKept(met[..|met| - 1], before);
      if last.Answer? {
        NewestIsReceived(last.cookies, Identity(met[..|met| - 1], before));
      }
      assert forall k :: 0 <= k < |met| - 1 ==> met[..|met| - 1][k] == met[k];
    }
  }

  lemma {:induction false} NewestIsReceived(cookies: seq<string>, before: Option<string>)
    ensures Newest(cookies, before) == before
      || (exists c :: 0 <= c < |cookies| && Newest(cookies, before) == Some(NameAndValue(cookies[c])))
    ensures before.Some? ==> Newest(cookies, before).Some?
  {
    if cookies != [] {
      NewestIsReceived(cookies[..|cookies| - 1], before);
    }
  }

  // ----- waiting -----

  function Power2(n: nat): (p: nat)
    ensures p >= 1 && (n > 0 ==> p >= 2)
  {
    if n == 0 then 1 else 2 * Power2(n - 1)
  }

  function Wait(o: Outcome, attempt: nat): int {
    var backoff := Min(8000, 500 * Power2(attempt));
    if o.NoAnswer? then backoff else Min(60000, Max(o.retryAfter, backoff))
  }

  class Client {
    const retries: nat
    var anonCookie: Option<string>
    ghost var waits: seq<int>

    constructor (retries: nat)
      ensures this.retries == retries && anonCookie == None && waits == []
    {
      this.retries := retries;
      anonCookie, waits := None, [];
    }

    method Remember(cookies: seq<string>)
      modifies this`anonCookie
      ensures anonCookie == Newest(cookies, old(anonCookie))
    {
      for i := 0 to |cookies|
        invariant anonCookie == Newest(cookies[..i], old(anonCookie))
      {
        assert cookies[..i + 1][..i] == cookies[..i];
        var pair := NameAndValue(cookies[i]);
        if IsIdentity(pair) {
          anonCookie := Some(pair);
        }
      }
      assert cookies[..|cookies|] == cookies;
    }

    /** `script` must be long enough to answer every attempt; `n` is how many were made. */
    method WithRetry(script: seq<Outcome>, safe: bool) returns (result: Outcome, n: nat)
      requires |script| > retries
      modifies this
      ensures Attempts(script, safe, retries, n) && result == script[n - 1]
      ensures anonCookie == Identity(script[..n], old(anonCookie))
      ensures |waits| == |old(waits)| + n - 1 && old(waits) <= waits
      ensures forall k :: |old(waits)| <= k < |waits| ==> 1000 <= waits[k] <= 60000
    {
      var attempt: nat := 0;
      while true
        invariant attempt <= retries && forall k :: 0 <= k < attempt ==> Again(script[k], safe)
        invariant anonCookie == Identity(script[..attempt], old(anonCookie))
        invariant |waits| == |old(waits)| + attempt && old(waits) <= waits
        invariant forall k :: |old(waits)| <= k < |waits| ==> 1000 <= waits[k] <= 60000
        decreases retries - attempt
      {
        result := script[attempt];
        assert script[..attempt + 1][..attempt] == script[..attempt];
        if result.Answer? {
          Remember(result.cookies);
        }
        if !Again(result, safe) || attempt >= retries {
          return result, attempt + 1;
        }
        attempt := attempt + 1;
        waits := waits + [Wait(result, attempt)];
      }
    }
  }
}
