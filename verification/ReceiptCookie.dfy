/** The bounded cookie of anonymous edit receipts (src/lib/anonymous-access.ts and `readCookie` in src/lib/http.ts). */
module ReceiptCookie {
  import opened Prelude
  import Json
  import UriComponent

  const MAX_RECEIPTS := 8
  const MAX_COOKIE_BYTES := 3000

  datatype Receipt = Receipt(slug: string, token: string)

  predicate IsSlugChar(c: char) {
    'A' <= c <= 'Z' || 'a' <= c <= 'z' || '0' <= c <= '9' || c == '_' || c == '-'
  }

  predicate IsSlug(s: string) {
    s != "" && forall i :: 0 <= i < |s| ==> IsSlugChar(s[i])
  }

  // ----- lists -----

  function Keep(s: seq<string>, p: string -> bool): (r: seq<string>)
    ensures forall i :: 0 <= i < |r| ==> p(r[i])
  {
    if s == [] then [] else (if p(s[0]) then [s[0]] else []) + Keep(s[1..], p)
  }

  /** The last `n` elements, or all of them. */
  function Last<T>(s: seq<T>, n: nat): (r: seq<T>)
    ensures |r| == if n < |s| then n else |s|
  {
    if |s| <= n then s else s[|s| - n..]
  }

  function Without(receipts: seq<Receipt>, slug: string): (r: seq<Receipt>)
    ensures forall i :: 0 <= i < |r| ==> r[i] in receipts && r[i].slug != slug
    ensures |r| <= |receipts|
  {
    if receipts == [] then []
    else (if receipts[0].slug == slug then [] else [receipts[0]]) + Without(receipts[1..], slug)
  }

  // ----- writing -----

  function ToJson(receipts: seq<Receipt>): (v: Json.Value)
    ensures v.List? && |v.items| == |receipts| && Json.Plain(v)
    ensures forall i :: 0 <= i < |receipts| ==>
      v.items[i] == Json.List([Json.Text(receipts[i].slug), Json.Text(receipts[i].token)])
  {
    var items := seq(|receipts|, i requires 0 <= i < |receipts| =>
      Json.List([Json.Text(receipts[i].slug), Json.Text(receipts[i].token)]));
    assert forall i :: 0 <= i < |items| ==> Json.Plain(items[i]);
    Json.List(items)
  }

  function Print(receipts: seq<Receipt>): string {
    UriComponent.Encode(Json.Stringify(ToJson(receipts)))
  }

  predicate Fits(receipts: seq<Receipt>) {
    |Print(receipts)| <= MAX_COOKIE_BYTES
  }

  lemma NothingFits()
    ensures Fits([])
  {
    assert Json.Stringify(ToJson([])) == "[]";
    assert UriComponent.Encode("[]") == UriComponent.EncodeChar('[') + UriComponent.Encode("]");
    assert UriComponent.Encode("]") == UriComponent.EncodeChar(']') + UriComponent.Encode("");
    assert UriComponent.PercentAll([91 as byte]) == UriComponent.PercentByte(91) + UriComponent.PercentAll([]);
    assert UriComponent.PercentAll([93 as byte]) == UriComponent.PercentByte(93) + UriComponent.PercentAll([]);
  }

  /** No suffix of `all` with more than `n` entries will do. */
  ghost predicate NoLonger(all: seq<Receipt>, n: nat) {
    forall m: nat :: n < m <= |all| && m <= MAX_RECEIPTS ==> !Fits(Last(all, m))
  }

  /** `kept` is the longest suffix of `all` with few enough entries and characters. */
  ghost predicate LongestSuffix(kept: seq<Receipt>, all: seq<Receipt>) {
    |kept| <= MAX_RECEIPTS && kept == Last(all, |kept|) && Fits(kept) && NoLonger(all, |kept|)
  }

  lemma DropOldest(kept: seq<Receipt>, all: seq<Receipt>)
    requires |kept| <= |all| && kept == Last(all, |kept|) && !Fits(kept) && NoLonger(all, |kept|)
    ensures kept != [] && kept[1..] == Last(all, |kept| - 1) && NoLonger(all, |kept| - 1)
  {
    NothingFits();
  }

  lemma LongestSuffixIsUnique(a: seq<Receipt>, b: seq<Receipt>, all: seq<Receipt>)
    requires LongestSuffix(a, all) && LongestSuffix(b, all)
    ensures a == b
  {
  }

  /** The value of the cookie after opening `slug`, and the receipts it holds. */
  method AnonymousEditCookie(receipts: seq<Receipt>, slug: string, token: string)
    returns (value: string, kept: seq<Receipt>)
    ensures value == Print(kept) && LongestSuffix(kept, Without(receipts, slug) + [Receipt(slug, token)])
  {
    var all := Without(receipts, slug) + [Receipt(slug, token)];
    kept := Last(all, MAX_RECEIPTS);
    while |Print(kept)| > MAX_COOKIE_BYTES
      invariant |kept| <= MAX_RECEIPTS && |kept| <= |all| && kept == Last(all, |kept|)
      invariant NoLonger(all, |kept|)
      decreases |kept|
    {
      DropOldest(kept, all);
      kept := kept[1..];
    }
    value := Print(kept);
  }

  // ----- reading -----

  /** The parts of the request's cookie header are already split at ';' and trimmed. */
  function ReadCookie(parts: seq<string>, name: string): Option<string> {
    var hits := Keep(parts, part => name + "=" <= part);
    if |hits| != 1 then None else UriComponent.Decode(hits[0][|name| + 1..])
  }

  predicate IsReceipt(v: Json.Value) {
    v.List? && |v.items| == 2 && v.items[0].Text? && v.items[1].Text? && IsSlug(v.items[0].s)
  }

  function ToReceipts(items: seq<Json.Value>): (r: seq<Receipt>)
    ensures forall i :: 0 <= i < |r| ==> IsSlug(r[i].slug)
  {
    if items == [] then []
    else
      (if IsReceipt(items[0]) then [Receipt(items[0].items[0].s, items[0].items[1].s)] else []) + ToReceipts(items[1..])
  }

  function Receipts(parts: seq<string>, name: string): (r: seq<Receipt>)
    ensures |r| <= MAX_RECEIPTS && forall i :: 0 <= i < |r| ==> IsSlug(r[i].slug)
  {
    var cookie := ReadCookie(parts, name);
    var raw := if cookie.Some? then cookie.value else "[]";
    if |UriComponent.Encode(raw)| > MAX_COOKIE_BYTES then []
    else
      match Json.Parse(raw)
      case Some(List(items)) => Last(ToReceipts(items), MAX_RECEIPTS)
      case _ => []
  }

  function EditToken(receipts: seq<Receipt>, slug: string): string {
    if receipts == [] then ""
    else if receipts[0].slug == slug then receipts[0].token
    else EditToken(receipts[1..], slug)
  }

  lemma {:induction false} ToReceiptsOfJson(receipts: seq<Receipt>)
    requires forall i :: 0 <= i < |receipts| ==> IsSlug(receipts[i].slug)
    ensures ToReceipts(ToJson(receipts).items) == receipts
  {
    if receipts != [] {
      assert ToJson(receipts).items[1..] == ToJson(receipts[1..]).items;
      ToReceiptsOfJson(receipts[1..]);
      assert [receipts[0]] + receipts[1..] == receipts;
    }
  }

  lemma {:induction false} KeepNone(parts: seq<string>, p: string -> bool)
    requires forall part :: part in parts ==> !p(part)
    ensures Keep(parts, p) == []
  {
    if parts != [] {
      KeepNone(parts[1..], p);
    }
  }

  lemma {:induction false} KeepOne(before: seq<string>, hit: string, after: seq<string>, p: string -> bool)
    requires p(hit) && (forall part :: part in before ==> !p(part)) && (forall part :: part in after ==> !p(part))
    ensures Keep(before + [hit] + after, p) == [hit]
  {
    var parts := before + [hit] + after;
    if before == [] {
      assert parts[1..] == after;
      KeepNone(after, p);
    } else {
      assert parts[0] == before[0] && parts[1..] == before[1..] + [hit] + after;
      KeepOne(before[1..], hit, after, p);
    }
  }

  /**
   Reading back a written cookie, among any others, gives exactly the receipts that were kept, provided their
   slugs are well-formed; and never otherwise.
   */
  lemma ReadBack(kept: seq<Receipt>, before: seq<string>, after: seq<string>, name: string)
    requires |kept| <= MAX_RECEIPTS && Fits(kept)
    requires forall part :: part in before || part in after ==> !(name + "=" <= part)
    ensures Receipts(before + [name + "=" + Print(kept)] + after, name) == kept
       <==> forall i :: 0 <= i < |kept| ==> IsSlug(kept[i].slug)
  {
    var hit := name + "=" + Print(kept);
    var p := part => name + "=" <= part;
    var parts := before + [hit] + after;
    KeepOne(before, hit, after, p);
    assert ReadCookie(parts, name) == UriComponent.Decode(hit[|name| + 1..]) by {
      assert Keep(parts, part => name + "=" <= part) == Keep(parts, p);
    }
    assert hit[|name| + 1..] == Print(kept);
    UriComponent.DecodeEncode(Json.Stringify(ToJson(kept)));
    Json.ParseStringify(ToJson(kept));
    if forall i :: 0 <= i < |kept| ==> IsSlug(kept[i].slug) {
      ToReceiptsOfJson(kept);
    }
  }

  // ----- runs of writes -----

  /** The receipts that a cookie without bounds would hold: one for each slug, in the order of the last writes. */
  function Latest(first: seq<Receipt>, writes: seq<Receipt>): seq<Receipt> {
    if writes == [] then first
    else
      var w := writes[|writes| - 1];
      Without(Latest(first, writes[..|writes| - 1]), w.slug) + [w]
  }

  /** `states` are the receipts held after each of the `writes`. */
  ghost predicate Run(states: seq<seq<Receipt>>, writes: seq<Receipt>) {
    && |states| == |writes| + 1
    && forall k :: 0 <= k < |writes| ==>
         LongestSuffix(states[k + 1], Without(states[k], writes[k].slug) + [writes[k]])
  }

  ghost predicate Distinct(receipts: seq<Receipt>) {
    forall i, j :: 0 <= i < j < |receipts| ==> receipts[i].slug != receipts[j].slug
  }

  /** The token written last for a slug. */
  function Newest(first: seq<Receipt>, writes: seq<Receipt>, slug: string): string {
    if writes == [] then EditToken(first, slug)
    else if writes[|writes| - 1].slug == slug then writes[|writes| - 1].token
    else Newest(first, writes[..|writes| - 1], slug)
  }

  lemma {:induction false} WithoutAppend(a: seq<Receipt>, b: seq<Receipt>, slug: string)
    ensures Without(a + b, slug) == Without(a, slug) + Without(b, slug)
  {
    if a == [] {
      assert a + b == b;
    } else {
      assert (a + b)[1..] == a[1..] + b;
      WithoutAppend(a[1..], b, slug);
    }
  }

  lemma {:induction false} WithoutKeepsDistinct(a: seq<Receipt>, slug: string)
    requires Distinct(a)
    ensures Distinct(Without(a, slug))
  {
    if a != [] {
      WithoutKeepsDistinct(a[1..], slug);
      assert forall x :: x in a[1..] ==> x.slug != a[0].slug;
    }
  }

  lemma LastOfThree(a: seq<Receipt>, b: seq<Receipt>, w: Receipt, n: nat)
    requires n <= |b + [w]|
    ensures Last((a + b) + [w], n) == Last(b + [w], n)
  {
    assert (a + b) + [w] == a + (b + [w]);
  }

  lemma SuffixIsDistinct(kept: seq<Receipt>, all: seq<Receipt>)
    requires Distinct(all) && |kept| <= |all| && kept == Last(all, |kept|)
    ensures Distinct(kept) && (kept != [] ==> all[|all| - 1] in kept)
  {
    assert forall i :: 0 <= i < |kept| ==> kept[i] == all[|all| - |kept| + i];
  }

  lemma SplitLast(all: seq<Receipt>, held: seq<Receipt>) returns (gone: seq<Receipt>)
    requires |held| <= |all| && held == Last(all, |held|)
    ensures gone + held == all
  {
    gone := all[..|all| - |held|];
  }

  lemma SuffixStep(gone: seq<Receipt>, held: seq<Receipt>, kept: seq<Receipt>, w: Receipt)
    requires |kept| <= |Without(held, w.slug) + [w]| && kept == Last(Without(held, w.slug) + [w], |kept|)
    ensures |kept| <= |Without(gone + held, w.slug) + [w]| && kept == Last(Without(gone + held, w.slug) + [w], |kept|)
  {
    WithoutAppend(gone, held, w.slug);
    LastOfThree(Without(gone, w.slug), Without(held, w.slug), w, |kept|);
  }

  /** Over every run, the cookie holds the end of the list of latest receipts: only the oldest are ever lost. */
  lemma {:induction false} RunHoldsTheLatest(states: seq<seq<Receipt>>, writes: seq<Receipt>)
    requires Run(states, writes)
    ensures
      var held, all := states[|writes|], Latest(states[0], writes);
      |held| <= |all| && held == Last(all, |held|)
    decreases |writes|
  {
    if writes != [] {
      var n := |writes| - 1;
      assert LongestSuffix(states[n + 1], Without(states[n], writes[n].slug) + [writes[n]]);
      RunHoldsTheLatest(states[..n + 1], writes[..n]);
      var gone := SplitLast(Latest(states[0], writes[..n]), states[n]);
      SuffixStep(gone, states[n], states[n + 1], writes[n]);
    }
  }

  lemma {:induction false} LatestIsDistinct(first: seq<Receipt>, writes: seq<Receipt>)
    requires Distinct(first)
    ensures Distinct(Latest(first, writes))
  {
    if writes != [] {
      LatestIsDistinct(first, writes[..|writes| - 1]);
      WithoutKeepsDistinct(Latest(first, writes[..|writes| - 1]), writes[|writes| - 1].slug);
    }
  }

  lemma {:induction false} TokenOf(receipts: seq<Receipt>, r: Receipt)
    requires Distinct(receipts) && r in receipts
    ensures EditToken(receipts, r.slug) == r.token
  {
    if receipts[0] != r {
      assert r in receipts[1..];
      assert exists j :: 1 <= j < |receipts| && receipts[j] == r;
      TokenOf(receipts[1..], r);
    }
  }

  lemma {:induction false} NoToken(receipts: seq<Receipt>, slug: string)
    requires forall r :: r in receipts ==> r.slug != slug
    ensures EditToken(receipts, slug) == ""
  {
    if receipts != [] {
      NoToken(receipts[1..], slug);
    }
  }

  lemma {:induction false} LatestIsNewest(first: seq<Receipt>, writes: seq<Receipt>, r: Receipt)
    requires Distinct(first) && r in Latest(first, writes)
    ensures r.token == Newest(first, writes, r.slug)
  {
    if writes == [] {
      TokenOf(first, r);
    } else {
      var w := writes[|writes| - 1];
      if r != w {
        assert r in Without(Latest(first, writes[..|writes| - 1]), w.slug);
        LatestIsNewest(first, writes[..|writes| - 1], r);
      }
    }
  }

  /** Over every run the slugs stay distinct, and looking one up gives its newest token, or nothing once it is lost. */
  lemma LookupIsNewestOrNothing(states: seq<seq<Receipt>>, writes: seq<Receipt>, slug: string)
    requires Run(states, writes) && Distinct(states[0])
    ensures
      var held := states[|writes|];
      && Distinct(held)
      && (if exists r :: r in held && r.slug == slug then EditToken(held, slug) == Newest(states[0], writes, slug)
          else EditToken(held, slug) == "")
  {
    var held, all := states[|writes|], Latest(states[0], writes);
    RunHoldsTheLatest(states, writes);
    LatestIsDistinct(states[0], writes);
    SuffixIsDistinct(held, all);
    if r :| r in held && r.slug == slug {
      TokenOf(held, r);
      LatestIsNewest(states[0], writes, r);
    } else {
      NoToken(held, slug);
    }
  }

  /** A receipt that fits on its own can be used right after it is written; if it is lost, it did not fit. */
  lemma WrittenIsReadable(held: seq<Receipt>, kept: seq<Receipt>, w: Receipt)
    requires Distinct(held) && LongestSuffix(kept, Without(held, w.slug) + [w])
    ensures Fits([w]) ==> kept != [] && EditToken(kept, w.slug) == w.token
    ensures kept == [] ==> !Fits([w])
  {
    var all := Without(held, w.slug) + [w];
    assert Last(all, 1) == [w];
    WithoutKeepsDistinct(held, w.slug);
    SuffixIsDistinct(kept, all);
    if kept != [] {
      TokenOf(kept, w);
    }
  }

  // ----- runs of requests -----

  /** `after` holds the cookie that the answer to a request with `before` sets, once, among any others. */
  ghost predicate Sets(before: seq<string>, after: seq<string>, name: string, w: Receipt) {
    exists kept: seq<Receipt>, left: seq<string>, right: seq<string> ::
      SetsTo(before, after, name, w, kept, left, right)
  }

  ghost predicate SetsTo(before: seq<string>, after: seq<string>, name: string, w: Receipt, kept: seq<Receipt>,
                         left: seq<string>, right: seq<string>)
  {
    && LongestSuffix(kept, Without(Receipts(before, name), w.slug) + [w])
    && after == left + [name + "=" + Print(kept)] + right
    && (forall part :: part in left || part in right ==> !(name + "=" <= part))
  }

  /** Requests of one browser: each comes with the cookie that the answer to the one before it set. */
  ghost predicate Visits(headers: seq<seq<string>>, name: string, writes: seq<Receipt>) {
    && |headers| == |writes| + 1
    && forall k :: 0 <= k < |writes| ==> IsSlug(writes[k].slug) && Sets(headers[k], headers[k + 1], name, writes[k])
  }

  function Held(headers: seq<seq<string>>, name: string): (states: seq<seq<Receipt>>)
    ensures |states| == |headers| && forall k :: 0 <= k < |states| ==> states[k] == Receipts(headers[k], name)
  {
    seq(|headers|, k requires 0 <= k < |headers| => Receipts(headers[k], name))
  }

  lemma SuffixOfSlugs(kept: seq<Receipt>, all: seq<Receipt>)
    requires |kept| <= |all| && kept == Last(all, |kept|) && forall i :: 0 <= i < |all| ==> IsSlug(all[i].slug)
    ensures forall i :: 0 <= i < |kept| ==> IsSlug(kept[i].slug)
  {
    assert forall i :: 0 <= i < |kept| ==> kept[i] == all[|all| - |kept| + i];
  }

  /** The next request reads exactly what was kept. */
  lemma NextRequestReads(before: seq<string>, after: seq<string>, name: string, w: Receipt)
    requires IsSlug(w.slug) && Sets(before, after, name, w)
    ensures LongestSuffix(Receipts(after, name), Without(Receipts(before, name), w.slug) + [w])
  {
    var kept: seq<Receipt>, left: seq<string>, right: seq<string> :| SetsTo(before, after, name, w, kept, left, right);
    SuffixOfSlugs(kept, Without(Receipts(before, name), w.slug) + [w]);
    ReadBack(kept, left, right, name);
  }

  lemma VisitsAreRun(headers: seq<seq<string>>, name: string, writes: seq<Receipt>)
    requires Visits(headers, name, writes)
    ensures Run(Held(headers, name), writes)
  {
    var states := Held(headers, name);
    forall k | 0 <= k < |writes|
      ensures LongestSuffix(states[k + 1], Without(states[k], writes[k].slug) + [writes[k]])
    {
      assert Sets(headers[k], headers[k + 1], name, writes[k]);
      NextRequestReads(headers[k], headers[k + 1], name, writes[k]);
    }
  }

  /** Over every run of requests, printing and parsing included, the cookie holds the end of the list of latest
      receipts. */
  lemma CookieHoldsTheLatest(headers: seq<seq<string>>, name: string, writes: seq<Receipt>)
    requires Visits(headers, name, writes)
    ensures
      var held, all := Receipts(headers[|writes|], name), Latest(Receipts(headers[0], name), writes);
      |held| <= |all| && held == Last(all, |held|)
  {
    VisitsAreRun(headers, name, writes);
    RunHoldsTheLatest(Held(headers, name), writes);
  }

  /** And looking up a slug in it gives the newest token, or nothing once it is lost. */
  lemma CookieLookup(headers: seq<seq<string>>, name: string, writes: seq<Receipt>, slug: string)
    requires Visits(headers, name, writes) && Distinct(Receipts(headers[0], name))
    ensures
      var first, held := Receipts(headers[0], name), Receipts(headers[|writes|], name);
      && Distinct(held)
      && (if exists r :: r in held && r.slug == slug then EditToken(held, slug) == Newest(first, writes, slug)
          else EditToken(held, slug) == "")
  {
    VisitsAreRun(headers, name, writes);
    LookupIsNewestOrNothing(Held(headers, name), writes, slug);
  }
}
