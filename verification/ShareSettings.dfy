/**
 The share-settings form (src/components/share-model.ts): the patch it sends, the expiry scale, and the comparison of
 guest lists by sorted and joined keys. The server's side is PATCH in src/lib/application/share-item.ts.
 */
module ShareSettings {
  import opened Prelude

  const DAY_MS := 86_400_000

  datatype Mode = View | Comment | Edit
  datatype Policy = Public | Login | People | Passcode
  datatype ExpiryChoice = Never | Days7 | Days30 | Days90
  datatype Person = Person(userId: Option<string>, email: Option<string>)

  datatype Share = Share(
    labelText: Option<string>,
    mode: Option<Mode>,
    policy: Policy,
    allowAi: Option<bool>,
    expiresAt: Option<int>,
    grants: Option<seq<Person>>)

  /** None: the field was not touched. */
  datatype Draft = Draft(
    labelText: Option<string>,
    mode: Option<Mode>,
    policy: Option<Policy>,
    allowAi: Option<bool>,
    expiry: Option<ExpiryChoice>,
    people: Option<seq<Person>>)

  /** None: the field is not sent. */
  datatype Patch = Patch(
    labelText: Option<Option<string>>,
    mode: Option<Mode>,
    policy: Option<Policy>,
    allowAi: Option<bool>,
    expiresInDays: Option<Option<int>>,
    grants: Option<seq<Person>>)

  const NOTHING := Patch(None, None, None, None, None, None)

  function OrElse<T>(o: Option<T>, other: T): T {
    if o.Some? then o.value else other
  }

  // ----- the expiry scale -----

  function ExpiryDaysFor(choice: ExpiryChoice): Option<int> {
    match choice
    case Never => None
    case Days7 => Some(7)
    case Days30 => Some(30)
    case Days90 => Some(90)
  }

  /** The server's reading of a number of days, which it takes from the scale only. */
  function ExpiresAtFor(days: Option<int>, now: int): Option<int> {
    if days.None? then None else Some(now + days.value * DAY_MS)
  }

  function ExpiryChoiceOf(expiresAt: Option<int>, now: int): ExpiryChoice {
    if expiresAt.None? then Never
    else if expiresAt.value - now <= 7 * DAY_MS then Days7
    else if expiresAt.value - now <= 30 * DAY_MS then Days30
    else Days90
  }

  /** A choice that was just sent is shown as itself, and as long as time passes it never shows as a longer one. */
  lemma ScaleRoundTrip(choice: ExpiryChoice, now: int, later: int)
    requires now <= later
    ensures ExpiryChoiceOf(ExpiresAtFor(ExpiryDaysFor(choice), now), now) == choice
    ensures
      var shown := ExpiryChoiceOf(ExpiresAtFor(ExpiryDaysFor(choice), now), later);
      (shown == Never <==> choice == Never)
      && (choice != Never ==> ExpiryDaysFor(shown).value <= ExpiryDaysFor(choice).value)
  {
  }

  // ----- people -----

  predicate HasId(p: Person) {
    p.userId.Some? && p.userId.value != ""
  }

  /** `normalize` trims and lower-cases an address. */
  function PersonKey(normalize: string -> string, p: Person): string {
    if HasId(p) then "u:" + p.userId.value else "e:" + normalize(OrElse(p.email, ""))
  }

  function Keys(normalize: string -> string, people: seq<Person>): (keys: seq<string>)
    ensures |keys| == |people|
  {
    if people == [] then [] else [PersonKey(normalize, people[0])] + Keys(normalize, people[1..])
  }

  function AddPerson(normalize: string -> string, people: seq<Person>, next: Person): seq<Person> {
    if PersonKey(normalize, next) in Keys(normalize, people) then people else people + [next]
  }

  function RemovePerson(normalize: string -> string, people: seq<Person>, target: Person): seq<Person> {
    if people == [] then []
    else
      (if PersonKey(normalize, people[0]) == PersonKey(normalize, target) then [] else [people[0]])
      + RemovePerson(normalize, people[1..], target)
  }

  lemma {:induction false} KeysAppend(normalize: string -> string, a: seq<Person>, b: seq<Person>)
    ensures Keys(normalize, a + b) == Keys(normalize, a) + Keys(normalize, b)
  {
    if a == [] {
      assert a + b == b;
    } else {
      assert (a + b)[1..] == a[1..] + b;
      KeysAppend(normalize, a[1..], b);
    }
  }

  /** Adding is undone by removing, when the person was not listed; and it never lists a person twice. */
  lemma {:induction false} RemoveUndoesAdd(normalize: string -> string, people: seq<Person>, p: Person)
    requires PersonKey(normalize, p) !in Keys(normalize, people)
    ensures AddPerson(normalize, people, p) == people + [p]
    ensures RemovePerson(normalize, people + [p], p) == people
    decreases |people|
  {
    if people != [] {
      assert Keys(normalize, people)[0] == PersonKey(normalize, people[0]);
      assert (people + [p])[1..] == people[1..] + [p];
      assert forall k :: k in Keys(normalize, people[1..]) ==> k in Keys(normalize, people);
      RemoveUndoesAdd(normalize, people[1..], p);
      assert [people[0]] + people[1..] == people;
    } else {
      assert (people + [p])[1..] == [];
    }
  }

  ghost predicate Distinct(keys: seq<string>) {
    forall i, j :: 0 <= i < j < |keys| ==> keys[i] != keys[j]
  }

  lemma AddKeepsDistinct(normalize: string -> string, people: seq<Person>, p: Person)
    requires Distinct(Keys(normalize, people))
    ensures Distinct(Keys(normalize, AddPerson(normalize, people, p)))
    ensures PersonKey(normalize, p) in Keys(normalize, AddPerson(normalize, people, p))
  {
    KeysAppend(normalize, people, [p]);
    assert Keys(normalize, [p]) == [PersonKey(normalize, p)];
  }

  // ----- sorting and joining keys -----

  /** Lexicographic order. */
  predicate AtMost(a: string, b: string) {
    a == "" || (b != "" && (a[0] < b[0] || (a[0] == b[0] && AtMost(a[1..], b[1..]))))
  }

  lemma {:induction false} OrderIsTotal(a: string, b: string)
    ensures AtMost(a, b) || AtMost(b, a)
    ensures AtMost(a, b) && AtMost(b, a) ==> a == b
  {
    if a != "" && b != "" && a[0] == b[0] {
      OrderIsTotal(a[1..], b[1..]);
      assert a == [a[0]] + a[1..] && b == [b[0]] + b[1..];
    }
  }

  lemma {:induction false} OrderIsTransitive(a: string, b: string, c: string)
    requires AtMost(a, b) && AtMost(b, c)
    ensures AtMost(a, c)
  {
    if a != "" && a[0] == b[0] == c[0] {
      OrderIsTransitive(a[1..], b[1..], c[1..]);
    }
  }

  ghost predicate Sorted(s: seq<string>) {
    forall i, j :: 0 <= i < j < |s| ==> AtMost(s[i], s[j])
  }

  function Insert(s: seq<string>, x: string): (r: seq<string>)
    ensures multiset(r) == multiset(s) + multiset{x}
  {
    if s == [] then [x]
    else if AtMost(x, s[0]) then [x] + s
    else
      assert s == [s[0]] + s[1..];
      [s[0]] + Insert(s[1..], x)
  }

  function Sort(s: seq<string>): (r: seq<string>)
    ensures multiset(r) == multiset(s)
  {
    if s == [] then []
    else
      assert s == s[..|s| - 1] + [s[|s| - 1]];
      Insert(Sort(s[..|s| - 1]), s[|s| - 1])
  }

  lemma {:induction false} InsertSorts(s: seq<string>, x: string)
    requires Sorted(s)
    ensures Sorted(Insert(s, x))
  {
    if s != [] {
      OrderIsTotal(x, s[0]);
      if AtMost(x, s[0]) {
        forall j | 0 <= j < |s|
          ensures AtMost(x, s[j])
        {
          if j > 0 {
            OrderIsTransitive(x, s[0], s[j]);
          }
        }
      } else {
        InsertSorts(s[1..], x);
        var rest := Insert(s[1..], x);
        forall j | 0 <= j < |rest|
          ensures AtMost(s[0], rest[j])
        {
          assert rest[j] in multiset(rest);
          assert rest[j] == x || rest[j] in s[1..];
        }
      }
    }
  }

  lemma {:induction false} SortSorts(s: seq<string>)
    ensures Sorted(Sort(s))
  {
    if s != [] {
      SortSorts(s[..|s| - 1]);
      InsertSorts(Sort(s[..|s| - 1]), s[|s| - 1]);
    }
  }

  lemma HeadIsLeast(a: seq<string>, x: string)
    requires Sorted(a) && x in a
    ensures AtMost(a[0], x)
  {
    OrderIsTotal(x, x);
  }

  lemma MultisetOfTail(a: seq<string>)
    requires a != []
    ensures multiset(a[1..]) == multiset(a) - multiset{a[0]} && a[0] in multiset(a)
  {
    assert a == [a[0]] + a[1..];
  }

  lemma SameHeads(a: seq<string>, b: seq<string>)
    requires Sorted(a) && Sorted(b) && a != [] && b != [] && multiset(a) == multiset(b)
    ensures a[0] == b[0] && multiset(a[1..]) == multiset(b[1..])
  {
    MultisetOfTail(a);
    MultisetOfTail(b);
    HeadIsLeast(a, b[0]);
    HeadIsLeast(b, a[0]);
    OrderIsTotal(a[0], b[0]);
  }

  lemma {:induction false} SortedIsUnique(a: seq<string>, b: seq<string>)
    requires Sorted(a) && Sorted(b) && multiset(a) == multiset(b)
    ensures a == b
    decreases |a|
  {
    assert |multiset(a)| == |a| && |multiset(b)| == |b|;
    if a != [] {
      SameHeads(a, b);
      SortedIsUnique(a[1..], b[1..]);
      assert [a[0]] + a[1..] == a && [b[0]] + b[1..] == b;
    }
  }

  function JoinLines(lines: seq<string>): string {
    if lines == [] then "" else if |lines| == 1 then lines[0] else lines[0] + "\n" + JoinLines(lines[1..])
  }

  function FirstBreak(s: string): nat {
    if s == "" || s[0] == '\n' then 0 else 1 + FirstBreak(s[1..])
  }

  lemma {:induction false} FirstBreakAfter(a: string, x: string)
    requires '\n' !in a
    ensures FirstBreak(a + ['\n'] + x) == |a| && FirstBreak(a) == |a|
  {
    if a == "" {
      assert (a + ['\n'] + x)[0] == '\n';
    } else {
      assert (a + ['\n'] + x)[1..] == a[1..] + ['\n'] + x;
      FirstBreakAfter(a[1..], x);
    }
  }

  lemma FirstLine(a: string, b: string, x: string, y: string)
    requires '\n' !in a && '\n' !in b
    ensures a + ['\n'] + x == b + ['\n'] + y ==> a == b && x == y
    ensures a + ['\n'] + x != b
  {
    var s, t := a + ['\n'] + x, b + ['\n'] + y;
    FirstBreakAfter(a, x);
    FirstBreakAfter(b, y);
    assert s[..|a|] == a && t[..|b|] == b && s[|a| + 1..] == x && t[|b| + 1..] == y;
  }

  ghost predicate Lines(lines: seq<string>) {
    forall i :: 0 <= i < |lines| ==> lines[i] != "" && '\n' !in lines[i]
  }

  lemma JoinOpens(a: seq<string>)
    requires |a| > 1
    ensures JoinLines(a) == a[0] + ['\n'] + JoinLines(a[1..])
  {
  }

  /** Lines can be told apart again after joining. */
  lemma {:induction false} JoinIsInjective(a: seq<string>, b: seq<string>)
    requires Lines(a) && Lines(b) && JoinLines(a) == JoinLines(b)
    ensures a == b
    decreases |a|
  {
    if |a| > 1 && |b| > 1 {
      JoinOpens(a);
      JoinOpens(b);
      FirstLine(a[0], b[0], JoinLines(a[1..]), JoinLines(b[1..]));
      JoinIsInjective(a[1..], b[1..]);
      assert a == [a[0]] + a[1..] && b == [b[0]] + b[1..];
    } else {
      if |a| > 1 && b != [] {
        JoinOpens(a);
        FirstLine(a[0], b[0], JoinLines(a[1..]), "");
      } else if |b| > 1 && a != [] {
        JoinOpens(b);
        FirstLine(b[0], a[0], JoinLines(b[1..]), "");
      }
    }
  }

  /** The comparison the form makes. */
  predicate SameKeys(a: seq<string>, b: seq<string>) {
    JoinLines(Sort(a)) == JoinLines(Sort(b))
  }

  /** It compares the people with their multiplicities, whatever their order, when no key contains a line break. */
  lemma SameKeysIffSamePeople(a: seq<string>, b: seq<string>)
    requires Lines(a) && Lines(b)
    ensures SameKeys(a, b) <==> multiset(a) == multiset(b)
  {
    SortSorts(a);
    SortSorts(b);
    if multiset(a) == multiset(b) {
      SortedIsUnique(Sort(a), Sort(b));
    }
    if SameKeys(a, b) {
      SortKeepsLines(a);
      SortKeepsLines(b);
      JoinIsInjective(Sort(a), Sort(b));
      assert multiset(Sort(a)) == multiset(a) && multiset(Sort(b)) == multiset(b);
    }
  }

  lemma SortKeepsLines(a: seq<string>)
    requires Lines(a)
    ensures Lines(Sort(a))
  {
    forall i | 0 <= i < |Sort(a)|
      ensures Sort(a)[i] in a
    {
      assert Sort(a)[i] in multiset(Sort(a));
    }
  }

  /** With a line break in a key, two different lists can look the same. */
  lemma LineBreakConfuses()
    ensures SameKeys(["u:1\nu:2"], ["u:1", "u:2"]) && multiset(["u:1\nu:2"]) != multiset(["u:1", "u:2"])
  {
    var one, two := ["u:1\nu:2"], ["u:1", "u:2"];
    assert one[..0] == [] && two[..1] == ["u:1"] && ["u:1"][..0] == [];
    assert !AtMost("u:2", "u:1") by {
      assert "u:2"[1..] == ":2" && "u:1"[1..] == ":1" && ":2"[1..] == "2" && ":1"[1..] == "1";
    }
    assert Sort(["u:1"]) == ["u:1"];
    assert ["u:1"][1..] == [];
    assert Sort(one) == one && Sort(two) == two;
    assert two[1..] == ["u:2"];
    assert |multiset(one)| == 1 && |multiset(two)| == 2;
  }

  // ----- the patch -----

  predicate IsSpace(c: char) {
    var n := c as int;
    || 9 <= n <= 13 || n == 32 || n == 0xA0 || n == 0x1680 || 0x2000 <= n <= 0x200A
    || n in {0x2028, 0x2029, 0x202F, 0x205F, 0x3000, 0xFEFF}
  }

  function Trim(s: string): string {
    if s == "" then ""
    else if IsSpace(s[0]) then Trim(s[1..])
    else if IsSpace(s[|s| - 1]) then Trim(s[..|s| - 1])
    else s
  }

  /** A text that is blank counts as none. */
  function Named(s: string): Option<string> {
    if Trim(s) == "" then None else Some(Trim(s))
  }

  function Listed(share: Share): seq<Person> {
    OrElse(share.grants, [])
  }

  function SentPerson(p: Person): Person {
    if HasId(p) then Person(p.userId, None) else Person(None, p.email)
  }

  function Sent(people: seq<Person>): (r: seq<Person>)
    ensures |r| == |people| && forall i :: 0 <= i < |r| ==> r[i] == SentPerson(people[i])
  {
    seq(|people|, i requires 0 <= i < |people| => SentPerson(people[i]))
  }

  predicate SamePeople(normalize: string -> string, a: seq<Person>, b: seq<Person>) {
    SameKeys(Keys(normalize, a), Keys(normalize, b))
  }

  /** Whether the guest list of the draft is to be sent. */
  predicate SendsPeople(normalize: string -> string, share: Share, d: Draft) {
    && OrElse(d.policy, share.policy) == People && d.people.Some?
    && !SamePeople(normalize, d.people.value, Listed(share))
  }

  /** The patch, field by field: what was touched and differs from what the form shows. */
  function Difference(normalize: string -> string, share: Share, d: Draft, now: int): Patch {
    Patch(
      if d.labelText.Some? && Named(d.labelText.value) != share.labelText then Some(Named(d.labelText.value)) else None,
      if d.mode.Some? && d.mode.value != OrElse(share.mode, View) then d.mode else None,
      if d.policy.Some? && d.policy.value != share.policy then d.policy else None,
      if d.allowAi.Some? && d.allowAi.value != (share.allowAi == Some(true)) then d.allowAi else None,
      if d.expiry.Some? && d.expiry.value != ExpiryChoiceOf(share.expiresAt, now)
      then Some(ExpiryDaysFor(d.expiry.value)) else None,
      if SendsPeople(normalize, share, d) then Some(Sent(d.people.value)) else None)
  }

  /** The share after a patch whose guest list, if it has one, is stored as `grants`. */
  function Patched(share: Share, patch: Patch, now: int, grants: Option<seq<Person>>): Share {
    Share(
      OrElse(patch.labelText, share.labelText),
      if patch.mode.Some? then patch.mode else share.mode,
      OrElse(patch.policy, share.policy),
      if patch.allowAi.Some? then patch.allowAi else share.allowAi,
      if patch.expiresInDays.Some? then ExpiresAtFor(patch.expiresInDays.value, now) else share.expiresAt,
      grants)
  }

  /** Apart from the guests, the share shows what the draft asks for where it was touched, and what `before` showed
      elsewhere; an expiry that was not changed in the form keeps its exact instant. */
  ghost predicate ShowsDraft(share: Share, before: Share, d: Draft, now: int) {
    && share.labelText == (if d.labelText.Some? then Named(d.labelText.value) else before.labelText)
    && OrElse(share.mode, View) == OrElse(d.mode, OrElse(before.mode, View))
    && share.policy == OrElse(d.policy, before.policy)
    && (share.allowAi == Some(true)) == OrElse(d.allowAi, before.allowAi == Some(true))
    && ExpiryChoiceOf(share.expiresAt, now) == OrElse(d.expiry, ExpiryChoiceOf(before.expiresAt, now))
    && (OrElse(d.expiry, ExpiryChoiceOf(before.expiresAt, now)) == ExpiryChoiceOf(before.expiresAt, now) ==>
          share.expiresAt == before.expiresAt)
  }

  /**
   The form's patch. Applied, it shows the draft; it is empty exactly when the share already does; a guest list is sent
   exactly when one is asked for that differs from the listed one, person by person.
   */
  method ShareSettingsPatch(normalize: string -> string, share: Share, d: Draft, now: int) returns (patch: Patch)
    ensures patch == Difference(normalize, share, d, now)
    ensures forall grants :: ShowsDraft(Patched(share, patch, now, grants), share, d, now)
    ensures patch == NOTHING <==> ShowsDraft(share, share, d, now) && !SendsPeople(normalize, share, d)
    ensures patch.grants.Some? ==> Keys(normalize, patch.grants.value) == Keys(normalize, d.people.value)
  {
    patch := NOTHING;
    if d.labelText.Some? && Named(d.labelText.value) != share.labelText {
      patch := patch.(labelText := Some(Named(d.labelText.value)));
    }
    if d.mode.Some? && d.mode.value != OrElse(share.mode, View) {
      patch := patch.(mode := d.mode);
    }
    if d.policy.Some? && d.policy.value != share.policy {
      patch := patch.(policy := d.policy);
    }
    if d.allowAi.Some? && d.allowAi.value != (share.allowAi == Some(true)) {
      patch := patch.(allowAi := d.allowAi);
    }
    if d.expiry.Some? && d.expiry.value != ExpiryChoiceOf(share.expiresAt, now) {
      patch := patch.(expiresInDays := Some(ExpiryDaysFor(d.expiry.value)));
    }
    if OrElse(d.policy, share.policy) == People && d.people.Some? {
      if !SamePeople(normalize, d.people.value, Listed(share)) {
        patch := patch.(grants := Some(Sent(d.people.value)));
        KeysOfSent(normalize, d.people.value);
      }
    }
    PatchShowsDraft(normalize, share, d, now);
  }

  lemma PatchShowsDraft(normalize: string -> string, share: Share, d: Draft, now: int)
    ensures
      var patch := Difference(normalize, share, d, now);
      && (forall grants :: ShowsDraft(Patched(share, patch, now, grants), share, d, now))
      && (patch == NOTHING <==> ShowsDraft(share, share, d, now) && !SendsPeople(normalize, share, d))
  {
    if d.expiry.Some? {
      ScaleRoundTrip(d.expiry.value, now, now);
    }
  }

  lemma {:induction false} KeysOfSent(normalize: string -> string, people: seq<Person>)
    ensures Keys(normalize, Sent(people)) == Keys(normalize, people)
  {
    if people != [] {
      assert Sent(people)[1..] == Sent(people[1..]);
      KeysOfSent(normalize, people[1..]);
    }
  }

  /** Applied as it is, the patch leaves nothing to send: comparing the same draft at the same instant gives none. */
  lemma LiteralServerConverges(normalize: string -> string, share: Share, d: Draft, now: int)
    ensures
      var patch := Difference(normalize, share, d, now);
      var grants := if patch.grants.Some? then patch.grants else share.grants;
      Difference(normalize, Patched(share, patch, now, grants), d, now) == NOTHING
  {
    if d.expiry.Some? {
      ScaleRoundTrip(d.expiry.value, now, now);
    }
    if d.people.Some? {
      KeysOfSent(normalize, d.people.value);
    }
  }
}
