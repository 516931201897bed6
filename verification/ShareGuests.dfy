/**
 How the server stores a guest list (PATCH in src/lib/application/share-item.ts), and when a saved draft stays saved.
 An address may be stored as the account that has verified it, and an account as the row of its address.
 */
module ShareGuests {
  import opened Prelude
  import opened ShareSettings

  datatype Account = Account(id: string, email: string, verified: bool)

  /** `normalize` trims and lower-cases an address, `acceptable` is the check of its shape and length. */
  datatype Site = Site(normalize: string -> string, acceptable: string -> bool, accounts: seq<Account>)

  const MAX_GUESTS := 500

  /** A stored row names either an account or an address. */
  predicate IsRow(p: Person) {
    if p.userId.Some? then HasId(p) && p.email.None? else p.email.Some?
  }

  ghost predicate WellFormed(site: Site, rows: seq<Person>) {
    && (forall s {:trigger site.normalize(site.normalize(s))} :: site.normalize(site.normalize(s)) == site.normalize(s))
    && (forall a :: a in site.accounts ==> a.id != "" && Trim(a.id) == a.id)
    && (forall i, j :: 0 <= i < j < |site.accounts| ==> site.accounts[i].id != site.accounts[j].id)
    && (forall p :: p in rows ==> IsRow(p))
    && Distinct(Keys(site.normalize, rows))
    && (forall a :: a in site.accounts ==> '\n' !in a.id && '\n' !in site.normalize(a.email))
    && (forall p :: p in rows ==> '\n' !in PersonKey(site.normalize, p))
  }

  // ----- resolving one guest -----

  function AccountById(accounts: seq<Account>, id: string): (a: Option<Account>)
    ensures a.Some? ==> a.value in accounts && a.value.id == id
    ensures a.None? ==> forall b :: b in accounts ==> b.id != id
  {
    if accounts == [] then None else if accounts[0].id == id then Some(accounts[0]) else AccountById(accounts[1..], id)
  }

  function VerifiedAccount(site: Site, accounts: seq<Account>, email: string): (a: Option<Account>)
    ensures a.Some? ==> a.value in accounts && a.value.verified && site.normalize(a.value.email) == email
  {
    if accounts == [] then None
    else if accounts[0].verified && site.normalize(accounts[0].email) == email then Some(accounts[0])
    else VerifiedAccount(site, accounts[1..], email)
  }

  function EmailRow(site: Site, rows: seq<Person>, email: string): (row: Option<Person>)
    ensures row.Some? ==>
      row.value in rows && row.value.email.Some? && site.normalize(row.value.email.value) == email
  {
    if rows == [] then None
    else if rows[0].email.Some? && site.normalize(rows[0].email.value) == email then Some(rows[0])
    else EmailRow(site, rows[1..], email)
  }

  /** The address of a person without an id. */
  function Address(site: Site, p: Person): string {
    site.normalize(OrElse(p.email, ""))
  }

  /** The trimmed id, empty when there is none. */
  function IdOf(p: Person): string {
    if p.userId.Some? then Trim(p.userId.value) else ""
  }

  /** The row for a verified or given address, else for the account, else for the address. */
  function RowFor(site: Site, rows: seq<Person>, email: Option<string>, user: Option<Account>): Option<Person> {
    if email.Some? && EmailRow(site, rows, email.value).Some? then
      Some(Person(None, EmailRow(site, rows, email.value).value.email))
    else if user.Some? then Some(Person(Some(user.value.id), None))
    else if email.Some? then Some(Person(None, email))
    else None
  }

  /** What one sent guest is stored as; None when the server refuses it. */
  function Resolve(site: Site, rows: seq<Person>, p: Person): Option<Person> {
    if IdOf(p) != "" then
      match AccountById(site.accounts, IdOf(p))
      case None => None
      case Some(user) =>
        RowFor(site, rows, if user.verified then Some(site.normalize(user.email)) else None, Some(user))
    else if p.email.None? || Address(site, p) == "" || !site.acceptable(Address(site, p)) then None
    else RowFor(site, rows, Some(Address(site, p)), VerifiedAccount(site, site.accounts, Address(site, p)))
  }

  /** The guest is stored under the key by which the form knows it: an id without blanks around it, whose verified
      address has no row; an address without a verified account, or with a row of its own. */
  predicate Steady(site: Site, rows: seq<Person>, p: Person) {
    if HasId(p) then
      && IdOf(p) == p.userId.value
      && (AccountById(site.accounts, IdOf(p)).Some? && AccountById(site.accounts, IdOf(p)).value.verified ==>
            EmailRow(site, rows, site.normalize(AccountById(site.accounts, IdOf(p)).value.email)).None?)
    else
      || VerifiedAccount(site, site.accounts, Address(site, p)).None?
      || EmailRow(site, rows, Address(site, p)).Some?
  }

  lemma KeysDiffer(a: string, b: string)
    ensures "u:" + a != "e:" + b
    ensures "u:" + a == "u:" + b ==> a == b
    ensures "e:" + a == "e:" + b ==> a == b
  {
    assert ("u:" + a)[0] == 'u' && ("e:" + b)[0] == 'e';
    assert ("u:" + a)[2..] == a && ("u:" + b)[2..] == b && ("e:" + a)[2..] == a && ("e:" + b)[2..] == b;
  }

  /** An account is found again by its id. */
  lemma FoundById(site: Site, rows: seq<Person>, a: Account)
    requires WellFormed(site, rows) && a in site.accounts
    ensures AccountById(site.accounts, a.id) == Some(a)
  {
    var b := AccountById(site.accounts, a.id).value;
    var i :| 0 <= i < |site.accounts| && site.accounts[i] == a;
    var j :| 0 <= j < |site.accounts| && site.accounts[j] == b;
  }

  lemma SteadyKeepsKey(site: Site, rows: seq<Person>, p: Person)
    requires WellFormed(site, rows) && Steady(site, rows, p) && Resolve(site, rows, SentPerson(p)).Some?
    ensures PersonKey(site.normalize, Resolve(site, rows, SentPerson(p)).value) == PersonKey(site.normalize, p)
  {
    if !HasId(p) {
      assert site.normalize(Address(site, p)) == Address(site, p);
    }
  }

  /** An account is stored under its id only when its verified address has no row. */
  predicate IsStoredAs(site: Site, rows: seq<Person>, a: Account, id: string) {
    && a in site.accounts && a.id == id
    && (a.verified ==> EmailRow(site, rows, site.normalize(a.email)).None?)
  }

  /** Where the row of a guest comes from: an address of its own or the verified one of an account, or an account. */
  lemma RowOrigin(site: Site, rows: seq<Person>, q: Person)
    requires WellFormed(site, rows) && Resolve(site, rows, q).Some?
    ensures
      var r := Resolve(site, rows, q).value;
      && IsRow(r)
      && (r.userId.Some? ==> exists a :: IsStoredAs(site, rows, a, r.userId.value))
      && (r.email.Some? ==>
            || EmailRow(site, rows, Address(site, r)).Some?
            || VerifiedAccount(site, site.accounts, Address(site, r)).None?)
  {
    var r := Resolve(site, rows, q).value;
    if IdOf(q) != "" {
      var a := AccountById(site.accounts, IdOf(q)).value;
      assert a in site.accounts && a.id != "";
      assert Resolve(site, rows, q).value.userId.Some? ==> IsStoredAs(site, rows, a, a.id);
    } else if VerifiedAccount(site, site.accounts, Address(site, q)).Some? {
      var a := VerifiedAccount(site, site.accounts, Address(site, q)).value;
      assert a in site.accounts && a.id != "";
      assert Resolve(site, rows, q).value.userId.Some? ==> IsStoredAs(site, rows, a, a.id);
    }
    assert site.normalize(Address(site, q)) == Address(site, q);
  }

  /** No guest at all is stored under the key of one that is not steady. */
  lemma UnsteadyKeyIsLost(site: Site, rows: seq<Person>, p: Person, q: Person)
    requires WellFormed(site, rows) && !Steady(site, rows, p)
    requires Resolve(site, rows, SentPerson(p)).Some? && Resolve(site, rows, SentPerson(q)).Some?
    ensures PersonKey(site.normalize, Resolve(site, rows, SentPerson(q)).value) != PersonKey(site.normalize, p)
  {
    var r := Resolve(site, rows, SentPerson(q)).value;
    RowOrigin(site, rows, SentPerson(q));
    if HasId(p) && r.userId.Some? {
      KeysDiffer(r.userId.value, p.userId.value);
      var a :| IsStoredAs(site, rows, a, r.userId.value);
      FoundById(site, rows, a);
    } else if HasId(p) {
      KeysDiffer(p.userId.value, Address(site, r));
    } else if r.userId.Some? {
      KeysDiffer(r.userId.value, Address(site, p));
    } else {
      KeysDiffer(Address(site, r), Address(site, p));
    }
  }

  // ----- storing the list -----

  /** All the guests resolved, or None when one is refused. */
  function ResolveAll(site: Site, rows: seq<Person>, people: seq<Person>): (r: Option<seq<Person>>)
    ensures r.Some? ==> |r.value| == |people|
    ensures r.Some? ==> forall i :: 0 <= i < |people| ==> Resolve(site, rows, people[i]) == Some(r.value[i])
  {
    if people == [] then Some([])
    else
      match Resolve(site, rows, people[0])
      case None => None
      case Some(row) =>
        match ResolveAll(site, rows, people[1..])
        case None => None
        case Some(more) => Some([row] + more)
  }

  /** Rows that are no longer wanted are deleted. */
  function Kept(rows: seq<Person>, wanted: seq<Person>): (r: seq<Person>)
    ensures forall p :: p in r ==> p in rows && p in wanted
  {
    if rows == [] then [] else (if rows[0] in wanted then [rows[0]] else []) + Kept(rows[1..], wanted)
  }

  /** The wanted rows are inserted, unless one with the same account or address is there. */
  function Inserted(normalize: string -> string, rows: seq<Person>, wanted: seq<Person>): seq<Person>
    decreases |wanted|
  {
    if wanted == [] then rows else Inserted(normalize, AddPerson(normalize, rows, wanted[0]), wanted[1..])
  }

  /** The stored rows after a list was sent; None when the server refuses it. */
  function Store(site: Site, rows: seq<Person>, sent: seq<Person>): Option<seq<Person>> {
    if |sent| > MAX_GUESTS then None
    else
      match ResolveAll(site, rows, sent)
      case None => None
      case Some(wanted) => Some(Inserted(site.normalize, Kept(rows, wanted), wanted))
  }

  lemma {:induction false} KeyOfMember(normalize: string -> string, people: seq<Person>, k: string)
    ensures k in Keys(normalize, people) <==> exists p :: p in people && PersonKey(normalize, p) == k
  {
    if people != [] {
      KeyOfMember(normalize, people[1..], k);
      assert people == [people[0]] + people[1..];
    }
  }

  lemma {:induction false} KeptIsDistinct(normalize: string -> string, rows: seq<Person>, wanted: seq<Person>)
    requires Distinct(Keys(normalize, rows))
    ensures Distinct(Keys(normalize, Kept(rows, wanted)))
  {
    if rows != [] {
      var k, rest := PersonKey(normalize, rows[0]), Kept(rows[1..], wanted);
      DistinctTail(k, Keys(normalize, rows[1..]));
      KeptIsDistinct(normalize, rows[1..], wanted);
      KeyOfMember(normalize, rest, k);
      KeyOfMember(normalize, rows[1..], k);
      DistinctCons(k, Keys(normalize, rest));
      if rows[0] in wanted {
        KeysCons(normalize, rows[0], rest);
        assert Kept(rows, wanted) == [rows[0]] + rest;
      } else {
        assert Kept(rows, wanted) == [] + rest == rest;
      }
    }
  }

  lemma DistinctTail(k: string, keys: seq<string>)
    requires Distinct([k] + keys)
    ensures Distinct(keys) && k !in keys
  {
    var all := [k] + keys;
    assert all[0] == k;
    assert forall i :: 0 <= i < |keys| ==> keys[i] == all[i + 1] && all[0] != all[i + 1];
    forall i, j | 0 <= i < j < |keys|
      ensures keys[i] != keys[j]
    {
      assert all[i + 1] != all[j + 1];
    }
  }

  lemma DistinctCons(k: string, keys: seq<string>)
    requires Distinct(keys) && k !in keys
    ensures Distinct([k] + keys)
  {
  }

  lemma KeysCons(normalize: string -> string, p: Person, people: seq<Person>)
    ensures Keys(normalize, [p] + people) == [PersonKey(normalize, p)] + Keys(normalize, people)
  {
    assert ([p] + people)[1..] == people;
  }

  lemma AddHasKeys(normalize: string -> string, people: seq<Person>, p: Person, k: string)
    ensures k in Keys(normalize, AddPerson(normalize, people, p))
       <==> k in Keys(normalize, people) || k == PersonKey(normalize, p)
  {
    KeysAppend(normalize, people, [p]);
    assert Keys(normalize, [p]) == [PersonKey(normalize, p)];
  }

  /** Inserting keeps the keys distinct, and ends with those of both lists. */
  lemma {:induction false} InsertedKeys(normalize: string -> string, rows: seq<Person>, wanted: seq<Person>)
    requires Distinct(Keys(normalize, rows))
    ensures Distinct(Keys(normalize, Inserted(normalize, rows, wanted)))
    ensures forall k :: k in Keys(normalize, Inserted(normalize, rows, wanted))
                   <==> k in Keys(normalize, rows) || k in Keys(normalize, wanted)
    decreases |wanted|
  {
    if wanted != [] {
      var rows' := AddPerson(normalize, rows, wanted[0]);
      AddKeepsDistinct(normalize, rows, wanted[0]);
      InsertedKeys(normalize, rows', wanted[1..]);
      forall k: string
        ensures k in Keys(normalize, rows') <==> k in Keys(normalize, rows) || k == PersonKey(normalize, wanted[0])
      {
        AddHasKeys(normalize, rows, wanted[0], k);
      }
    }
  }

  /** The stored list has each key of the resolved guests once, and no other. */
  lemma StoredKeys(site: Site, rows: seq<Person>, sent: seq<Person>)
    requires WellFormed(site, rows) && Store(site, rows, sent).Some?
    ensures
      var stored, wanted := Store(site, rows, sent).value, ResolveAll(site, rows, sent).value;
      && Distinct(Keys(site.normalize, stored))
      && forall k :: k in Keys(site.normalize, stored) <==> k in Keys(site.normalize, wanted)
  {
    var wanted := ResolveAll(site, rows, sent).value;
    KeptIsDistinct(site.normalize, rows, wanted);
    InsertedKeys(site.normalize, Kept(rows, wanted), wanted);
    forall k | k in Keys(site.normalize, Kept(rows, wanted))
      ensures k in Keys(site.normalize, wanted)
    {
      KeyOfMember(site.normalize, Kept(rows, wanted), k);
      KeyOfMember(site.normalize, wanted, k);
    }
  }

  // ----- lists as multisets -----

  lemma {:induction false} DistinctCount(a: seq<string>, k: string)
    requires Distinct(a)
    ensures multiset(a)[k] == if k in a then 1 else 0
  {
    if a != [] {
      DistinctCount(a[1..], k);
      assert a == [a[0]] + a[1..];
    }
  }

  lemma RepeatedCount(a: seq<string>, i: nat, j: nat)
    requires i < j < |a| && a[i] == a[j]
    ensures multiset(a)[a[i]] >= 2
  {
    assert a == a[..j] + [a[j]] + a[j + 1..];
    assert a[i] in a[..j] && a[i] in multiset(a[..j]);
    assert multiset(a) == multiset(a[..j]) + multiset{a[j]} + multiset(a[j + 1..]);
  }

  lemma DistinctMultiset(a: seq<string>, b: seq<string>)
    requires Distinct(a)
    ensures multiset(a) == multiset(b) <==> Distinct(b) && forall k :: k in a <==> k in b
  {
    if multiset(a) == multiset(b) {
      forall i, j | 0 <= i < j < |b|
        ensures b[i] != b[j]
      {
        DistinctCount(a, b[i]);
        if b[i] == b[j] {
          RepeatedCount(b, i, j);
        }
      }
      assert forall k :: k in a <==> k in multiset(a);
      assert forall k :: k in b <==> k in multiset(b);
    }
    if Distinct(b) && forall k :: k in a <==> k in b {
      forall k: string
        ensures multiset(a)[k] == multiset(b)[k]
      {
        DistinctCount(a, k);
        DistinctCount(b, k);
      }
    }
  }

  // ----- when a list comes back as it was sent -----

  /** Each guest is listed once and is steady. */
  ghost predicate ComesBack(site: Site, rows: seq<Person>, people: seq<Person>) {
    && Distinct(Keys(site.normalize, people))
    && forall p :: p in people ==> Steady(site, rows, p)
  }

  lemma {:induction false} SteadyKeys(site: Site, rows: seq<Person>, people: seq<Person>)
    requires WellFormed(site, rows) && ResolveAll(site, rows, Sent(people)).Some?
    requires forall p :: p in people ==> Steady(site, rows, p)
    ensures Keys(site.normalize, ResolveAll(site, rows, Sent(people)).value) == Keys(site.normalize, people)
  {
    if people != [] {
      assert Sent(people)[1..] == Sent(people[1..]);
      SteadyKeepsKey(site, rows, people[0]);
      SteadyKeys(site, rows, people[1..]);
      var wanted := ResolveAll(site, rows, Sent(people)).value;
      var more := ResolveAll(site, rows, Sent(people[1..])).value;
      assert wanted == [Resolve(site, rows, SentPerson(people[0])).value] + more;
      assert wanted[1..] == more;
    }
  }

  lemma UnsteadyKeys(site: Site, rows: seq<Person>, people: seq<Person>, p: Person)
    requires WellFormed(site, rows) && ResolveAll(site, rows, Sent(people)).Some?
    requires p in people && !Steady(site, rows, p)
    ensures PersonKey(site.normalize, p) in Keys(site.normalize, people)
    ensures PersonKey(site.normalize, p) !in Keys(site.normalize, ResolveAll(site, rows, Sent(people)).value)
  {
    var wanted, k := ResolveAll(site, rows, Sent(people)).value, PersonKey(site.normalize, p);
    KeyOfMember(site.normalize, people, k);
    KeyOfMember(site.normalize, wanted, k);
    var n :| 0 <= n < |people| && people[n] == p;
    assert Resolve(site, rows, SentPerson(p)).Some? by {
      assert Sent(people)[n] == SentPerson(p);
    }
    forall r | r in wanted
      ensures PersonKey(site.normalize, r) != k
    {
      var i :| 0 <= i < |wanted| && wanted[i] == r;
      assert Sent(people)[i] == SentPerson(people[i]);
      UnsteadyKeyIsLost(site, rows, p, people[i]);
    }
  }

  /** A stored list has the keys of the sent one exactly when each guest is listed once and is steady. */
  lemma StoredIffComesBack(site: Site, rows: seq<Person>, people: seq<Person>)
    requires WellFormed(site, rows) && Store(site, rows, Sent(people)).Some?
    ensures
      multiset(Keys(site.normalize, Store(site, rows, Sent(people)).value)) == multiset(Keys(site.normalize, people))
      <==> ComesBack(site, rows, people)
  {
    var stored := Store(site, rows, Sent(people)).value;
    StoredKeys(site, rows, Sent(people));
    DistinctMultiset(Keys(site.normalize, stored), Keys(site.normalize, people));
    if forall p :: p in people ==> Steady(site, rows, p) {
      SteadyKeys(site, rows, people);
    } else {
      var p :| p in people && !Steady(site, rows, p);
      UnsteadyKeys(site, rows, people, p);
    }
  }

  lemma StoredKeyIsLine(site: Site, rows: seq<Person>, p: Person)
    requires WellFormed(site, rows) && '\n' !in PersonKey(site.normalize, p)
    requires Resolve(site, rows, SentPerson(p)).Some?
    ensures '\n' !in PersonKey(site.normalize, Resolve(site, rows, SentPerson(p)).value)
  {
    var r, q := Resolve(site, rows, SentPerson(p)).value, SentPerson(p);
    RowOrigin(site, rows, q);
    if r.userId.Some? {
      var a :| IsStoredAs(site, rows, a, r.userId.value);
    } else if EmailRow(site, rows, Address(site, r)).Some? {
      var row := EmailRow(site, rows, Address(site, r)).value;
      assert row in rows && IsRow(row);
    } else {
      assert site.normalize(Address(site, q)) == Address(site, q);
    }
  }

  lemma StoredLines(site: Site, rows: seq<Person>, people: seq<Person>)
    requires WellFormed(site, rows) && Store(site, rows, Sent(people)).Some? && Lines(Keys(site.normalize, people))
    ensures Lines(Keys(site.normalize, Store(site, rows, Sent(people)).value))
  {
    var stored, wanted := Store(site, rows, Sent(people)).value, ResolveAll(site, rows, Sent(people)).value;
    StoredKeys(site, rows, Sent(people));
    forall k | k in Keys(site.normalize, stored)
      ensures k != "" && '\n' !in k
    {
      KeyOfMember(site.normalize, wanted, k);
      var r :| r in wanted && PersonKey(site.normalize, r) == k;
      WantedKeyIsLine(site, rows, people, r);
    }
  }

  lemma WantedKeyIsLine(site: Site, rows: seq<Person>, people: seq<Person>, r: Person)
    requires WellFormed(site, rows) && Lines(Keys(site.normalize, people))
    requires ResolveAll(site, rows, Sent(people)).Some? && r in ResolveAll(site, rows, Sent(people)).value
    ensures PersonKey(site.normalize, r) != "" && '\n' !in PersonKey(site.normalize, r)
  {
    var wanted := ResolveAll(site, rows, Sent(people)).value;
    var n :| 0 <= n < |wanted| && wanted[n] == r;
    var k := PersonKey(site.normalize, people[n]);
    KeyOfMember(site.normalize, people, k);
    assert exists i :: 0 <= i < |people| && Keys(site.normalize, people)[i] == k;
    assert Sent(people)[n] == SentPerson(people[n]);
    StoredKeyIsLine(site, rows, people[n]);
  }

  // ----- saving -----

  /** The share after the form's patch was sent; None when the server refuses the guest list. */
  function Saved(site: Site, rows: seq<Person>, share: Share, d: Draft, now: int): Option<Share> {
    var patch := Difference(site.normalize, share, d, now);
    if patch.grants.None? then Some(Patched(share, patch, now, share.grants))
    else
      match Store(site, rows, patch.grants.value)
      case None => None
      case Some(stored) => Some(Patched(share, patch, now, Some(stored)))
  }

  /** Nothing but the guests can be left to send. */
  lemma OnlyGuestsRemain(normalize: string -> string, share: Share, d: Draft, now: int, grants: Option<seq<Person>>)
    ensures
      var share' := Patched(share, Difference(normalize, share, d, now), now, grants);
      var again := Difference(normalize, share', d, now);
      && again == NOTHING.(grants := again.grants)
      && share'.policy == OrElse(d.policy, share.policy) && share'.grants == grants
  {
    if d.expiry.Some? {
      ScaleRoundTrip(d.expiry.value, now, now);
    }
  }

  /**
   Saving a draft and comparing it again at the same instant leaves nothing to send exactly when no guest list was to be
   sent, or each guest of it is listed once and is steady.
   */
  lemma SavingConverges(site: Site, rows: seq<Person>, share: Share, d: Draft, now: int)
    requires WellFormed(site, rows) && Saved(site, rows, share, d, now).Some?
    requires d.people.Some? ==> Lines(Keys(site.normalize, d.people.value))
    ensures
      Difference(site.normalize, Saved(site, rows, share, d, now).value, d, now) == NOTHING
      <==> (SendsPeople(site.normalize, share, d) ==> ComesBack(site, rows, d.people.value))
  {
    var share' := Saved(site, rows, share, d, now).value;
    OnlyGuestsRemain(site.normalize, share, d, now, share'.grants);
    if SendsPeople(site.normalize, share, d) {
      var people := d.people.value;
      var stored := Store(site, rows, Sent(people)).value;
      StoredIffComesBack(site, rows, people);
      StoredLines(site, rows, people);
      SameKeysIffSamePeople(Keys(site.normalize, people), Keys(site.normalize, stored));
    }
  }

  /** Saving changes what the draft asks for and nothing else; guests that were not asked for are left alone. */
  lemma SavingDoesWhatTheDraftSays(site: Site, rows: seq<Person>, share: Share, d: Draft, now: int)
    requires Saved(site, rows, share, d, now).Some?
    ensures
      var share' := Saved(site, rows, share, d, now).value;
      && ShowsDraft(share', share, d, now)
      && (d.people.None? || share'.policy != People ==> share'.grants == share.grants)
  {
    PatchShowsDraft(site.normalize, share, d, now);
  }

  /** Where nobody has an account, every list without repetitions comes back. */
  lemma WithoutAccountsSavingConverges(site: Site, rows: seq<Person>, share: Share, d: Draft, now: int)
    requires WellFormed(site, rows) && Saved(site, rows, share, d, now).Some? && site.accounts == []
    requires d.people.Some? ==>
      Lines(Keys(site.normalize, d.people.value)) && Distinct(Keys(site.normalize, d.people.value))
    ensures Difference(site.normalize, Saved(site, rows, share, d, now).value, d, now) == NOTHING
  {
    SavingConverges(site, rows, share, d, now);
    if SendsPeople(site.normalize, share, d) {
      var people := d.people.value;
      forall p | p in people
        ensures Steady(site, rows, p)
      {
        var n :| 0 <= n < |people| && people[n] == p;
        assert Sent(people)[n] == SentPerson(p);
        assert Resolve(site, rows, SentPerson(p)).Some?;
      }
    }
  }

  const ADA := Account("7", "a@b.c", true)
  const ADA_ONLY := Site(s => s, s => true, [ADA])
  const INVITED := Draft(None, None, None, None, None, Some([Person(None, Some("a@b.c"))]))

  /** The failing case: the address of somebody who has verified it is stored as the account, so the same draft would be
      sent again, and change nothing. */
  lemma ResolvedAddressIsSentAgain(now: int)
    ensures
      var share := Share(None, None, People, None, None, None);
      var first := Saved(ADA_ONLY, [], share, INVITED, now);
      && WellFormed(ADA_ONLY, [])
      && first.Some? && first.value.grants == Some([Person(Some("7"), None)])
      && Difference(ADA_ONLY.normalize, first.value, INVITED, now).grants == INVITED.people
      && Saved(ADA_ONLY, [Person(Some("7"), None)], first.value, INVITED, now) == first
  {
    var share := Share(None, None, People, None, None, None);
    AdaIsWellFormed();
    StoredAsAccount([]);
    StoredAsAccount([Person(Some("7"), None)]);
    InvitedDiffers(share);
    InvitedDiffers(share.(grants := Some([Person(Some("7"), None)])));
  }

  lemma AdaIsWellFormed()
    ensures WellFormed(ADA_ONLY, [])
  {
    assert '7' != '\n' && "7"[1..] == "";
    assert Trim("7") == "7";
  }

  lemma StoredAsAccount(rows: seq<Person>)
    requires rows == [] || rows == [Person(Some("7"), None)]
    ensures Store(ADA_ONLY, rows, [Person(None, Some("a@b.c"))]) == Some([Person(Some("7"), None)])
  {
    var sent, row := [Person(None, Some("a@b.c"))], Person(Some("7"), None);
    assert VerifiedAccount(ADA_ONLY, [ADA], "a@b.c") == Some(ADA);
    assert rows != [] ==> rows[1..] == [];
    assert EmailRow(ADA_ONLY, rows, "a@b.c") == None;
    assert Resolve(ADA_ONLY, rows, sent[0]) == Some(row);
    assert sent[1..] == [] && ResolveAll(ADA_ONLY, rows, sent[1..]) == Some([]);
    var none: seq<Person> := [];
    assert [row] + none == [row];
    assert ResolveAll(ADA_ONLY, rows, sent) == Some([row]);
    var kept := Kept(rows, [row]);
    assert rows != [] ==> Kept(rows[1..], [row]) == [];
    assert kept == rows;
    assert Keys(ADA_ONLY.normalize, [row]) == [PersonKey(ADA_ONLY.normalize, row)] by {
      assert [row][1..] == [];
    }
    assert AddPerson(ADA_ONLY.normalize, rows, row) == [row];
    assert [row][1..] == [];
  }

  lemma InvitedDiffers(share: Share)
    requires share.policy == People && (share.grants == None || share.grants == Some([Person(Some("7"), None)]))
    ensures SendsPeople(ADA_ONLY.normalize, share, INVITED) && Sent(INVITED.people.value) == INVITED.people.value
  {
    var n, invited, account := ADA_ONLY.normalize, [Person(None, Some("a@b.c"))], [Person(Some("7"), None)];
    assert "e:" + "a@b.c" == "e:a@b.c" && "u:" + "7" == "u:7";
    assert invited[1..] == [] && account[1..] == [];
    assert Keys(n, invited) == ["e:a@b.c"] && Keys(n, account) == ["u:7"] && Keys(n, []) == [];
    var listed := Keys(n, Listed(share));
    SameKeysIffSamePeople(["e:a@b.c"], listed);
    assert "e:a@b.c" in multiset(["e:a@b.c"]) && "e:a@b.c" !in multiset(listed);
    assert Sent(invited) == invited;
  }
}
