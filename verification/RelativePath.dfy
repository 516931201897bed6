/**
 Relative upload paths (`safeRelativePath` in cli/src/archive.ts). Normalization Form C (Unicode Standard Annex
 #15) is a parameter: an idempotent function whose fixpoints survive the two rewritings the program makes.
 */
module RelativePath {
  import opened Prelude

  ghost predicate IsNfc(nfc: string -> string) {
    && (forall s {:trigger nfc(nfc(s))} :: nfc(nfc(s)) == nfc(s))
    && (forall s {:trigger nfc(Slashed(s))} :: nfc(s) == s ==> nfc(Slashed(s)) == Slashed(s))
    && (forall s {:trigger nfc(Undotted(s))} :: nfc(s) == s ==> nfc(Undotted(s)) == Undotted(s))
  }

  /** Every backslash becomes a slash. */
  function Slashed(s: string): (r: string)
    ensures |r| == |s| && '\\' !in r
    ensures '\\' !in s ==> r == s
  {
    if s == "" then "" else [if s[0] == '\\' then '/' else s[0]] + Slashed(s[1..])
  }

  /** One leading "./" is dropped. */
  function Undotted(s: string): string {
    if "./" <= s then s[2..] else s
  }

  function Prepared(nfc: string -> string, s: string): string {
    Undotted(Slashed(nfc(s)))
  }

  // ----- segments -----

  function Split(s: string): (parts: seq<string>)
    ensures |parts| >= 1
    ensures forall i :: 0 <= i < |parts| ==> '/' !in parts[i]
  {
    if s == "" then [""]
    else
      var rest := Split(s[1..]);
      if s[0] == '/' then [""] + rest else [[s[0]] + rest[0]] + rest[1..]
  }

  function Join(parts: seq<string>): string {
    if parts == [] then "" else if |parts| == 1 then parts[0] else parts[0] + "/" + Join(parts[1..])
  }

  /** Splitting loses nothing. */
  lemma {:induction false} JoinSplit(s: string)
    ensures Join(Split(s)) == s
  {
    if s != "" {
      var rest := Split(s[1..]);
      JoinSplit(s[1..]);
      if s[0] == '/' {
        assert ([""] + rest)[1..] == rest;
      } else {
        assert ([[s[0]] + rest[0]] + rest[1..])[1..] == rest[1..];
      }
      assert s == [s[0]] + s[1..];
    }
  }

  // ----- sizes and cases -----

  function ByteLength(s: string): nat {
    if s == "" then 0 else |Utf8(s[0])| + ByteLength(s[1..])
  }

  predicate IsLetter(c: char) {
    'a' <= c <= 'z' || 'A' <= c <= 'Z'
  }

  /** Only the Latin letters matter for the comparisons made with it. */
  function Lower(s: string): (r: string)
    ensures |r| == |s|
  {
    if s == "" then "" else [if 'A' <= s[0] <= 'Z' then s[0] + 32 as char else s[0]] + Lower(s[1..])
  }

  predicate HasDrive(s: string) {
    |s| >= 2 && IsLetter(s[0]) && s[1] == ':'
  }

  predicate IsControl(c: char) {
    c as int < 32 || c as int == 127
  }

  // ----- the check -----

  datatype Checked = Safe(path: string) | Invalid | Unsafe

  predicate Plain(part: string) {
    part != "" && part[0] != '.'
  }

  predicate SafePart(part: string) {
    Plain(part) && Lower(part) != "node_modules" && ByteLength(part) <= 255
  }

  function SafeRelativePath(nfc: string -> string, input: string): Checked {
    var s := Prepared(nfc, input);
    if s == "" || s[0] == '/' || HasDrive(s) || (exists c :: c in s && IsControl(c)) || ByteLength(s) > 1024
    then Invalid
    else if exists i :: 0 <= i < |Split(s)| && !SafePart(Split(s)[i]) then Unsafe
    else Safe(s)
  }

  /** The form of every path that goes to the server. */
  ghost predicate Canonical(nfc: string -> string, s: string) {
    && nfc(s) == s && '\\' !in s && !HasDrive(s) && ByteLength(s) <= 1024
    && (forall c :: c in s ==> !IsControl(c))
    && (forall i :: 0 <= i < |Split(s)| ==> SafePart(Split(s)[i]))
  }

  lemma FirstPart(s: string)
    requires |s| >= 2 && s[0] == '.' && s[1] == '/'
    ensures Split(s)[0] == "."
  {
    assert Split(s[1..])[0] == "";
  }

  lemma LeadingSlash(s: string)
    ensures s != "" && s[0] == '/' ==> Split(s)[0] == ""
  {
  }

  lemma UndottedChars(s: string)
    ensures forall c :: c in Undotted(s) ==> c in s
  {
  }

  lemma PreparedIsNormal(nfc: string -> string, input: string)
    requires IsNfc(nfc)
    ensures nfc(Prepared(nfc, input)) == Prepared(nfc, input) && '\\' !in Prepared(nfc, input)
  {
    var a := nfc(input);
    var b := Slashed(a);
    assert nfc(a) == a && nfc(b) == b;
    UndottedChars(b);
  }

  /** A name passes unchanged exactly when it is canonical. */
  lemma UnchangedIffCanonical(nfc: string -> string, s: string)
    requires IsNfc(nfc)
    ensures SafeRelativePath(nfc, s) == Safe(s) <==> Canonical(nfc, s)
  {
    if SafeRelativePath(nfc, s) == Safe(s) {
      PreparedIsNormal(nfc, s);
    }
    if Canonical(nfc, s) {
      assert Slashed(nfc(s)) == s;
      assert SafePart(Split(s)[0]);
      if "./" <= s {
        FirstPart(s);
      }
      LeadingSlash(s);
      assert Prepared(nfc, s) == s;
    }
  }

  /** Whatever the check returns is canonical, so checking it again changes nothing. */
  lemma AcceptedIsCanonical(nfc: string -> string, input: string)
    requires IsNfc(nfc) && SafeRelativePath(nfc, input).Safe?
    ensures
      var s := SafeRelativePath(nfc, input).path;
      Canonical(nfc, s) && SafeRelativePath(nfc, s) == Safe(s)
  {
    var s := Prepared(nfc, input);
    PreparedIsNormal(nfc, input);
    assert Canonical(nfc, s);
    UnchangedIffCanonical(nfc, s);
  }

  // ----- where a path leads -----

  /** Lexical resolution of segments against a directory, as by path.join; None when it climbs out of the top. */
  function Resolve(at: seq<string>, parts: seq<string>): Option<seq<string>>
    decreases |parts|
  {
    if parts == [] then Some(at)
    else if parts[0] == "" || parts[0] == "." then Resolve(at, parts[1..])
    else if parts[0] == ".." then if at == [] then None else Resolve(at[..|at| - 1], parts[1..])
    else Resolve(at + [parts[0]], parts[1..])
  }

  lemma {:induction false} ResolvePlain(at: seq<string>, parts: seq<string>)
    requires forall i :: 0 <= i < |parts| ==> Plain(parts[i])
    ensures Resolve(at, parts) == Some(at + parts)
    decreases |parts|
  {
    if parts == [] {
      assert at + parts == at;
    } else {
      assert Plain(parts[0]);
      ResolvePlain(at + [parts[0]], parts[1..]);
      assert at + [parts[0]] + parts[1..] == at + parts;
    }
  }

  /** An accepted path leads strictly below the root, and different paths lead to different places. */
  lemma StaysInside(nfc: string -> string, root: seq<string>, s: string)
    requires Canonical(nfc, s)
    ensures Resolve(root, Split(s)) == Some(root + Split(s)) && root < root + Split(s)
    ensures forall t :: Canonical(nfc, t) && Resolve(root, Split(t)) == Resolve(root, Split(s)) ==> t == s
  {
    assert forall i :: 0 <= i < |Split(s)| ==> SafePart(Split(s)[i]);
    ResolvePlain(root, Split(s));
    forall t | Canonical(nfc, t) && Resolve(root, Split(t)) == Resolve(root, Split(s))
      ensures t == s
    {
      ResolvePlain(root, Split(t));
      assert Split(t) == (root + Split(t))[|root|..] == (root + Split(s))[|root|..] == Split(s);
      JoinSplit(s);
      JoinSplit(t);
    }
  }
}
