/** The credential check of src/side-effects.js: the pure predicate `isValid` and
    the orchestrator `createUser`, which is the only place that logs.

    JavaScript strings are sequences of UTF-16 code units, while a Dafny `string`
    is a sequence of Unicode scalar values. Email and password are therefore
    modelled as well-formed strings only (no unpaired surrogates, no values of
    other types), and for those `password.length` is `Utf16Length`, which counts
    a character outside the Basic Multilingual Plane as two units. */
module Credentials {

  const InvalidInput := "Invalid input!"

  /** `needle` occurs in `s` starting at index `i`. */
  ghost predicate OccursAt(s: string, needle: string, i: int) {
    0 <= i && i + |needle| <= |s| && s[i..i + |needle|] == needle
  }

  lemma OccursInTail(s: string, needle: string)
    requires |s| > 0 && !OccursAt(s, needle, 0)
    ensures (exists i :: OccursAt(s, needle, i)) <==> (exists j :: OccursAt(s[1..], needle, j))
  {
    forall j | OccursAt(s[1..], needle, j)
      ensures OccursAt(s, needle, j + 1)
    {
      assert s[1..][j..j + |needle|] == s[j + 1..j + 1 + |needle|];
    }
    forall i | OccursAt(s, needle, i)
      ensures OccursAt(s[1..], needle, i - 1)
    {
      assert i != 0;
      assert s[1..][i - 1..i - 1 + |needle|] == s[i..i + |needle|];
    }
  }

  /** `String.prototype.includes`: a left-to-right scan for `needle` at each start
      position. The empty needle occurs everywhere. */
  function Includes(s: string, needle: string): (r: bool)
    ensures r <==> exists i :: OccursAt(s, needle, i)
    decreases |s|
  {
    if |needle| > |s| then false
    else if s[..|needle|] == needle then
      assert OccursAt(s, needle, 0);
      true
    else
      OccursInTail(s, needle);
      Includes(s[1..], needle)
  }

  /** Searching for a one-character string is membership of that character. */
  lemma IncludesCharacter(s: string, c: char)
    ensures Includes(s, [c]) <==> c in s
  {
    if c in s {
      var i :| 0 <= i < |s| && s[i] == c;
      assert OccursAt(s, [c], i);
    }
    if Includes(s, [c]) {
      var i :| OccursAt(s, [c], i);
      assert s[i] == s[i..i + 1][0] == c;
    }
  }

  /** How many UTF-16 code units encode `c`. */
  function CodeUnits(c: char): nat {
    if c as int > 0xFFFF then 2 else 1
  }

  /** JavaScript's `length` of a string: its count of UTF-16 code units. */
  function Utf16Length(s: string): (n: nat)
    ensures |s| <= n <= 2 * |s|
  {
    if |s| == 0 then 0 else CodeUnits(s[0]) + Utf16Length(s[1..])
  }

  lemma {:induction false} Utf16LengthAppend(p: string, q: string)
    ensures Utf16Length(p + q) == Utf16Length(p) + Utf16Length(q)
    decreases |p|
  {
    if |p| == 0 {
      assert p + q == q;
    } else {
      assert (p + q)[0] == p[0];
      assert (p + q)[1..] == p[1..] + q;
      Utf16LengthAppend(p[1..], q);
    }
  }

  /** Every character of `s` lies in the Basic Multilingual Plane. */
  predicate IsBmp(s: string) {
    forall i :: 0 <= i < |s| ==> s[i] as int <= 0xFFFF
  }

  lemma {:induction false} BmpLength(s: string)
    requires IsBmp(s)
    ensures Utf16Length(s) == |s|
    decreases |s|
  {
    if |s| > 0 {
      assert IsBmp(s[1..]) by {
        forall i | 0 <= i < |s[1..]|
          ensures s[1..][i] as int <= 0xFFFF
        {
          assert s[1..][i] == s[i + 1];
        }
      }
      BmpLength(s[1..]);
    }
  }

  /** `isValid`: the email contains `@` and the password is at least seven code
      units long. */
  function IsValid(email: string, password: string): (ok: bool)
    ensures ok <==> '@' in email && Utf16Length(password) >= 7
  {
    IncludesCharacter(email, '@');
    if !Includes(email, "@") || Utf16Length(password) < 7 then false else true
  }

  /** `createUser`: logs "Invalid input!" exactly when the predicate fails, and
      nothing otherwise. */
  function CreateUser(email: string, password: string): (log: seq<string>)
    ensures log == [] <==> '@' in email && Utf16Length(password) >= 7
    ensures log != [] ==> log == [InvalidInput]
  {
    if !IsValid(email, password) then [InvalidInput] else []
  }

  /** With an email that contains `@` and a password of plain characters, the
      threshold is exactly seven characters. */
  lemma PasswordLengthThreshold(email: string, password: string)
    requires '@' in email && IsBmp(password)
    ensures IsValid(email, password) <==> |password| >= 7
  {
    BmpLength(password);
  }

  lemma PasswordBoundary(email: string)
    requires '@' in email
    ensures IsValid(email, "1234567")
    ensures !IsValid(email, "123456")
  {
  }

  /** Without `@` the password does not matter. */
  lemma EmailWithoutAtRejected(email: string, password: string)
    requires '@' !in email
    ensures !IsValid(email, password)
    ensures CreateUser(email, password) == [InvalidInput]
  {
  }

  /** The `@` may sit anywhere, including the first and last position. */
  lemma AtPositionIrrelevant(local: string, domain: string, password: string)
    ensures IsValid(local + "@" + domain, password) == IsValid("@" + local + domain, password)
    ensures IsValid(local + "@" + domain, password) == IsValid(local + domain + "@", password)
    ensures IsValid(local + "@" + domain, password) <==> Utf16Length(password) >= 7
  {
  }

  /** Appending characters to an accepted password keeps it accepted. */
  lemma ExtendedPasswordStaysValid(email: string, password: string, suffix: string)
    requires IsValid(email, password)
    ensures IsValid(email, password + suffix)
  {
    Utf16LengthAppend(password, suffix);
  }

  lemma ExamplesHold()
    ensures IsValid("a@b.com", "1234567")
    ensures !IsValid("ab.com", "1234567")
    ensures !IsValid("a@b.com", "123")
  {
  }
}
