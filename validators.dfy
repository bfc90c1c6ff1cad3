/** The shape rules the handlers apply to shortcuts and names before touching the store.
    Letters are the ASCII letters; upper-casing maps `a`..`z` to `A`..`Z`. */
module Validators {
  import opened DbModel

  predicate IsLower(c: char)
  {
    'a' <= c <= 'z'
  }

  predicate IsLetter(c: char)
  {
    'a' <= c <= 'z' || 'A' <= c <= 'Z'
  }

  function UpperChar(c: char): char
  {
    if IsLower(c) then (c as int - 32) as char else c
  }

  /** `str.upper()`. */
  function Upper(s: string): (r: string)
    ensures |r| == |s|
    ensures forall i :: 0 <= i < |s| ==> !IsLower(r[i]) && (IsLetter(r[i]) <==> IsLetter(s[i]))
    ensures forall i :: 0 <= i < |s| && !IsLower(s[i]) ==> r[i] == s[i]
    ensures forall i :: 0 <= i < |s| && IsLower(s[i]) ==> r[i] as int == s[i] as int - 32
  {
    if s == [] then [] else [UpperChar(s[0])] + Upper(s[1..])
  }

  /** `str.isalpha()`: true only for a non-empty string of letters. */
  predicate IsAlpha(s: string)
  {
    |s| > 0 && forall i :: 0 <= i < |s| ==> IsLetter(s[i])
  }

  /** `len(shortcut) != 3 or not shortcut.isalpha()` rejects, after upper-casing. */
  predicate IsShortcut(s: string)
  {
    |s| == 3 && IsAlpha(s)
  }

  /** A shortcut as given in a request, accepted once upper-cased. */
  predicate ShortcutAccepted(raw: string)
  {
    IsShortcut(Upper(raw))
  }

  /** Python truthiness of an optional string: present and not empty. */
  predicate Truthy(s: Option<string>)
  {
    s.Some? && s.value != ""
  }

  /** `if name and not name.isalpha()` rejects: a missing or empty name passes. */
  predicate NameAccepted(name: Option<string>)
  {
    !Truthy(name) || IsAlpha(name.value)
  }

  /** A shortcut is accepted exactly when the text given has three letters, in either case. */
  lemma ShortcutAcceptedIff(raw: string)
    ensures ShortcutAccepted(raw) <==> |raw| == 3 && forall i :: 0 <= i < 3 ==> IsLetter(raw[i])
  {
    var u := Upper(raw);
    if |raw| == 3 && forall i :: 0 <= i < 3 ==> IsLetter(raw[i]) {
      assert forall i :: 0 <= i < |u| ==> IsLetter(u[i]);
    }
  }

  /** What is stored for an accepted shortcut is three capital letters. */
  lemma AcceptedShortcutIsCapitals(raw: string)
    requires ShortcutAccepted(raw)
    ensures forall i :: 0 <= i < |Upper(raw)| ==> 'A' <= Upper(raw)[i] <= 'Z'
  {
  }

  /** Text without lower-case letters is stored as given. */
  lemma UpperKeepsCapitals(s: string)
    requires forall i :: 0 <= i < |s| ==> !IsLower(s[i])
    ensures Upper(s) == s
  {
    assert forall i :: 0 <= i < |s| ==> Upper(s)[i] == s[i];
  }

  /** Upper-casing twice changes nothing more. */
  lemma {:induction false} UpperIdempotent(s: string)
    ensures Upper(Upper(s)) == Upper(s)
  {
    if s != [] {
      UpperIdempotent(s[1..]);
      assert Upper(s)[1..] == Upper(s[1..]);
    }
  }
}
