/**
 * The password rules the account forms share: the two error texts and the
 * order in which they are checked, with the length counted as JavaScript's
 * `length` counts it, in UTF-16 code units.
 */
module Forms {
  import opened Common

  const MismatchError := "Les mots de passe ne correspondent pas."
  const TooShortError := "Le mot de passe doit contenir au moins 8 caractères."
  const MinPasswordLength := 8

  /** The UTF-16 length of a string: characters beyond the basic plane take two code units. */
  function Utf16Length(s: string): (n: nat)
    ensures |s| <= n <= 2 * |s|
    ensures (forall k :: 0 <= k < |s| ==> (s[k] as int) < 0x1_0000) ==> n == |s|
    ensures |s| == 1 ==> n == if (s[0] as int) >= 0x1_0000 then 2 else 1
  {
    if s == [] then 0
    else
      assert forall k :: 1 <= k < |s| ==> s[k] == s[1..][k - 1];
      (if (s[0] as int) >= 0x1_0000 then 2 else 1) + Utf16Length(s[1..])
  }

  /**
   * The length of a concatenation is the sum of the lengths; with the
   * one-character values of `Utf16Length`'s contract this fixes the length of
   * every string: one unit per basic-plane character, two per other character.
   */
  lemma {:induction false} Utf16LengthAppend(a: string, b: string)
    ensures Utf16Length(a + b) == Utf16Length(a) + Utf16Length(b)
    decreases |a|
  {
    if a == [] {
      assert a + b == b;
    } else {
      Utf16LengthAppend(a[1..], b);
      assert (a + b)[1..] == a[1..] + b;
    }
  }

  /**
   * The first problem with a new password, if any: a mismatch with the
   * confirmation is reported before a password shorter than eight code units.
   */
  function PasswordProblem(password: string, confirmation: string): (problem: Option<string>)
    ensures problem.None? <==> password == confirmation && Utf16Length(password) >= MinPasswordLength
    ensures password != confirmation ==> problem == Some(MismatchError)
    ensures password == confirmation && Utf16Length(password) < MinPasswordLength ==> problem == Some(TooShortError)
  {
    if password != confirmation then Some(MismatchError)
    else if Utf16Length(password) < MinPasswordLength then Some(TooShortError)
    else None
  }

  /** An accepted password is never empty, and any eight characters are long enough. */
  lemma AcceptedPasswordIsNonEmpty(password: string, confirmation: string)
    ensures PasswordProblem(password, confirmation).None? ==> |password| >= 4 && password != ""
    ensures password == confirmation && |password| >= MinPasswordLength ==> PasswordProblem(password, confirmation).None?
  {
  }

  /** Four characters from beyond the basic plane are eight code units, so they pass the length rule. */
  lemma FourAstralCharactersPass()
    ensures PasswordProblem("\U{1F600}\U{1F600}\U{1F600}\U{1F600}", "\U{1F600}\U{1F600}\U{1F600}\U{1F600}").None?
  {
    var p := "\U{1F600}\U{1F600}\U{1F600}\U{1F600}";
    assert p[1..][1..][1..][1..] == [];
  }
}
