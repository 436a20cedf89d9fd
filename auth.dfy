// Password strength checking of legacy/apps/api/src/services/auth.js and
// its place in `register`. Hashing, tokens and the user store are not part
// of this model: the store lookup is a parameter.

module Auth {
  import opened Wrappers
  import opened Text

  const TooShort := "Password must be at least 8 characters long"
  const NoLetter := "Password must contain at least one letter"
  const NoNumber := "Password must contain at least one number"
  const UserExists := "Username already exists"

  /** The password rule as a reader states it; the length is JavaScript's
      `.length`, in UTF-16 code units. */
  predicate StrongPassword(password: string) {
    Utf16Length(password) >= 8
    && (exists i :: 0 <= i < |password| && IsLetter(password[i]))
    && (exists i :: 0 <= i < |password| && IsDigit(password[i]))
  }

  /** `validatePassword`: the message of the first failing check, or None
      when the password passes (`/[A-Za-z]/` and `/\d/` are searches). */
  function ValidatePassword(password: string): Option<string> {
    if Utf16Length(password) < 8 then Some(TooShort)
    else if !Any(password, IsLetter) then Some(NoLetter)
    else if !Any(password, IsDigit) then Some(NoNumber)
    else None
  }

  /** A password passes exactly when it is strong; otherwise the reported
      message is that of the first rule, in the order length, letter, digit,
      that it breaks. */
  lemma {:induction false} ValidatePasswordSpec(password: string)
    ensures ValidatePassword(password).None? <==> StrongPassword(password)
    ensures ValidatePassword(password) == Some(TooShort) <==> Utf16Length(password) < 8
    ensures ValidatePassword(password) == Some(NoLetter) <==>
      Utf16Length(password) >= 8 && forall i :: 0 <= i < |password| ==> !IsLetter(password[i])
    ensures ValidatePassword(password) == Some(NoNumber) <==>
      Utf16Length(password) >= 8 && (exists i :: 0 <= i < |password| && IsLetter(password[i]))
      && forall i :: 0 <= i < |password| ==> !IsDigit(password[i])
  {
    AnySpec(password, IsLetter);
    AnySpec(password, IsDigit);
  }

  /** `register` up to the hash: the password is checked before the user
      store is asked whether the name is taken. */
  function Register(password: string, nameTaken: bool): (r: Result<(), string>)
    ensures r.Ok? <==> StrongPassword(password) && !nameTaken
  {
    ValidatePasswordSpec(password);
    match ValidatePassword(password)
    case Some(message) => Err(message)
    case None => if nameTaken then Err(UserExists) else Ok(())
  }

  /** A weak password is refused with its own message whatever the store
      holds, so the lookup cannot change the outcome. */
  lemma {:induction false} RegisterChecksPasswordFirst(password: string, taken1: bool, taken2: bool)
    requires !StrongPassword(password)
    ensures Register(password, taken1) == Register(password, taken2)
    ensures Register(password, taken1).Err? && Register(password, taken1).error != UserExists
  {
    ValidatePasswordSpec(password);
  }

  /** Examples of the three messages and of a passing password. */
  lemma {:induction false} ShortPassword(p: string)
    requires p == "abc1"
    ensures ValidatePassword(p) == Some(TooShort)
  {
  }

  lemma {:induction false} DigitsOnlyPassword(p: string)
    requires p == "12345678"
    ensures ValidatePassword(p) == Some(NoLetter)
  {
    ValidatePasswordSpec(p);
  }

  lemma {:induction false} LettersOnlyPassword(p: string)
    requires p == "abcdefgh"
    ensures ValidatePassword(p) == Some(NoNumber)
  {
    ValidatePasswordSpec(p);
    assert IsLetter(p[0]);
  }

  lemma {:induction false} GoodPassword(p: string)
    requires p == "abcdefg1"
    ensures ValidatePassword(p) == None
  {
    ValidatePasswordSpec(p);
    assert IsLetter(p[0]) && IsDigit(p[7]);
  }
}
