/** The local credential checks of src/utils/authUtils.ts. */
module AuthUtils {
  import opened Ascii

  /** A run of at least one character, none of them whitespace or '@': the regex `[^\s@]+`. */
  predicate Plain(s: string) {
    |s| > 0 && forall i :: 0 <= i < |s| ==> s[i] != '@' && !IsWhitespace(s[i])
  }

  /** `email` reads as `[^\s@]+ @ [^\s@]+ \. [^\s@]+` with the '@' at index `at` and the
      separating '.' at index `dot`. */
  predicate SplitsAt(email: string, at: nat, dot: nat) {
    at < dot < |email| && email[at] == '@' && email[dot] == '.' &&
    Plain(email[..at]) && Plain(email[at + 1..dot]) && Plain(email[dot + 1..])
  }

  /** validateEmail: the whole string matches /^[^\s@]+@[^\s@]+\.[^\s@]+$/. */
  predicate ValidateEmail(email: string)
    ensures ValidateEmail(email) ==> 5 <= |email| && '@' in email && '.' in email
  {
    exists at: nat, dot: nat | at < dot < |email| :: SplitsAt(email, at, dot)
  }

  predicate NoWhitespace(s: string) {
    forall i :: 0 <= i < |s| ==> !IsWhitespace(s[i])
  }

  /** The only '@' of `s` is at index `at`. */
  predicate OnlyAtSignAt(s: string, at: nat) {
    at < |s| && s[at] == '@' && forall i :: 0 <= i < |s| && s[i] == '@' ==> i == at
  }

  /** `domain` has a '.' that is neither its first nor its last character. */
  predicate HasInnerDot(domain: string) {
    exists k :: 0 < k < |domain| - 1 && domain[k] == '.'
  }

  /** The shape of a valid address stated character by character: no whitespace, exactly one
      '@' with something before it, and an inner '.' in the part after it. */
  predicate EmailShape(email: string) {
    NoWhitespace(email) &&
    exists at: nat | at < |email| :: 0 < at && OnlyAtSignAt(email, at) && HasInnerDot(email[at + 1..])
  }

  lemma SplitGivesShape(email: string, at: nat, dot: nat)
    requires SplitsAt(email, at, dot)
    ensures EmailShape(email)
  {
    var local, host, tld := email[..at], email[at + 1..dot], email[dot + 1..];
    forall i | 0 <= i < |email|
      ensures !IsWhitespace(email[i]) && (email[i] == '@' ==> i == at)
    {
      if i < at {
        assert email[i] == local[i];
      } else if at < i < dot {
        assert email[i] == host[i - at - 1];
      } else if dot < i {
        assert email[i] == tld[i - dot - 1];
      }
    }
    var domain := email[at + 1..];
    assert domain[dot - at - 1] == '.';
    assert |local| > 0 && OnlyAtSignAt(email, at) && HasInnerDot(domain);
  }

  lemma ShapeGivesSplit(email: string)
    requires EmailShape(email)
    ensures ValidateEmail(email)
  {
    var at: nat :| at < |email| && 0 < at && OnlyAtSignAt(email, at) && HasInnerDot(email[at + 1..]);
    var domain := email[at + 1..];
    var k :| 0 < k < |domain| - 1 && domain[k] == '.';
    var dot: nat := at + 1 + k;
    assert email[dot] == '.';
    forall i | 0 <= i < |email| && i != at
      ensures email[i] != '@' && !IsWhitespace(email[i])
    {
    }
    assert Plain(email[..at]) by {
      forall i | 0 <= i < at ensures email[..at][i] == email[i] { }
    }
    var host, tld := email[at + 1..dot], email[dot + 1..];
    assert Plain(host) by {
      forall i | 0 <= i < |host| ensures host[i] == email[at + 1 + i] { }
    }
    assert Plain(tld) by {
      forall i | 0 <= i < |tld| ensures tld[i] == email[dot + 1 + i] { }
    }
    assert SplitsAt(email, at, dot);
  }

  /** The regex and the character-by-character shape accept the same strings. */
  lemma ValidateEmailIsShape(email: string)
    ensures ValidateEmail(email) <==> EmailShape(email)
  {
    if ValidateEmail(email) {
      var at: nat, dot: nat :| at < dot < |email| && SplitsAt(email, at, dot);
      SplitGivesShape(email, at, dot);
    }
    if EmailShape(email) {
      ShapeGivesSplit(email);
    }
  }

  /** A string holding any whitespace character is rejected. */
  lemma WhitespaceRejected(email: string, i: nat)
    requires i < |email| && IsWhitespace(email[i])
    ensures !ValidateEmail(email)
  {
    ValidateEmailIsShape(email);
  }

  /** An accepted address has exactly one '@', not at the start, and its domain has a '.'
      that is neither first nor last. */
  lemma AcceptedHasOneAtAndInnerDot(email: string)
    requires ValidateEmail(email)
    ensures exists at: nat :: 0 < at && OnlyAtSignAt(email, at) && HasInnerDot(email[at + 1..])
  {
    ValidateEmailIsShape(email);
  }

  lemma EmailExamples()
    ensures ValidateEmail("a@b.c")
    ensures !ValidateEmail("a@.c")
    ensures !ValidateEmail("a@b.")
  {
    assert SplitsAt("a@b.c", 1, 3);
    ValidateEmailIsShape("a@.c");
    ValidateEmailIsShape("a@b.");
  }

  /** The result of validatePassword. */
  datatype PasswordCheck = PasswordCheck(valid: bool, message: string)

  const MinPasswordLength := 6
  const PasswordTooShort := "Password must be at least 6 characters"

  /** validatePassword: passwords shorter than six characters are refused with a message. */
  function ValidatePassword(password: string): (r: PasswordCheck)
    ensures r.valid <==> |password| >= MinPasswordLength
    ensures r.valid <==> r.message == ""
    ensures !r.valid ==> r.message == PasswordTooShort
  {
    if |password| < MinPasswordLength then PasswordCheck(false, PasswordTooShort)
    else PasswordCheck(true, "")
  }
}
