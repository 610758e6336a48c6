/**
 * The forgot-password view of the client: the e-mail check, the submit
 * decision, and what the request's answer does to the messages shown.
 */
module ForgotPasswordView {
  import opened Wrappers
  import Text

  // --------------------------------------------------------- e-mail pattern

  predicate NonSpace(s: string) {
    forall t :: 0 <= t < |s| ==> !Text.IsWhitespace(s[t])
  }

  /** s[i..l] is one match of \S+@\S+\.\S+ with the '@' at j and the '.' at k. */
  predicate MatchAt(s: string, i: int, j: int, k: int, l: int) {
    && 0 <= i < j && j + 1 < k && k + 1 < l <= |s|
    && s[j] == '@' && s[k] == '.'
    && NonSpace(s[i..j]) && NonSpace(s[j + 1..k]) && NonSpace(s[k + 1..l])
  }

  /** The unanchored regular expression \S+@\S+\.\S+ matches somewhere in s. */
  ghost predicate MatchesPattern(s: string) {
    exists i, j, k, l :: MatchAt(s, i, j, k, l)
  }

  /** The shortest match around an '@' at j and a '.' at k. */
  predicate Around(s: string, j: int, k: int)
    requires 0 < j && j + 1 < k && k + 1 < |s|
  {
    s[j] == '@' && s[k] == '.' && !Text.IsWhitespace(s[j - 1]) && !Text.IsWhitespace(s[k + 1])
    && forall t :: j < t < k ==> !Text.IsWhitespace(s[t])
  }

  /** validateEmail: some '@' has a non-blank before it and a blank-free run up to a '.' with a non-blank after it. */
  function ValidateEmail(s: string): bool {
    exists j, k | 0 < j && j + 1 < k && k + 1 < |s| :: Around(s, j, k)
  }

  /** The check is exactly the regular expression. */
  lemma ValidateEmailIsPattern(s: string)
    ensures ValidateEmail(s) <==> MatchesPattern(s)
  {
    if ValidateEmail(s) {
      var j, k :| 0 < j && j + 1 < k && k + 1 < |s| && Around(s, j, k);
      var mid := s[j + 1..k];
      forall t | 0 <= t < |mid| ensures !Text.IsWhitespace(mid[t]) {
        assert mid[t] == s[j + 1 + t];
      }
      assert MatchAt(s, j - 1, j, k, k + 2);
    }
    if MatchesPattern(s) {
      var i, j, k, l :| MatchAt(s, i, j, k, l);
      assert s[i..j][j - 1 - i] == s[j - 1];
      assert s[k + 1..l][0] == s[k + 1];
      forall t | j < t < k ensures !Text.IsWhitespace(s[t]) {
        assert s[j + 1..k][t - j - 1] == s[t];
      }
      assert Around(s, j, k);
    }
  }

  lemma Examples()
    ensures ValidateEmail("a@b.c")
    ensures !ValidateEmail("a@b")
    ensures !ValidateEmail("a@.c")
    ensures ValidateEmail("see x@y.z now")
  {
    assert Around("a@b.c", 1, 3);
    assert Around("see x@y.z now", 5, 7);
  }

  /** Whatever surrounds a valid address, the text still passes: the pattern is not anchored. */
  lemma UnanchoredPasses(pre: string, s: string, post: string)
    requires ValidateEmail(s)
    ensures ValidateEmail(pre + s + post)
  {
    var j, k :| 0 < j && j + 1 < k && k + 1 < |s| && Around(s, j, k);
    var w := pre + s + post;
    var n := |pre|;
    forall t | n + j < t < n + k ensures !Text.IsWhitespace(w[t]) {
      assert w[t] == s[t - n];
    }
    assert w[n + j - 1] == s[j - 1] && w[n + k + 1] == s[k + 1];
    assert Around(w, n + j, n + k);
  }

  /** Without an '@' nothing passes. */
  lemma NeedsAt(s: string)
    requires '@' !in s
    ensures !ValidateEmail(s)
  {
  }

  // ------------------------------------------------------------------- form

  const EmailRequired := "Email is required."
  const EmailInvalid := "Please enter a valid email address."

  /** JavaScript truthiness of a nullable message: it is rendered when present and non-empty. */
  predicate Shown(m: Option<string>) {
    m.Some? && m.value != ""
  }

  class ForgotPasswordForm {
    var email: string
    var local_error: Option<string>
    var success_message: Option<string>
    /** The request bodies sent so far, oldest first. */
    var requests: seq<string>

    /** An error and a success message are never shown together. */
    predicate Valid()
      reads this
    {
      !(Shown(local_error) && Shown(success_message))
    }

    constructor ()
      ensures email == "" && local_error == None && success_message == None && requests == []
      ensures Valid()
    {
      email, local_error, success_message, requests := "", None, None, [];
    }

    method Type(s: string)
      modifies this
      ensures email == s
      ensures local_error == old(local_error) && success_message == old(success_message) && requests == old(requests)
      ensures Valid() == old(Valid())
    {
      email := s;
    }

    /**
     * The form is only on screen while the success message is falsy (null or
     * empty); an empty email and a malformed one are reported without a
     * request, in that order.
     */
    method HandleSubmit()
      requires !Shown(success_message)
      modifies this
      ensures email == "" ==> local_error == Some(EmailRequired) && requests == old(requests)
      ensures email != "" && !ValidateEmail(email) ==> local_error == Some(EmailInvalid) && requests == old(requests)
      ensures email != "" && ValidateEmail(email) ==> local_error == old(local_error) && requests == old(requests) + [email]
      ensures email == old(email) && success_message == old(success_message)
      ensures Valid()
    {
      if email == "" {
        local_error := Some(EmailRequired);
        return;
      }
      if !ValidateEmail(email) {
        local_error := Some(EmailInvalid);
        return;
      }
      requests := requests + [email];
    }

    method OnSuccess(message: string)
      modifies this
      ensures success_message == Some(message) && local_error == None
      ensures email == old(email) && requests == old(requests)
      ensures Valid()
    {
      success_message := Some(message);
      local_error := None;
    }

    method OnError(message: string)
      modifies this
      ensures local_error == Some(message) && success_message == None
      ensures email == old(email) && requests == old(requests)
      ensures Valid()
    {
      local_error := Some(message);
      success_message := None;
    }
  }

  /**
   * Submitting an empty field, then an address without a dot, then a valid
   * address: only the last one is sent, and its answer replaces the error.
   */
  method Scenario(answer: string) returns (error: Option<string>, success: Option<string>, sent: seq<string>)
    ensures error == None && success == Some(answer) && sent == ["a@b.c"]
  {
    var f := new ForgotPasswordForm();
    f.HandleSubmit();
    assert f.local_error == Some(EmailRequired);
    f.Type("a@b");
    assert !ValidateEmail("a@b");
    f.HandleSubmit();
    f.Type("a@b.c");
    assert Around("a@b.c", 1, 3);
    f.HandleSubmit();
    f.OnSuccess(answer);
    error, success, sent := f.local_error, f.success_message, f.requests;
  }
}
