/**
 * `EmailService`: the address check `^[^@\s]+@[^@\s]+\.[^@\s]+$` and the
 * simulated send that rejects an invalid recipient.
 */
module Email {
  import opened Wrappers
  import opened Text
  import Seqs

  /** A character of the class `[^@\s]`. */
  predicate Plain(c: char) {
    c != '@' && !IsWhitespace(c)
  }

  predicate AllPlain(s: string) {
    forall k :: 0 <= k < |s| ==> Plain(s[k])
  }

  /**
   * The strings the pattern accepts: a non-empty local part, one `@`, and a
   * domain with a `.` that is neither its first nor its last character; no
   * other `@` and no whitespace anywhere.
   */
  ghost predicate IsAddress(s: string) {
    exists at, dot :: 0 < at && at + 1 < dot < |s| - 1 && s[at] == '@' && s[dot] == '.'
      && forall k :: 0 <= k < |s| && k != at ==> Plain(s[k])
  }

  /** `validateEmail`, decided by locating the first `@`. */
  function ValidateEmail(email: string): (ok: bool)
    ensures ok <==> IsAddress(email)
  {
    var at := Seqs.IndexOf(email, '@');
    AddressAt(email, at);
    0 < at && AllPlain(email[..at]) && AllPlain(email[at + 1..])
    && at + 3 <= |email| && '.' in email[at + 2..|email| - 1]
  }

  /** The pattern, split at the first `@` of `s` (`at`, or -1 when there is none). */
  predicate SplitsAt(s: string, at: int) {
    0 < at && at + 3 <= |s| && AllPlain(s[..at]) && AllPlain(s[at + 1..]) && '.' in s[at + 2..|s| - 1]
  }

  /** An address is the pattern split at its first `@`. */
  lemma AddressAt(s: string, at: int)
    requires at == Seqs.IndexOf(s, '@')
    ensures IsAddress(s) <==> SplitsAt(s, at)
  {
    if IsAddress(s) {
      AddressSplits(s, at);
    }
    if SplitsAt(s, at) {
      SplitsAddress(s, at);
    }
  }

  lemma AddressSplits(s: string, at: int)
    requires at == Seqs.IndexOf(s, '@') && IsAddress(s)
    ensures SplitsAt(s, at)
  {
    var a, d :| 0 < a && a + 1 < d < |s| - 1 && s[a] == '@' && s[d] == '.'
      && forall k :: 0 <= k < |s| && k != a ==> Plain(s[k]);
    assert s[a] in s;
    var head, tail, inner := s[..at], s[at + 1..], s[at + 2..|s| - 1];
    assert inner[d - at - 2] == '.';
    forall k | 0 <= k < |head| ensures Plain(head[k]) {
      assert head[k] == s[k];
    }
    forall k | 0 <= k < |tail| ensures Plain(tail[k]) {
      assert tail[k] == s[at + 1 + k];
    }
  }

  lemma SplitsAddress(s: string, at: int)
    requires at == Seqs.IndexOf(s, '@') && SplitsAt(s, at)
    ensures IsAddress(s)
  {
    var head, tail, inner := s[..at], s[at + 1..], s[at + 2..|s| - 1];
    var j :| 0 <= j < |inner| && inner[j] == '.';
    var d := at + 2 + j;
    assert s[d] == '.';
    forall k | 0 <= k < |s| && k != at
      ensures Plain(s[k])
    {
      if k < at {
        assert s[k] == head[k];
      } else {
        assert s[k] == tail[k - at - 1];
      }
    }
  }

  /** A valid address holds exactly one `@` and no whitespace. */
  lemma AddressShape(s: string)
    requires IsAddress(s)
    ensures multiset(s)['@'] == 1
    ensures forall k :: 0 <= k < |s| ==> !IsWhitespace(s[k])
  {
    var a, d :| 0 < a && a + 1 < d < |s| - 1 && s[a] == '@' && s[d] == '.'
      && forall k :: 0 <= k < |s| && k != a ==> Plain(s[k]);
    forall k | 0 <= k < |s| && k != a
      ensures s[k] != '@' && !IsWhitespace(s[k])
    {
      assert Plain(s[k]);
    }
    SingleAt(s, a);
  }

  /** A string whose only `@` is at index `a` counts one `@`. */
  lemma SingleAt(s: string, a: int)
    requires 0 <= a < |s| && s[a] == '@'
    requires forall k :: 0 <= k < |s| && k != a ==> s[k] != '@'
    ensures multiset(s)['@'] == 1
  {
    var head, tail := s[..a], s[a + 1..];
    assert s == head + [s[a]] + tail;
    assert '@' !in head by {
      forall k | 0 <= k < |head| ensures head[k] != '@' {
        assert head[k] == s[k];
      }
    }
    assert '@' !in tail by {
      forall k | 0 <= k < |tail| ensures tail[k] != '@' {
        assert tail[k] == s[a + 1 + k];
      }
    }
  }

  datatype EmailMessage = EmailMessage(to: string, subject: string, body: string, from: Option<string>)

  /** What the returned observable delivers: an error, or one success value. */
  datatype SendOutcome = Failed(error: string) | Sent(success: bool, message: string)

  const InvalidRecipient := "Invalid recipient email address"
  const SimulatedSuccess := "Email sent successfully (simulated)"

  /** `sendEmail`: only the recipient decides the outcome. */
  function SendEmail(message: EmailMessage): (r: SendOutcome)
    ensures r.Failed? <==> !IsAddress(message.to)
    ensures r.Failed? ==> r.error == InvalidRecipient
    ensures r.Sent? ==> r.success && r.message == SimulatedSuccess
  {
    if !ValidateEmail(message.to) then Failed(InvalidRecipient)
    else Sent(true, SimulatedSuccess)
  }

  /** The documented example address passes; one without a dotted domain does not. */
  lemma ExampleAddresses()
    ensures IsAddress("test@example.com")
    ensures !IsAddress("user@localhost")
  {
    var good, bad := "test@example.com", "user@localhost";
    assert good[4] == '@' && good[12] == '.';
    assert forall k :: 0 <= k < |good| && k != 4 ==> Plain(good[k]);
    assert forall k :: 0 <= k < |bad| ==> bad[k] != '.';
  }

}
