/**
 * The pure classifiers of the error-monitoring service: what it reads out of
 * an arbitrary thrown value (message, stack, type name), how it grades the
 * severity, how it builds the grouping fingerprint and how a severity maps to
 * a Sentry level.
 */
module ErrorClassify {
  import opened Wrappers
  import opened Text

  /** The `error` property of a thrown value, when it is itself an object. */
  datatype Nested = Nested(message: Option<string>, stack: Option<string>)

  /**
   * The untyped `error` argument: `null`/`undefined`, a primitive string, or
   * an object with optional `message`, `stack`, nested `error` and the name of
   * its constructor (`None` for an object without a constructor).
   */
  datatype ErrorValue =
    | Nullish
    | Str(text: string)
    | Obj(message: Option<string>, stack: Option<string>, inner: Option<Nested>, ctorName: Option<string>)

  datatype Severity = Info | Warning | Error | Critical

  const UnknownMessage: string := "Unknown error occurred"
  const NoStack: string := "No stack trace available"
  const UnknownType: string := "Unknown"

  /** `error?.message`, or `error?.error?.message` when the first is falsy. */
  function OwnOrNested(own: Option<string>, inner: Option<Nested>, pick: Nested -> Option<string>): Option<string> {
    if Truthy(own) then own
    else if inner.Some? && Truthy(pick(inner.value)) then pick(inner.value)
    else None
  }

  /** `getErrorMessage`. */
  function Message(e: ErrorValue): (m: string)
    ensures e.Nullish? ==> m == UnknownMessage
    ensures e.Str? ==> m == e.text
    ensures m == "" <==> e == Str("")
    ensures e.Obj? ==> m == OwnOrNested(e.message, e.inner, (n: Nested) => n.message).GetOr(UnknownMessage)
  {
    match e
    case Nullish => UnknownMessage
    case Str(text) => text
    case Obj(message, _, inner, _) =>
      if Truthy(message) then message.value
      else if inner.Some? && Truthy(inner.value.message) then inner.value.message.value
      else UnknownMessage
  }

  /** `getErrorStack`: a primitive string has no stack. */
  function Stack(e: ErrorValue): (st: string)
    ensures st != ""
    ensures !e.Obj? ==> st == NoStack
    ensures e.Obj? ==> st == OwnOrNested(e.stack, e.inner, (n: Nested) => n.stack).GetOr(NoStack)
  {
    match e
    case Obj(_, stack, inner, _) =>
      if Truthy(stack) then stack.value
      else if inner.Some? && Truthy(inner.value.stack) then inner.value.stack.value
      else NoStack
    case _ => NoStack
  }

  /** `error?.constructor?.name || 'Unknown'`; a primitive string's constructor is `String`. */
  function ErrorType(e: ErrorValue): (t: string)
    ensures t != ""
    ensures e.Nullish? ==> t == UnknownType
    ensures e.Str? ==> t == "String"
    ensures e.Obj? ==> t == (if Truthy(e.ctorName) then e.ctorName.value else UnknownType)
  {
    match e
    case Nullish => UnknownType
    case Str(_) => "String"
    case Obj(_, _, _, ctorName) => if Truthy(ctorName) then ctorName.value else UnknownType
  }

  /**
   * A primitive string has a constructor, `String`, so a thrown string is
   * never typed with the `Unknown` sentinel.
   */
  lemma StringErrorTyped(text: string)
    ensures ErrorType(Str(text)) != UnknownType && ErrorType(Str(text)) == "String"
  {
  }

  /** `getErrorSeverity` on an already extracted message: the first matching rule wins. */
  function SeverityOf(message: string): Severity {
    var m := Lower(message);
    if Includes(m, "network") || Includes(m, "timeout") then Warning
    else if Includes(m, "unauthorized") || Includes(m, "permission") then Error
    else if Includes(m, "not found") then Info
    else Critical
  }

  function ErrorSeverity(e: ErrorValue): Severity {
    SeverityOf(Message(e))
  }

  /** Each severity is characterised by the keywords of the lower-cased message, in rule order. */
  lemma SeverityRules(message: string)
    ensures var m := Lower(message);
      && (SeverityOf(message) == Warning <==> Contains(m, "network") || Contains(m, "timeout"))
      && (SeverityOf(message) == Error <==>
            !Contains(m, "network") && !Contains(m, "timeout")
            && (Contains(m, "unauthorized") || Contains(m, "permission")))
      && (SeverityOf(message) == Info <==>
            !Contains(m, "network") && !Contains(m, "timeout") && !Contains(m, "unauthorized")
            && !Contains(m, "permission") && Contains(m, "not found"))
      && (SeverityOf(message) == Critical <==>
            !Contains(m, "network") && !Contains(m, "timeout") && !Contains(m, "unauthorized")
            && !Contains(m, "permission") && !Contains(m, "not found"))
  {
  }

  /**
   * `network` or `timeout` written anywhere in the message with any ASCII
   * capitalisation (`Network`, `TIMEOUT`, ...) makes the error a warning.
   */
  lemma AnyCaseKeywordWarns(message: string, keyword: string, i: int)
    requires keyword == "network" || keyword == "timeout"
    requires 0 <= i && i + |keyword| <= |message| && Lower(message[i..i + |keyword|]) == keyword
    ensures SeverityOf(message) == Warning
  {
    assert Lower(message)[i..i + |keyword|] == Lower(message[i..i + |keyword|]);
    assert OccursAt(Lower(message), keyword, i);
  }

  /**
   * A keyword is absent from the lower-cased message when one of its letters
   * is, in both cases, among `letters`, which the message avoids.
   */
  lemma KeywordAbsent(message: string, letters: string, keyword: string, c: char)
    requires 'a' <= c <= 'z' && c in keyword && c in letters && (c as int - 32) as char in letters
    requires forall i :: 0 <= i < |message| ==> message[i] !in letters
    ensures !Contains(Lower(message), keyword)
  {
    LowerMissing(message, c, (c as int - 32) as char);
    MissingCharNotContained(Lower(message), keyword, c);
  }

  /** The lower-cased message holds none of the keywords. */
  ghost predicate NoKeyword(m: string) {
    !Contains(m, "network") && !Contains(m, "timeout") && !Contains(m, "unauthorized")
    && !Contains(m, "permission") && !Contains(m, "not found")
  }

  lemma CriticalWithoutKeyword(message: string)
    requires NoKeyword(Lower(message))
    ensures SeverityOf(message) == Critical
  {
    SeverityRules(message);
  }

  /**
   * A message avoiding `letters` has no keyword when each keyword has a letter
   * that `letters` holds in both cases.
   */
  lemma NoKeywordWhenLacking(message: string, letters: string, n: char, t: char, u: char, p: char, f: char)
    requires forall i :: 0 <= i < |message| ==> message[i] !in letters
    requires 'a' <= n <= 'z' && n in "network" && n in letters && (n as int - 32) as char in letters
    requires 'a' <= t <= 'z' && t in "timeout" && t in letters && (t as int - 32) as char in letters
    requires 'a' <= u <= 'z' && u in "unauthorized" && u in letters && (u as int - 32) as char in letters
    requires 'a' <= p <= 'z' && p in "permission" && p in letters && (p as int - 32) as char in letters
    requires 'a' <= f <= 'z' && f in "not found" && f in letters && (f as int - 32) as char in letters
    ensures NoKeyword(Lower(message))
  {
    KeywordAbsent(message, letters, "network", n);
    KeywordAbsent(message, letters, "timeout", t);
    KeywordAbsent(message, letters, "unauthorized", u);
    KeywordAbsent(message, letters, "permission", p);
    KeywordAbsent(message, letters, "not found", f);
  }

  /** Null and undefined are reported with the sentinel message and are critical. */
  lemma NullishIsCritical()
    ensures Message(Nullish) == UnknownMessage
    ensures ErrorSeverity(Nullish) == Critical
  {
    NoKeywordWhenLacking(UnknownMessage, "tTaApP", 't', 't', 'a', 'p', 't');
    CriticalWithoutKeyword(UnknownMessage);
  }

  /** A message without any of the keywords, such as `API test error`, is critical. */
  lemma ApiTestErrorIsCritical()
    ensures ErrorSeverity(Obj(Some("API test error"), None, None, Some("Error"))) == Critical
  {
    NoKeywordWhenLacking("API test error", "nNuUmM", 'n', 'u', 'u', 'm', 'n');
    CriticalWithoutKeyword("API test error");
  }

  /** A lower-case letter absent from `s` in both cases is absent from `Lower(s)`. */
  lemma LowerMissing(s: string, lower: char, upper: char)
    requires 'a' <= lower <= 'z' && upper as int == lower as int - 32
    requires lower !in s && upper !in s
    ensures lower !in Lower(s)
  {
    forall i | 0 <= i < |s| ensures Lower(s)[i] != lower {
      assert s[i] != lower && s[i] != upper;
    }
  }

  /** A keyword with a character the message lacks does not occur in it. */
  lemma MissingCharNotContained(m: string, k: string, c: char)
    requires c in k && c !in m
    ensures !Contains(m, k)
  {
  }

  /** The characters `generateFingerprint` keeps: `[A-Za-z0-9_-]`. */
  predicate FingerprintChar(c: char) {
    ('a' <= c <= 'z') || ('A' <= c <= 'Z') || ('0' <= c <= '9') || c == '-' || c == '_'
  }

  /** `.replace(/[^a-zA-Z0-9-_]/g, '_')`. */
  function Sanitize(s: string): (r: string)
    ensures |r| == |s|
    ensures forall i :: 0 <= i < |s| ==> r[i] == (if FingerprintChar(s[i]) then s[i] else '_')
  {
    if s == [] then [] else [if FingerprintChar(s[0]) then s[0] else '_'] + Sanitize(s[1..])
  }

  /** `type + "-" + message`, sanitised. */
  function FingerprintOf(errorType: string, message: string): string {
    Sanitize(errorType + "-" + message)
  }

  /** `generateFingerprint`: a function of the error's type name and message only. */
  function Fingerprint(e: ErrorValue): string {
    FingerprintOf(ErrorType(e), Message(e))
  }

  /** Every fingerprint character is in `[A-Za-z0-9_-]`. */
  lemma SanitizeChars(s: string)
    ensures forall c :: c in Sanitize(s) ==> FingerprintChar(c)
  {
    forall c | c in Sanitize(s)
      ensures FingerprintChar(c)
    {
      var i :| 0 <= i < |Sanitize(s)| && Sanitize(s)[i] == c;
    }
  }

  /** Sanitising is idempotent, and characters already in `[A-Za-z0-9_-]` survive it. */
  lemma SanitizeClosed(s: string)
    ensures Sanitize(Sanitize(s)) == Sanitize(s)
    ensures (forall i :: 0 <= i < |s| ==> FingerprintChar(s[i])) ==> Sanitize(s) == s
  {
    SanitizeChars(s);
    var r := Sanitize(s);
    assert Sanitize(r) == r by {
      forall i | 0 <= i < |r|
        ensures Sanitize(r)[i] == r[i]
      {
        assert r[i] in r;
      }
    }
  }

  /** Sanitising distributes over concatenation. */
  lemma {:induction false} SanitizeAppend(a: string, b: string)
    ensures Sanitize(a + b) == Sanitize(a) + Sanitize(b)
  {
    if a != [] {
      assert (a + b)[1..] == a[1..] + b;
      SanitizeAppend(a[1..], b);
    }
  }

  /**
   * The fingerprint of a type name and a message has the length of
   * `type-message`, uses only `[A-Za-z0-9_-]`, and is the sanitised type, a
   * dash, and the sanitised message.
   */
  lemma FingerprintOfShape(t: string, m: string)
    ensures |FingerprintOf(t, m)| == |t| + 1 + |m|
    ensures forall c :: c in FingerprintOf(t, m) ==> FingerprintChar(c)
    ensures FingerprintOf(t, m) == Sanitize(t) + "-" + Sanitize(m)
  {
    SanitizeChars(t + "-" + m);
    calc {
      FingerprintOf(t, m);
    == { SanitizeAppend(t + "-", m); }
      Sanitize(t + "-") + Sanitize(m);
    == { SanitizeAppend(t, "-"); }
      Sanitize(t) + Sanitize("-") + Sanitize(m);
    == { assert Sanitize("-") == "-"; }
      Sanitize(t) + "-" + Sanitize(m);
    }
  }

  /** `generateFingerprint` has that shape for the error's own type name and message. */
  lemma FingerprintShape(e: ErrorValue)
    ensures |Fingerprint(e)| == |ErrorType(e)| + 1 + |Message(e)|
    ensures forall c :: c in Fingerprint(e) ==> FingerprintChar(c)
    ensures Fingerprint(e) == Sanitize(ErrorType(e)) + "-" + Sanitize(Message(e))
  {
    FingerprintOfShape(ErrorType(e), Message(e));
  }

  /** Errors with the same type name and message share a fingerprint, whatever else differs. */
  lemma FingerprintGroups(e1: ErrorValue, e2: ErrorValue)
    requires ErrorType(e1) == ErrorType(e2) && Message(e1) == Message(e2)
    ensures Fingerprint(e1) == Fingerprint(e2)
  {
  }

  function SeverityName(s: Severity): string {
    match s
    case Info => "info"
    case Warning => "warning"
    case Error => "error"
    case Critical => "critical"
  }

  /** The table of `mapSeverityToSentryLevel`. */
  const SentryLevels: map<string, string> :=
    map["info" := "info", "warning" := "warning", "error" := "error", "critical" := "fatal"]

  /**
   * `mapSeverityToSentryLevel(errorData.severity)`: the table entry of the
   * severity's name, `'error'` when there is none.
   */
  function SentryLevel(severity: Severity): (level: string)
    ensures level in {"info", "warning", "error", "fatal"}
    ensures level == "fatal" <==> severity == Critical
  {
    var key := SeverityName(severity);
    if key in SentryLevels then SentryLevels[key] else "error"
  }

  /** Every severity keeps its own name as Sentry level, except critical, which becomes fatal. */
  lemma SentryLevelOfSeverity(s: Severity)
    ensures SentryLevel(s) == if s == Critical then "fatal" else SeverityName(s)
  {
  }
}
