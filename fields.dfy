/**
 * The reusable field rules (src/common/field/field.schema.ts and
 * src/common/auth/auth.schema.ts): the XSS and SSRF refinements of the e-mail
 * field, the name, description and database-name rules, and the password
 * rules. A rule's result is the list of messages of the checks that fail, in
 * the order the schema declares them; the value is accepted when that list is empty.
 */
module FieldSchemas {
  import opened Strings
  import opened MongoRepositories

  // ----- validateXSS -----

  /** `<`, `>`, `"`, `'` or `&`. */
  predicate IsMarkupChar(c: char) {
    c == '<' || c == '>' || c == '"' || c == '\'' || c == '&'
  }

  /** From position `k` on, one or more word characters and then `=`. */
  predicate WordRunThenEquals(l: string, k: nat)
    decreases |l| - k
  {
    k + 1 < |l| && IsWordChar(l[k]) && (l[k + 1] == '=' || WordRunThenEquals(l, k + 1))
  }

  /** `/on\w+=/` matches somewhere at or after position `k` of `l`. */
  predicate EventHandlerFrom(l: string, k: nat)
    decreases |l| - k
  {
    k + 2 <= |l| && ((l[k] == 'o' && l[k + 1] == 'n' && WordRunThenEquals(l, k + 2)) || EventHandlerFrom(l, k + 1))
  }

  /** `validateXSS(input)`: none of `/<|>|"|'|&|javascript:|data:|vbscript:|on\w+=/i` matches.
      The `i` flag is ASCII case folding of the input. */
  predicate ValidateXSS(input: string) {
    var l := Lower(input);
    (forall i :: 0 <= i < |input| ==> !IsMarkupChar(input[i]))
    && !Includes(l, "javascript:") && !Includes(l, "data:") && !Includes(l, "vbscript:")
    && !EventHandlerFrom(l, 0)
  }

  /** A substring's characters occur in the string. */
  lemma {:induction false} IncludesHasChars(s: string, sub: string, j: nat)
    requires Includes(s, sub) && j < |sub|
    ensures exists i :: 0 <= i < |s| && s[i] == sub[j]
    decreases |s|
  {
    if StartsWith(s, sub) {
      assert s[j] == sub[j];
    } else {
      IncludesHasChars(s[1..], sub, j);
      var i :| 0 <= i < |s[1..]| && s[1..][i] == sub[j];
      assert s[i + 1] == sub[j];
    }
  }

  /** A word run ended by `=` needs an `=` in the string. */
  lemma {:induction false} WordRunHasEquals(l: string, k: nat)
    requires WordRunThenEquals(l, k)
    ensures exists i :: 0 <= i < |l| && l[i] == '='
    decreases |l| - k
  {
    if l[k + 1] != '=' {
      WordRunHasEquals(l, k + 1);
    }
  }

  /** An event-handler attribute needs an `=` in the string. */
  lemma {:induction false} EventHandlerHasEquals(l: string, k: nat)
    requires EventHandlerFrom(l, k)
    ensures exists i :: 0 <= i < |l| && l[i] == '='
    decreases |l| - k
  {
    if l[k] == 'o' && l[k + 1] == 'n' && WordRunThenEquals(l, k + 2) {
      WordRunHasEquals(l, k + 2);
    } else {
      EventHandlerHasEquals(l, k + 1);
    }
  }

  /** Lower-casing keeps `:` and `=` where they are and makes no new ones. */
  lemma LowerKeepsPunctuation(s: string, i: nat)
    requires i < |s|
    ensures Lower(s)[i] == ':' <==> s[i] == ':'
    ensures Lower(s)[i] == '=' <==> s[i] == '='
  {
  }

  /** A string with no `:` and no `=` passes the XSS check exactly when it has none of the
      five markup characters: the scheme and attribute patterns all need one of the two. */
  lemma XssWithoutColonOrEquals(input: string)
    requires forall i :: 0 <= i < |input| ==> input[i] != ':' && input[i] != '='
    ensures ValidateXSS(input) <==> forall i :: 0 <= i < |input| ==> !IsMarkupChar(input[i])
  {
    var l := Lower(input);
    forall sub | sub in ["javascript:", "data:", "vbscript:"]
      ensures !Includes(l, sub)
    {
      if Includes(l, sub) {
        IncludesHasChars(l, sub, |sub| - 1);
        var i :| 0 <= i < |l| && l[i] == sub[|sub| - 1];
        LowerKeepsPunctuation(input, i);
      }
    }
    if EventHandlerFrom(l, 0) {
      EventHandlerHasEquals(l, 0);
    }
  }

  /** The scheme test ignores case: `JavaScript:` anywhere is rejected. */
  lemma XssSchemeIgnoresCase(before: string, after: string)
    ensures !ValidateXSS(before + "JavaScript:" + after)
  {
    var s := before + "JavaScript:" + after;
    var l := Lower(s);
    assert l[|before|..|before| + 11] == "javascript:";
    IncludesAt(l, "javascript:", |before|);
  }

  /** The attribute pattern has no word boundary: any `on`, then word characters, then `=`
      is rejected, as in `condition=1`. */
  lemma XssAttributeWithoutBoundary()
    ensures !ValidateXSS("condition=1")
  {
    var l := Lower("condition=1");
    assert l == "condition=1";
    assert WordRunThenEquals(l, 3);
    assert EventHandlerFrom(l, 1);
    assert EventHandlerFrom(l, 0);
  }

  // ----- validateSSRF -----

  /** The domains the e-mail rule refuses outright. */
  const BlockedDomains: seq<string> := ["localhost", "127.0.0.1", "0.0.0.0", "::1"]

  /** `/^(10\.|172\.(1[6-9]|2[0-9]|3[01])\.|192\.168\.)/`: a private-range prefix. */
  predicate IsPrivateIpPrefix(d: string) {
    StartsWith(d, "10.") || StartsWith(d, "192.168.")
    || (|d| >= 7 && d[..4] == "172." && d[6] == '.'
        && ((d[4] == '1' && '6' <= d[5] <= '9') || (d[4] == '2' && '0' <= d[5] <= '9') || (d[4] == '3' && (d[5] == '0' || d[5] == '1'))))
  }

  /** `validateSSRF(email)`: exactly one `@`, and a domain neither blocked nor private. */
  predicate ValidateSSRF(email: string) {
    var parts := Split(email, '@');
    |parts| == 2 && parts[1] !in BlockedDomains && !IsPrivateIpPrefix(parts[1])
  }

  /** An address with no `@` or with several is refused. */
  lemma SsrfNeedsExactlyOneAt(email: string)
    requires ValidateSSRF(email)
    ensures Count(email, '@') == 1
  {
    SplitLength(email, '@');
  }

  /** Occurrences add up over concatenation. */
  lemma {:induction false} CountAppend(a: string, b: string, c: char)
    ensures Count(a + b, c) == Count(a, c) + Count(b, c)
  {
    if a != [] {
      assert (a + b)[0] == a[0];
      assert (a + b)[1..] == a[1..] + b;
      CountAppend(a[1..], b, c);
    } else {
      assert a + b == b;
    }
  }

  /** No occurrence in a string without the character. */
  lemma {:induction false} CountAbsent(a: string, c: char)
    requires forall i :: 0 <= i < |a| ==> a[i] != c
    ensures Count(a, c) == 0
  {
    if a != [] {
      CountAbsent(a[1..], c);
    }
  }

  /** For `local@domain` with one `@`, the check is exactly a domain check. */
  lemma SsrfJudgesDomain(local: string, domain: string)
    requires forall i :: 0 <= i < |local| ==> local[i] != '@'
    requires forall i :: 0 <= i < |domain| ==> domain[i] != '@'
    ensures ValidateSSRF(local + "@" + domain) <==> domain !in BlockedDomains && !IsPrivateIpPrefix(domain)
  {
    var email := local + "@" + domain;
    CountAbsent(local, '@');
    CountAbsent(domain, '@');
    CountAppend(local, "@", '@');
    CountAppend(local + "@", domain, '@');
    assert email[|local|] == '@';
    SplitOne(email, '@', |local|);
    assert email[..|local|] == local && email[|local| + 1..] == domain;
  }

  /** The private-range test is a prefix test on the second octet: 172.16 to 172.31 are
      refused and 172.32 is not. */
  lemma PrivateRangeBoundaries(rest: string)
    ensures IsPrivateIpPrefix("172.16." + rest) && IsPrivateIpPrefix("172.31." + rest)
    ensures !IsPrivateIpPrefix("172.32." + rest) && !IsPrivateIpPrefix("172.15." + rest)
  {
    assert ("172.32." + rest)[..4] == "172." && ("172.32." + rest)[1] == '7';
    assert ("172.15." + rest)[..4] == "172." && ("172.15." + rest)[1] == '7';
  }

  // ----- name, description and database name -----

  /** `\s`: the ASCII whitespace characters. */
  predicate IsSpace(c: char) {
    c == ' ' || c == '\t' || c == '\n' || c == '\r' || c == '\U{000B}' || c == '\U{000C}'
  }

  /** `[a-zA-Z0-9\s_-]`. */
  predicate IsNameChar(c: char) {
    IsAsciiAlnum(c) || IsSpace(c) || c == '_' || c == '-'
  }

  /** `[a-zA-Z0-9\s.,!?_-]`. */
  predicate IsDescriptionChar(c: char) {
    IsNameChar(c) || c == '.' || c == ',' || c == '!' || c == '?'
  }

  /** `[a-zA-Z0-9_-]`. */
  predicate IsDbNameChar(c: char) {
    IsAsciiAlnum(c) || c == '_' || c == '-'
  }

  /** The message of a check, when it fails. */
  function Check(ok: bool, message: string): seq<string> {
    if ok then [] else [message]
  }

  /** nameSchema: min 3, the name alphabet (one or more), max 100. */
  function NameIssues(s: string): seq<string> {
    Check(|s| >= 3, "Name is required")
    + Check(|s| > 0 && forall i :: 0 <= i < |s| ==> IsNameChar(s[i]), "Name contains invalid characters")
    + Check(|s| <= 100, "Name must be at most 100 characters")
  }

  /** descriptionSchema: the description alphabet (possibly empty), max 500. */
  function DescriptionIssues(s: string): seq<string> {
    Check(forall i :: 0 <= i < |s| ==> IsDescriptionChar(s[i]), "Description contains invalid characters")
    + Check(|s| <= 500, "Description must be at most 500 characters")
  }

  /** dbNameSchema: min 3, the database-name alphabet (one or more), max 50. */
  function DbNameIssues(s: string): seq<string> {
    Check(|s| >= 3, "Database name is required")
    + Check(|s| > 0 && forall i :: 0 <= i < |s| ==> IsDbNameChar(s[i]),
            "Database name can only contain letters, numbers, underscores and hyphens")
    + Check(|s| <= 50, "Database name must be at most 50 characters")
  }

  /** A name is accepted exactly when it has 3 to 100 characters of the name alphabet. */
  lemma NameAccepted(s: string)
    ensures NameIssues(s) == [] <==> 3 <= |s| <= 100 && forall i :: 0 <= i < |s| ==> IsNameChar(s[i])
  {
  }

  /** A description is accepted exactly when it has at most 500 characters of its alphabet;
      the empty description is accepted. */
  lemma DescriptionAccepted(s: string)
    ensures DescriptionIssues(s) == [] <==> |s| <= 500 && forall i :: 0 <= i < |s| ==> IsDescriptionChar(s[i])
    ensures DescriptionIssues("") == []
  {
  }

  /** A database name is accepted exactly when it has 3 to 50 characters of its alphabet. */
  lemma DbNameAccepted(s: string)
    ensures DbNameIssues(s) == [] <==> 3 <= |s| <= 50 && forall i :: 0 <= i < |s| ==> IsDbNameChar(s[i])
  {
  }

  /** Every failing check is reported: the empty name gets both the length and the alphabet
      message, in that order. */
  lemma EmptyNameIssues()
    ensures NameIssues("") == ["Name is required", "Name contains invalid characters"]
  {
  }

  /** Every name passes the XSS check: its alphabet has no markup character, `:` or `=`. */
  lemma NamesAreXssSafe(s: string)
    requires NameIssues(s) == []
    ensures ValidateXSS(s)
  {
    NameAccepted(s);
    XssWithoutColonOrEquals(s);
  }

  /** An accepted database name has no `:`, so the model cache key `"<db>:<collection>"`
      tells database and collection apart. */
  lemma DbNameCacheKeysDistinct(db1: string, c1: string, db2: string, c2: string)
    requires DbNameIssues(db1) == [] && DbNameIssues(db2) == []
    requires CacheKey(db1, c1) == CacheKey(db2, c2)
    ensures db1 == db2 && c1 == c2
  {
    DbNameAccepted(db1);
    DbNameAccepted(db2);
    ColonJoinInjective(db1, c1, db2, c2);
  }

  // ----- passwordSchema -----

  /** passwordSchema: min 8, a lower-case letter, an upper-case letter, a digit and a
      character outside `[a-zA-Z0-9]`. */
  function PasswordIssues(s: string): seq<string> {
    Check(|s| >= 8, "Password must be at least 8 characters long")
    + Check(exists i :: 0 <= i < |s| && IsAsciiLower(s[i]), "Password must contain at least one lowercase letter")
    + Check(exists i :: 0 <= i < |s| && IsAsciiUpper(s[i]), "Password must contain at least one uppercase letter")
    + Check(exists i :: 0 <= i < |s| && IsAsciiDigit(s[i]), "Password must contain at least one number")
    + Check(exists i :: 0 <= i < |s| && !IsAsciiAlnum(s[i]), "Password must contain at least one special character")
  }

  /** A password is accepted exactly when all five checks hold. */
  lemma PasswordAccepted(s: string)
    ensures PasswordIssues(s) == [] <==>
      (|s| >= 8 && (exists i :: 0 <= i < |s| && IsAsciiLower(s[i])) && (exists i :: 0 <= i < |s| && IsAsciiUpper(s[i]))
       && (exists i :: 0 <= i < |s| && IsAsciiDigit(s[i])) && (exists i :: 0 <= i < |s| && !IsAsciiAlnum(s[i])))
  {
  }

  /** The documented example is accepted. */
  lemma PasswordExample()
    ensures PasswordIssues("MySecure123!") == []
  {
    var s := "MySecure123!";
    assert IsAsciiLower(s[1]) && IsAsciiUpper(s[0]) && IsAsciiDigit(s[8]) && !IsAsciiAlnum(s[11]);
  }

  /** Each check has its own message: a long all-lower-case password is told exactly which
      three classes it lacks. */
  lemma PasswordLowerOnly()
    ensures PasswordIssues("abcdefgh") == ["Password must contain at least one uppercase letter",
                                           "Password must contain at least one number",
                                           "Password must contain at least one special character"]
  {
    var s := "abcdefgh";
    assert forall i :: 0 <= i < |s| ==> IsAsciiLower(s[i]);
    assert !exists i :: 0 <= i < |s| && IsAsciiUpper(s[i]);
    assert !exists i :: 0 <= i < |s| && IsAsciiDigit(s[i]);
    assert !exists i :: 0 <= i < |s| && !IsAsciiAlnum(s[i]);
    assert exists i :: 0 <= i < |s| && IsAsciiLower(s[i]) by { assert IsAsciiLower(s[0]); }
  }
}
