/** The registration screen's e-mail pattern
    `^[A-Za-z0-9+_.-]+@[A-Za-z0-9.-]+\.[A-Za-z]{2,6}$`: its meaning as a
    predicate over the ways of cutting the string, and a recogniser that
    decides it in one pass by locating the `@` and the last `.`. */
module EmailPattern {

  predicate Letter(c: char)
  {
    'A' <= c <= 'Z' || 'a' <= c <= 'z'
  }

  predicate Digit(c: char)
  {
    '0' <= c <= '9'
  }

  /** `[A-Za-z0-9+_.-]` */
  predicate LocalChar(c: char)
  {
    Letter(c) || Digit(c) || c == '+' || c == '_' || c == '.' || c == '-'
  }

  /** `[A-Za-z0-9.-]` */
  predicate DomainChar(c: char)
  {
    Letter(c) || Digit(c) || c == '.' || c == '-'
  }

  /** The pattern matches `s` with the `@` at `at` and the `\.` at `dot`. */
  predicate MatchesWith(s: string, at: int, dot: int)
  {
    && 0 < at && at + 1 < dot && dot < |s|
    && (forall i :: 0 <= i < at ==> LocalChar(s[i]))
    && s[at] == '@'
    && (forall i :: at < i < dot ==> DomainChar(s[i]))
    && s[dot] == '.'
    && 2 <= |s| - dot - 1 <= 6
    && (forall i :: dot < i < |s| ==> Letter(s[i]))
  }

  /** `emailRegex.test(s)`: some cut of `s` fits the pattern. */
  ghost predicate Matches(s: string)
    ensures Matches(s) ==> 6 <= |s|
  {
    exists at, dot :: MatchesWith(s, at, dot)
  }

  /** The first position of `c`, or `|s|` when there is none. */
  function FirstIndexOf(s: string, c: char): (r: nat)
    ensures r <= |s|
    ensures r < |s| ==> s[r] == c
    ensures forall i :: 0 <= i < r ==> s[i] != c
  {
    if s == [] then 0
    else if s[0] == c then 0
    else 1 + FirstIndexOf(s[1..], c)
  }

  /** The last position of `c`, or `-1` when there is none. */
  function LastIndexOf(s: string, c: char): (r: int)
    ensures -1 <= r < |s|
    ensures 0 <= r ==> s[r] == c
    ensures forall i :: r < i < |s| ==> s[i] != c
  {
    if s == [] then -1
    else if s[|s| - 1] == c then |s| - 1
    else LastIndexOf(s[..|s| - 1], c)
  }

  /** The recogniser: the text before the first `@` is a non-empty local
      part; after it, the last `.` splits a non-empty domain from a top-level
      label of two to six letters. */
  function IsValidEmail(s: string): (r: bool)
    ensures r ==> '@' in s && 6 <= |s|
  {
    var at := FirstIndexOf(s, '@');
    if at == 0 || at == |s| then false
    else
      var dot := at + 1 + LastIndexOf(s[at + 1..], '.');
      && at + 1 < dot
      && (forall i :: 0 <= i < at ==> LocalChar(s[i]))
      && (forall i :: at < i < dot ==> DomainChar(s[i]))
      && 2 <= |s| - dot - 1 <= 6
      && (forall i :: dot < i < |s| ==> Letter(s[i]))
  }

  lemma RecogniserSound(s: string)
    requires IsValidEmail(s)
    ensures Matches(s)
  {
    var at := FirstIndexOf(s, '@');
    var rest := s[at + 1..];
    var dot := at + 1 + LastIndexOf(rest, '.');
    assert s[dot] == rest[dot - at - 1];
    assert MatchesWith(s, at, dot);
  }

  lemma RecogniserComplete(s: string, at: int, dot: int)
    requires MatchesWith(s, at, dot)
    ensures IsValidEmail(s)
  {
    assert FirstIndexOf(s, '@') == at;
    var rest := s[at + 1..];
    var last := LastIndexOf(rest, '.');
    assert rest[dot - at - 1] == '.';
    forall i | dot - at - 1 < i < |rest| ensures rest[i] != '.' {
      assert rest[i] == s[at + 1 + i];
    }
    assert last == dot - at - 1;
  }

  /** The recogniser decides exactly the pattern. */
  lemma IsValidEmailMatches(s: string)
    ensures IsValidEmail(s) <==> Matches(s)
  {
    if IsValidEmail(s) {
      RecogniserSound(s);
    }
    if Matches(s) {
      var at, dot :| MatchesWith(s, at, dot);
      RecogniserComplete(s, at, dot);
    }
  }

  /** An address without a dotted domain, such as "a@b", is refused. */
  lemma NoDotRejected()
    ensures !Matches("a@b")
    ensures !IsValidEmail("a@b")
  {
    IsValidEmailMatches("a@b");
    assert FirstIndexOf("a@b", '@') == 1;
    assert LastIndexOf("b", '.') == -1;
  }

  /** A well-formed address is accepted. */
  lemma PlainAddressAccepted()
    ensures IsValidEmail("ana.lopez@uv.mx")
  {
    assert MatchesWith("ana.lopez@uv.mx", 9, 12);
    RecogniserComplete("ana.lopez@uv.mx", 9, 12);
  }

  /** A one-letter top-level label is refused. */
  lemma ShortLabelRejected()
    ensures !Matches("a@b.c")
  {
    IsValidEmailMatches("a@b.c");
    assert FirstIndexOf("a@b.c", '@') == 1;
    assert LastIndexOf("b.c", '.') == 1;
  }
}
