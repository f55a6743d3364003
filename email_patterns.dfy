/** The two email regular expressions of the front end: the anchored
    `^[^\s@]+@[^\s@]+\.[^\s@]+$` of frontend/src/components/Login/Login.jsx
    and l.js, and the unanchored `\S+@\S+\.\S+` of trace_lens/trace.js. A
    regular expression matches when some choice of positions for its
    literals fits, so each is stated by those positions. */
module EmailPatterns {
  import opened Strings

  /** A character the address patterns allow in each part: neither white space
      nor `@`. */
  predicate Plain(c: char) { !IsJsSpace(c) && c != '@' }

  /** The anchored pattern with the `@` at `at` and the literal `.` at `dot`:
      three non-empty runs of plain characters around them. */
  predicate StrictAt(s: string, at: int, dot: int) {
    0 < at && at + 1 < dot && dot + 1 < |s| && s[at] == '@' && s[dot] == '.'
    && forall k :: 0 <= k < |s| && k != at ==> Plain(s[k])
  }

  /** The anchored address pattern of the login pages
      (frontend/src/components/Login/Login.jsx:54, l.js:129): a non-empty
      local part, one `@`, and a domain with a dot that is neither first nor
      last, with no white space or second `@` anywhere. */
  predicate StrictEmail(s: string) {
    exists at, dot | 0 <= at < |s| && 0 <= dot < |s| :: StrictAt(s, at, dot)
  }

  /** The unanchored pattern with the `@` at `at` and the `.` at `dot`: a
      non-space before the `@`, a non-empty run of non-spaces between the
      two, and a non-space after the `.`. */
  predicate LooseAt(s: string, at: int, dot: int) {
    0 < at && at + 1 < dot && dot + 1 < |s| && s[at] == '@' && s[dot] == '.'
    && !IsJsSpace(s[at - 1]) && !IsJsSpace(s[dot + 1])
    && forall k :: at < k < dot ==> !IsJsSpace(s[k])
  }

  /** The unanchored address pattern of trace_lens/trace.js:61: somewhere in
      the text a run without white space, an `@`, another such run, a dot and
      a third. */
  predicate LooseEmail(s: string) {
    exists at, dot | 0 <= at < |s| && 0 <= dot < |s| :: LooseAt(s, at, dot)
  }

  /** Every address the anchored pattern accepts is accepted by the
      unanchored one. */
  lemma StrictImpliesLoose(s: string)
    requires StrictEmail(s)
    ensures LooseEmail(s)
  {
    var at, dot :| 0 <= at < |s| && 0 <= dot < |s| && StrictAt(s, at, dot);
    assert Plain(s[at - 1]) && Plain(s[dot + 1]);
    forall k | at < k < dot ensures !IsJsSpace(s[k]) {
      assert Plain(s[k]);
    }
    assert LooseAt(s, at, dot);
  }

  /** The anchored pattern admits exactly one `@`. */
  lemma StrictHasOneAt(s: string, at: int, dot: int, j: int)
    requires StrictAt(s, at, dot) && 0 <= j < |s| && s[j] == '@'
    ensures j == at
  {
    if j != at {
      assert false;
    }
  }

  /** A white-space character anywhere rules out every placement. */
  lemma SpaceBreaksStrict(s: string, at: int, dot: int, k: int)
    requires 0 <= k < |s| && IsJsSpace(s[k])
    ensures !StrictAt(s, at, dot)
  {
  }

  /** A space inside the address, or text around it, passes the unanchored
      check and fails the anchored one. */
  lemma LooseAcceptsSpaces()
    ensures LooseEmail("a b@c.d") && !StrictEmail("a b@c.d")
  {
    var s := "a b@c.d";
    assert LooseAt(s, 3, 5);
    forall at, dot ensures !StrictAt(s, at, dot) {
      SpaceBreaksStrict(s, at, dot, 1);
    }
  }

  /** A plain address passes both. */
  lemma PlainAddressAccepted()
    ensures StrictEmail("user@example.com") && LooseEmail("user@example.com")
  {
    var s := "user@example.com";
    assert StrictAt(s, 4, 12);
    StrictImpliesLoose(s);
  }
}
