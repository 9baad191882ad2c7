/** The provider-state setup endpoint used by contract verification: a
    free-text state descriptor is searched for
      case with ID ([\w-]+) (?:exists|is ready for a decision) for tenant with ID ([\w-]+)
    and, when it matches, a fixture workflow is (re)started under the case id.
    `\w` is taken to be the ASCII word characters. */
module ProviderState {
  import opened Http
  import opened Engine

  /** `\w`, restricted to ASCII: letters, digits and the underscore. */
  predicate IsWordChar(ch: char) {
    ('a' <= ch <= 'z') || ('A' <= ch <= 'Z') || ('0' <= ch <= '9') || ch == '_'
  }

  /** The character class `[\w-]`. */
  predicate IsIdChar(ch: char) {
    IsWordChar(ch) || ch == '-'
  }

  /** A string the group `([\w-]+)` can capture: non-empty, all in the class. */
  predicate IsId(s: string) {
    |s| > 0 && forall k :: 0 <= k < |s| ==> IsIdChar(s[k])
  }

  /** The literal parts of a pattern of the shape
        lead([\w-]+) (?:A|B) rest([\w-]+)
      where `existsMiddle` is " A rest" and `readyMiddle` is " B rest": the
      text before the first group, and the text between the two groups for
      each branch of the alternation. */
  datatype Pattern = Pattern(lead: string, existsMiddle: string, readyMiddle: string)

  /** The compiled descriptor pattern of the provider-state handler. */
  const StatePattern: Pattern :=
    Pattern("case with ID ",
            " exists for tenant with ID ",
            " is ready for a decision for tenant with ID ")

  /** What the matcher's correctness rests on: the lead is not empty, each
      middle starts with a character outside the class (so the first group
      stops there), and the two middles differ at their second character (so
      at most one branch of the alternation is present at a position). */
  predicate WellFormed(p: Pattern) {
    && |p.lead| > 0 && |p.existsMiddle| > 1 && |p.readyMiddle| > 1
    && !IsIdChar(p.existsMiddle[0]) && !IsIdChar(p.readyMiddle[0])
    && p.existsMiddle[1] != p.readyMiddle[1]
  }

  predicate IsMiddle(p: Pattern, mid: string) {
    mid == p.existsMiddle || mid == p.readyMiddle
  }

  lemma StatePatternWellFormed()
    ensures WellFormed(StatePattern)
  {
  }

  /** The literal q occurs in s at position i. */
  predicate LitAt(s: string, i: nat, q: string) {
    i + |q| <= |s| && s[i..i + |q|] == q
  }

  // ---------------------------------------------------------------------------
  // Reference semantics of the pattern

  /** From position i the text reads lead, c, mid and t in turn, c and t being
      ids. */
  predicate ReadsAt(p: Pattern, s: string, i: nat, c: string, mid: string, t: string) {
    var j := i + |p.lead|;
    var k := j + |c|;
    var m := k + |mid|;
    var e := m + |t|;
    && e <= |s|
    && IsId(c) && IsId(t)
    && s[i..j] == p.lead && s[j..k] == c && s[k..m] == mid && s[m..e] == t
  }

  /** The pattern matches at position i through the middle `mid` with groups
      c and t: the text reads lead, c, mid, t from i, and the greedy last group
      is a whole run (the character after it, if any, is outside the class).
      The first group is a whole run because a middle starts outside it. */
  predicate MatchesVia(p: Pattern, s: string, i: nat, c: string, mid: string, t: string) {
    var e := i + |p.lead| + |c| + |mid| + |t|;
    ReadsAt(p, s, i, c, mid, t) && (e == |s| || !IsIdChar(s[e]))
  }

  /** The pattern matches at position i with groups (c, t). */
  predicate Matches(p: Pattern, s: string, i: nat, c: string, t: string) {
    MatchesVia(p, s, i, c, p.existsMiddle, t) || MatchesVia(p, s, i, c, p.readyMiddle, t)
  }

  /** `re.search` reports the match that starts leftmost. */
  ghost predicate IsLeftmostMatch(p: Pattern, s: string, i: nat, c: string, t: string) {
    && Matches(p, s, i, c, t)
    && forall j: nat, c': string, t': string :: j < i ==> !Matches(p, s, j, c', t')
  }

  // ---------------------------------------------------------------------------
  // The matcher

  /** The length of the greedy run of `[\w-]` that starts at j. */
  function RunLength(s: string, j: nat): (n: nat)
    requires j <= |s|
    ensures j + n <= |s|
    decreases |s| - j
  {
    if j < |s| && IsIdChar(s[j]) then 1 + RunLength(s, j + 1) else 0
  }

  /** Every character of the run is in the class and the one after it is not. */
  lemma {:induction false} RunFacts(s: string, j: nat)
    requires j <= |s|
    ensures forall k :: j <= k < j + RunLength(s, j) ==> IsIdChar(s[k])
    ensures j + RunLength(s, j) == |s| || !IsIdChar(s[j + RunLength(s, j)])
    decreases |s| - j
  {
    if j < |s| && IsIdChar(s[j]) {
      RunFacts(s, j + 1);
    }
  }

  /** A run is determined by where it starts: whatever has the shape of a
      whole run there has the length RunLength computes. */
  lemma RunLengthUnique(s: string, j: nat, n: nat)
    requires j + n <= |s|
    requires forall k :: j <= k < j + n ==> IsIdChar(s[k])
    requires j + n == |s| || !IsIdChar(s[j + n])
    ensures RunLength(s, j) == n
  {
    RunFacts(s, j);
  }

  /** A slice whose characters all lie in the class is an id. */
  lemma CharsAreId(s: string, j: nat, k: nat)
    requires j < k <= |s|
    requires forall q :: j <= q < k ==> IsIdChar(s[q])
    ensures IsId(s[j..k])
  {
  }

  /** An id that is a slice lies, character by character, in the class. */
  lemma IdSliceChars(s: string, j: nat, k: nat)
    requires j <= k <= |s| && IsId(s[j..k])
    ensures forall q :: j <= q < k ==> IsIdChar(s[q])
  {
  }

  /** At most one branch of the alternation is present at a position. */
  lemma MiddlesExclusive(p: Pattern, s: string, k: nat)
    requires WellFormed(p)
    ensures LitAt(s, k, p.existsMiddle) ==> !LitAt(s, k, p.readyMiddle)
  {
  }

  /** Where the alternation and the literal after it end, when one of the two
      branches is present at k. */
  function AfterMiddle(p: Pattern, s: string, k: nat): (m: Option<nat>)
    requires WellFormed(p)
    ensures m.Some? <==> LitAt(s, k, p.existsMiddle) || LitAt(s, k, p.readyMiddle)
    ensures LitAt(s, k, p.existsMiddle) ==> m == Some(k + |p.existsMiddle|)
    ensures LitAt(s, k, p.readyMiddle) ==> m == Some(k + |p.readyMiddle|)
  {
    MiddlesExclusive(p, s, k);
    if LitAt(s, k, p.existsMiddle) then Some(k + |p.existsMiddle|)
    else if LitAt(s, k, p.readyMiddle) then Some(k + |p.readyMiddle|)
    else None
  }

  /** An attempt to match the pattern at position i: a reported attempt
      starts with the lead at i, and both its groups are non-empty. */
  function MatchAt(p: Pattern, s: string, i: nat): (r: Option<(string, string)>)
    requires WellFormed(p) && i <= |s|
    ensures r.Some? ==> LitAt(s, i, p.lead) && |r.value.0| > 0 && |r.value.1| > 0
  {
    if !LitAt(s, i, p.lead) then None
    else
      var j := i + |p.lead|;
      var k := j + RunLength(s, j);
      if k == j then None
      else
        match AfterMiddle(p, s, k)
        case None => None
        case Some(m) =>
          var e := m + RunLength(s, m);
          if e == m then None
          else Some((s[j..k], s[m..e]))
  }

  /** `re.search`: try each start position from `from` on, and report the
      first one at which the attempt succeeds. */
  function Search(p: Pattern, s: string, from: nat): (r: Option<nat>)
    requires WellFormed(p) && from <= |s|
    ensures r.Some? ==> from <= r.value <= |s| && MatchAt(p, s, r.value).Some?
    ensures r.Some? ==> forall j :: from <= j < r.value ==> MatchAt(p, s, j).None?
    ensures r.None? ==> forall j :: from <= j <= |s| ==> MatchAt(p, s, j).None?
    decreases |s| - from
  {
    if MatchAt(p, s, from).Some? then Some(from)
    else if from == |s| then None
    else Search(p, s, from + 1)
  }

  /** `state_pattern.search(state)` followed by `match.groups()`: nothing
      exactly when the pattern matches nowhere in the descriptor, and
      otherwise the groups of the leftmost match. */
  function Groups(s: string): (r: Option<(string, string)>)
    ensures r.None? <==> forall j: nat, c, t :: !Matches(StatePattern, s, j, c, t)
    ensures r.Some? ==> exists i: nat :: IsLeftmostMatch(StatePattern, s, i, r.value.0, r.value.1)
  {
    StatePatternWellFormed();
    SearchNone(StatePattern, s, 0);
    match Search(StatePattern, s, 0)
    case None => None
    case Some(i) =>
      SearchSound(StatePattern, s, 0);
      assert IsLeftmostMatch(StatePattern, s, i, MatchAt(StatePattern, s, i).value.0, MatchAt(StatePattern, s, i).value.1);
      MatchAt(StatePattern, s, i)
  }

  // ---------------------------------------------------------------------------
  // The matcher agrees with the reference semantics

  /** MatchAt reports the groups between the positions the lead, the runs
      and the middle determine. */
  lemma MatchAtIntro(p: Pattern, s: string, i: nat, k: nat, m: nat, e: nat)
    requires WellFormed(p) && LitAt(s, i, p.lead)
    requires i + |p.lead| < k <= |s|
    requires RunLength(s, i + |p.lead|) == k - (i + |p.lead|)
    requires AfterMiddle(p, s, k) == Some(m)
    requires m < e <= |s| && RunLength(s, m) == e - m
    ensures MatchAt(p, s, i) == Some((s[i + |p.lead|..k], s[m..e]))
  {
  }

  /** Read off the positions, a match is established. */
  lemma MatchesViaIntro(p: Pattern, s: string, i: nat, j: nat, k: nat, m: nat, e: nat, mid: string)
    requires i <= j <= k <= m <= e <= |s|
    requires j == i + |p.lead| && m == k + |mid|
    requires s[i..j] == p.lead && s[k..m] == mid
    requires IsId(s[j..k]) && IsId(s[m..e])
    requires e == |s| || !IsIdChar(s[e])
    ensures MatchesVia(p, s, i, s[j..k], mid, s[m..e])
  {
  }

  /** When MatchAt succeeds, the positions where the first group ends (k),
      the middle ends (m) and the second group ends (e). */
  lemma MatchAtShape(p: Pattern, s: string, i: nat) returns (k: nat, m: nat, e: nat)
    requires WellFormed(p) && i <= |s| && MatchAt(p, s, i).Some?
    ensures LitAt(s, i, p.lead)
    ensures i + |p.lead| < k <= m < e <= |s|
    ensures k == i + |p.lead| + RunLength(s, i + |p.lead|) && e == m + RunLength(s, m)
    ensures (LitAt(s, k, p.existsMiddle) && m == k + |p.existsMiddle|)
         || (LitAt(s, k, p.readyMiddle) && m == k + |p.readyMiddle|)
    ensures MatchAt(p, s, i) == Some((s[i + |p.lead|..k], s[m..e]))
  {
    var j := i + |p.lead|;
    k := j + RunLength(s, j);
    m := AfterMiddle(p, s, k).value;
    e := m + RunLength(s, m);
  }

  /** What MatchAt reports is a match of the pattern. */
  lemma MatchAtSound(p: Pattern, s: string, i: nat)
    requires WellFormed(p) && i <= |s| && MatchAt(p, s, i).Some?
    ensures Matches(p, s, i, MatchAt(p, s, i).value.0, MatchAt(p, s, i).value.1)
  {
    var k, m, e := MatchAtShape(p, s, i);
    var j := i + |p.lead|;
    var g := MatchAt(p, s, i).value;
    assert g.0 == s[j..k] && g.1 == s[m..e];
    RunFacts(s, j);
    RunFacts(s, m);
    CharsAreId(s, j, k);
    CharsAreId(s, m, e);
    var mid := if LitAt(s, k, p.existsMiddle) && m == k + |p.existsMiddle| then p.existsMiddle else p.readyMiddle;
    assert s[k..m] == mid;
    MatchesViaIntro(p, s, i, j, k, m, e, mid);
    assert MatchesVia(p, s, i, g.0, mid, g.1);
  }

  /** In a match, each group is exactly the greedy run where it starts. */
  lemma MatchRuns(p: Pattern, s: string, i: nat, c: string, mid: string, t: string)
    requires WellFormed(p) && IsMiddle(p, mid) && MatchesVia(p, s, i, c, mid, t)
    ensures RunLength(s, i + |p.lead|) == |c|
    ensures RunLength(s, i + |p.lead| + |c| + |mid|) == |t|
  {
    var j := i + |p.lead|;
    var k := j + |c|;
    var m := k + |mid|;
    var e := m + |t|;
    IdSliceChars(s, j, k);
    IdSliceChars(s, m, e);
    assert s[k] == s[k..m][0];
    RunLengthUnique(s, j, |c|);
    RunLengthUnique(s, m, |t|);
  }

  /** The positions a match through `mid` determines. */
  lemma MatchesViaFacts(p: Pattern, s: string, i: nat, c: string, mid: string, t: string)
    requires MatchesVia(p, s, i, c, mid, t)
    ensures LitAt(s, i, p.lead) && LitAt(s, i + |p.lead| + |c|, mid)
    ensures i + |p.lead| + |c| + |mid| + |t| <= |s| && |c| > 0 && |t| > 0
    ensures s[i + |p.lead|..i + |p.lead| + |c|] == c
    ensures s[i + |p.lead| + |c| + |mid|..i + |p.lead| + |c| + |mid| + |t|] == t
  {
  }

  /** A match through either middle is the one MatchAt reports. */
  lemma MatchAtCompleteVia(p: Pattern, s: string, i: nat, c: string, mid: string, t: string)
    requires WellFormed(p) && IsMiddle(p, mid) && MatchesVia(p, s, i, c, mid, t)
    ensures MatchAt(p, s, i) == Some((c, t))
  {
    var j := i + |p.lead|;
    var k := j + |c|;
    var m := k + |mid|;
    var e := m + |t|;
    MatchesViaFacts(p, s, i, c, mid, t);
    MatchRuns(p, s, i, c, mid, t);
    MiddlesExclusive(p, s, k);
    assert AfterMiddle(p, s, k) == Some(m);
    MatchAtIntro(p, s, i, k, m, e);
    assert s[j..k] == c && s[m..e] == t;
  }

  /** Every match of the pattern at i is the one MatchAt reports. */
  lemma MatchAtComplete(p: Pattern, s: string, i: nat, c: string, t: string)
    requires WellFormed(p) && Matches(p, s, i, c, t)
    ensures MatchAt(p, s, i) == Some((c, t))
  {
    if MatchesVia(p, s, i, c, p.existsMiddle, t) {
      MatchAtCompleteVia(p, s, i, c, p.existsMiddle, t);
    } else {
      MatchAtCompleteVia(p, s, i, c, p.readyMiddle, t);
    }
  }

  /** At one position the pattern matches with at most one pair of groups. */
  lemma MatchUnique(p: Pattern, s: string, i: nat, c1: string, t1: string, c2: string, t2: string)
    requires WellFormed(p) && Matches(p, s, i, c1, t1) && Matches(p, s, i, c2, t2)
    ensures c1 == c2 && t1 == t2
  {
    MatchAtComplete(p, s, i, c1, t1);
    MatchAtComplete(p, s, i, c2, t2);
  }

  /** The search stops at the first position where the attempt succeeds. */
  lemma SearchStopsAt(p: Pattern, s: string, from: nat, i: nat)
    requires WellFormed(p) && from <= i <= |s| && MatchAt(p, s, i).Some?
    requires forall j :: from <= j < i ==> MatchAt(p, s, j).None?
    ensures Search(p, s, from) == Some(i)
  {
  }

  /** The search from `from` stops at the leftmost match at or after `from`,
      and the attempt there reports that match's groups. */
  lemma SearchFinds(p: Pattern, s: string, from: nat, i: nat, c: string, t: string)
    requires WellFormed(p) && from <= i
    requires Matches(p, s, i, c, t)
    requires forall j: nat, c': string, t': string :: from <= j < i ==> !Matches(p, s, j, c', t')
    ensures Search(p, s, from) == Some(i) && MatchAt(p, s, i) == Some((c, t))
  {
    MatchAtComplete(p, s, i, c, t);
    forall j | from <= j < i
      ensures MatchAt(p, s, j).None?
    {
      if MatchAt(p, s, j).Some? {
        MatchAtSound(p, s, j);
      }
    }
    SearchStopsAt(p, s, from, i);
  }

  /** Where the search from `from` stops there is a match, with the groups the
      attempt there reports, and no match starts between `from` and it. */
  lemma SearchSound(p: Pattern, s: string, from: nat)
    requires WellFormed(p) && from <= |s| && Search(p, s, from).Some?
    ensures Matches(p, s, Search(p, s, from).value,
                    MatchAt(p, s, Search(p, s, from).value).value.0,
                    MatchAt(p, s, Search(p, s, from).value).value.1)
    ensures forall j: nat, c': string, t': string :: from <= j < Search(p, s, from).value ==> !Matches(p, s, j, c', t')
  {
    var i := Search(p, s, from).value;
    MatchAtSound(p, s, i);
    forall j: nat, c': string, t': string | from <= j < i
      ensures !Matches(p, s, j, c', t')
    {
      if Matches(p, s, j, c', t') {
        MatchAtComplete(p, s, j, c', t');
      }
    }
  }

  /** The search from `from` finds nothing exactly when the pattern matches
      nowhere at or after `from`. */
  lemma SearchNone(p: Pattern, s: string, from: nat)
    requires WellFormed(p) && from <= |s|
    ensures Search(p, s, from).None? <==>
              forall j: nat, c: string, t: string :: from <= j ==> !Matches(p, s, j, c, t)
  {
    if Search(p, s, from).Some? {
      SearchSound(p, s, from);
    } else {
      forall j: nat, c: string, t: string | from <= j
        ensures !Matches(p, s, j, c, t)
      {
        if Matches(p, s, j, c, t) {
          MatchAtComplete(p, s, j, c, t);
        }
      }
    }
  }

  /** The groups reported for a descriptor are those of the leftmost match of
      the pattern, and of no other pair. */
  lemma GroupsAreLeftmostMatch(s: string, c: string, t: string)
    ensures Groups(s) == Some((c, t)) <==> exists i: nat :: IsLeftmostMatch(StatePattern, s, i, c, t)
  {
    StatePatternWellFormed();
    if exists i: nat :: IsLeftmostMatch(StatePattern, s, i, c, t) {
      var i: nat :| IsLeftmostMatch(StatePattern, s, i, c, t);
      SearchFinds(StatePattern, s, 0, i, c, t);
    }
  }

  /** Every captured id is a non-empty run of `[\w-]`. */
  lemma GroupsAreIds(s: string)
    requires Groups(s).Some?
    ensures IsId(Groups(s).value.0) && IsId(Groups(s).value.1)
  {
    StatePatternWellFormed();
    SearchSound(StatePattern, s, 0);
  }

  /** Text laid out as the lead, c, mid and t after a prefix is a match at the
      end of the prefix. */
  lemma LaidOutMatches(p: Pattern, pre: string, c: string, mid: string, t: string)
    requires IsId(c) && IsId(t)
    ensures MatchesVia(p, pre + p.lead + c + mid + t, |pre|, c, mid, t)
  {
    var s := pre + p.lead + c + mid + t;
    var i := |pre|;
    var j, k, m := i + |p.lead|, i + |p.lead| + |c|, i + |p.lead| + |c| + |mid|;
    assert s[i..j] == p.lead && s[j..k] == c && s[k..m] == mid && s[m..] == t;
  }

  /** No match starts inside a prefix in which the lead's first character does
      not occur. */
  lemma NoMatchInPrefix(p: Pattern, pre: string, rest: string)
    requires |p.lead| > 0 && p.lead[0] !in pre
    ensures forall j: nat, c': string, t': string :: j < |pre| ==> !Matches(p, pre + rest, j, c', t')
  {
    var s := pre + rest;
    forall j: nat, c': string, t': string | j < |pre|
      ensures !Matches(p, s, j, c', t')
    {
      assert s[j] == pre[j];
      if |p.lead| <= |s| - j {
        assert s[j..j + |p.lead|][0] == s[j];
      }
    }
  }

  /** Round trip, for any well-formed pattern: a descriptor written as the
      lead, a case id, one of the middles and a tenant id, after any text in
      which the lead's first character does not occur, is found where the
      lead starts and gives back the ids. */
  lemma RoundTrip(p: Pattern, pre: string, c: string, mid: string, t: string)
    requires WellFormed(p)
    requires p.lead[0] !in pre
    requires IsId(c) && IsId(t) && IsMiddle(p, mid)
    ensures Search(p, pre + p.lead + c + mid + t, 0) == Some(|pre|)
    ensures MatchAt(p, pre + p.lead + c + mid + t, |pre|) == Some((c, t))
  {
    var rest := p.lead + c + mid + t;
    assert pre + p.lead + c + mid + t == pre + rest;
    LaidOutMatches(p, pre, c, mid, t);
    NoMatchInPrefix(p, pre, rest);
    SearchFinds(p, pre + rest, 0, |pre|, c, t);
  }

  /** Round trip for the handler's own pattern: a descriptor written as
      "case with ID <c> exists for tenant with ID <t>", or with "is ready for a
      decision" in place of "exists", after text without a 'c' in it (such as
      "a "), gives back (c, t). */
  lemma DescriptorRoundTrip(pre: string, c: string, mid: string, t: string)
    requires 'c' !in pre
    requires IsId(c) && IsId(t) && IsMiddle(StatePattern, mid)
    ensures Groups(pre + StatePattern.lead + c + mid + t) == Some((c, t))
  {
    StatePatternWellFormed();
    RoundTrip(StatePattern, pre, c, mid, t);
  }

  /** For any well-formed pattern: wherever the text reads lead, an id, a
      middle and an id (the last one not necessarily a whole run), the search
      finds a match. */
  lemma OccurrenceFound(p: Pattern, s: string, i: nat, c: string, mid: string, t: string)
    requires WellFormed(p) && IsMiddle(p, mid) && ReadsAt(p, s, i, c, mid, t)
    ensures Search(p, s, 0).Some?
  {
    var j := i + |p.lead|;
    var k := j + |c|;
    var m := k + |mid|;
    var e := m + |t|;
    var n := RunLength(s, e);
    RunFacts(s, e);
    IdSliceChars(s, m, e);
    CharsAreId(s, m, e + n);
    MatchesViaIntro(p, s, i, j, k, m, e + n, mid);
    assert Matches(p, s, i, s[j..k], s[m..e + n]);
    SearchNone(p, s, 0);
  }

  /** A descriptor in which the handler's pattern occurs anywhere is
      recognised. */
  lemma OccurrenceRecognised(s: string, i: nat, c: string, mid: string, t: string)
    requires IsMiddle(StatePattern, mid) && ReadsAt(StatePattern, s, i, c, mid, t)
    ensures Groups(s).Some?
  {
    StatePatternWellFormed();
    OccurrenceFound(StatePattern, s, i, c, mid, t);
  }

  /** An example case id, the one the Pact test uses, and an example tenant. */
  lemma PactIdsAreIds()
    ensures IsId("ER-2024-08-124") && IsId("acme")
  {
  }

  /** An example descriptor carrying the Pact test's case id yields the case and tenant ids. */
  lemma PactStateExample()
    ensures Groups("case with ID " + "ER-2024-08-124" + " exists for tenant with ID " + "acme")
              == Some(("ER-2024-08-124", "acme"))
  {
    PactIdsAreIds();
    DescriptorRoundTrip("", "ER-2024-08-124", StatePattern.existsMiddle, "acme");
    assert "" + "case with ID " == "case with ID ";
  }

  // ---------------------------------------------------------------------------
  // The endpoint

  const TaskQueue: string := "pact-verification-task-queue"

  /** The `start_workflow` request: workflow run method, its three arguments
      (process name, version and the submitter in the canned payload), the
      workflow id, the task queue and the id reuse policy. */
  datatype StartRequest = StartRequest(
    workflow: string,
    processName: string,
    processVersion: string,
    submitterName: string,
    id: string,
    taskQueue: string,
    idReusePolicy: string)

  /** The fixture workflow started for a case id. */
  function FixtureStart(caseId: string): (w: StartRequest)
    ensures w.id == caseId && w.idReusePolicy == "TerminateIfRunning"
    ensures w.taskQueue == TaskQueue
  {
    StartRequest("FlexibleCaseWorkflow.run", "expense_approval", "1.0.0", "Pact Test",
                 caseId, TaskQueue, "TerminateIfRunning")
  }

  /** What one request did: the workflow start it asked of the engine, if any,
      and its reply, where Ok(v) is the body {"result": v}. */
  datatype Setup = Setup(started: Option<StartRequest>, reply: Result<string>)

  const UnavailableDetail: string := "Temporal client is not available."
  const StartFailedDetail: string := "Failed to start workflow for Pact state"

  /** The provider-state handler. `client` is the shared handle, `state` the
      descriptor, and `start` how the engine's start_workflow call ends if it
      is made. An RPC error is turned into 500; any other exception escapes
      the handler and the server answers 500 as well. */
  function HandleProviderState(client: Option<Client>, state: string, start: Outcome<()>): (r: Setup)
    ensures client.None? ==> r == Setup(None, Err(503, UnavailableDetail))
    ensures client.Some? && Groups(state).None? ==> r == Setup(None, Ok("State not found"))
    ensures r.started.Some? <==> client.Some? && Groups(state).Some?
    ensures r.started.Some? ==> r.started.value == FixtureStart(Groups(state).value.0)
    ensures r.reply == Ok("ok") <==> r.started.Some? && start.Returned?
    ensures r.started.Some? && start.Threw? ==> r.reply.Err? && r.reply.status == 500
    ensures r.reply.Err? ==> r.reply.status in {500, 503}
  {
    if client.None? then Setup(None, Err(503, UnavailableDetail))
    else
      match Groups(state)
      case None => Setup(None, Ok("State not found"))
      case Some((caseId, tenantId)) =>
        var w := FixtureStart(caseId);
        match start
        case Returned(_) => Setup(Some(w), Ok("ok"))
        case Threw(RpcError(_, _)) => Setup(Some(w), Err(500, StartFailedDetail))
        case Threw(OtherException(_)) => Setup(Some(w), Forward(Uncaught))
  }

  /** The tenant id in the descriptor is parsed but not used: two descriptors
      that name the same case are handled alike whatever tenants they name. */
  lemma TenantGroupUnused(client: Option<Client>, s1: string, s2: string, start: Outcome<()>)
    requires Groups(s1).Some? && Groups(s2).Some?
    requires Groups(s1).value.0 == Groups(s2).value.0
    ensures HandleProviderState(client, s1, start) == HandleProviderState(client, s2, start)
  {
  }

  /** The other phrasing, after an article: the fixture workflow is started
      under the case id ER-2024-08-124 and the reply is {"result": "ok"}. */
  lemma PactReadyStateExample(client: Client)
    ensures HandleProviderState(Some(client),
              "a " + "case with ID " + "ER-2024-08-124" + " is ready for a decision for tenant with ID " + "acme",
              Returned(())) == Setup(Some(FixtureStart("ER-2024-08-124")), Ok("ok"))
  {
    PactIdsAreIds();
    DescriptorRoundTrip("a ", "ER-2024-08-124", StatePattern.readyMiddle, "acme");
  }

  /** A descriptor that names no case is answered benignly and starts nothing. */
  lemma UnknownStateExample(client: Client, start: Outcome<()>)
    ensures HandleProviderState(Some(client), "a user exists", start) == Setup(None, Ok("State not found"))
  {
    var s := "a user exists";
    var p := StatePattern;
    forall j: nat, c: string, t: string
      ensures !Matches(p, s, j, c, t)
    {
      assert |s| < |p.lead| + |p.existsMiddle| && |s| < |p.lead| + |p.readyMiddle|;
    }

  }
}
