/**
 * The policy details dialog: the description normaliser and the render
 * guards.
 *
 * `description.replace(/\n\s*\n\s*\n+/g, "\n\n")` is described run by run.
 * A maximal run of whitespace holding three or more line feeds is one match
 * of the expression, from its first line feed to its last. The match is
 * replaced by two line feeds, and the whitespace before the first and after
 * the last line feed stays. Runs with fewer line feeds, and all other text,
 * are unchanged.
 */
module PolicyDetails {
  import opened Wrappers
  import opened Text
  import opened Types
  import ChainProvider

  const POLICYVOTER_BASE := "https://policyvoter.com/"
  const IS_VOTING_TYPE_ERROR := "isVoting is not a function"

  function NewlineCount(s: string): nat {
    if s == [] then 0 else (if s[0] == '\n' then 1 else 0) + NewlineCount(s[1..])
  }

  lemma {:induction false} NewlineCountAppend(a: string, b: string)
    ensures NewlineCount(a + b) == NewlineCount(a) + NewlineCount(b)
    decreases |a|
  {
    if a == [] {
      assert a + b == b;
    } else {
      assert (a + b)[0] == a[0] && (a + b)[1..] == a[1..] + b;
      NewlineCountAppend(a[1..], b);
    }
  }

  /** The longest whitespace prefix of `s`. */
  function TakeSpaces(s: string): (w: string)
    ensures |w| <= |s| && w == s[..|w|] && AllSpace(w)
    ensures |w| == |s| || !IsSpace(s[|w|])
    ensures s != [] && IsSpace(s[0]) ==> w != []
  {
    if s == [] || !IsSpace(s[0]) then [] else [s[0]] + TakeSpaces(s[1..])
  }

  /** The longest prefix of `s` without a line feed. */
  function Lead(s: string): (w: string)
    ensures |w| <= |s| && w == s[..|w|] && NewlineCount(w) == 0
  {
    if s == [] || s[0] == '\n' then [] else [s[0]] + Lead(s[1..])
  }

  /** The longest suffix of `s` without a line feed. */
  function Trail(s: string): (w: string)
    ensures |w| <= |s| && w == s[|s| - |w|..] && NewlineCount(w) == 0
  {
    if s == [] || s[|s| - 1] == '\n' then []
    else
      var w := Trail(s[..|s| - 1]) + [s[|s| - 1]];
      NewlineCountAppend(Trail(s[..|s| - 1]), [s[|s| - 1]]);
      w
  }

  /** One whitespace run after replacement. */
  function CollapseRun(run: string): (r: string)
    requires AllSpace(run)
    ensures AllSpace(r) && (run != [] ==> r != [])
    ensures NewlineCount(r) < 3
    ensures NewlineCount(run) < 3 ==> r == run
  {
    if NewlineCount(run) >= 3 then
      var l, t := Lead(run), Trail(run);
      NewlineCountAppend(l, "\n\n");
      NewlineCountAppend(l + "\n\n", t);
      assert AllSpace(l) by { forall k | 0 <= k < |l| ensures IsSpace(l[k]) { assert l[k] == run[k]; } }
      assert AllSpace(t) by { forall k | 0 <= k < |t| ensures IsSpace(t[k]) { assert t[k] == run[|run| - |t| + k]; } }
      l + "\n\n" + t
    else run
  }

  /** The normalised description. */
  function Normalize(s: string): (r: string)
    ensures s != [] && !IsSpace(s[0]) ==> r != [] && r[0] == s[0]
    decreases |s|
  {
    if s == [] then []
    else if !IsSpace(s[0]) then [s[0]] + Normalize(s[1..])
    else
      var run := TakeSpaces(s);
      CollapseRun(run) + Normalize(s[|run|..])
  }

  /** No maximal whitespace run of `s` holds three or more line feeds. */
  predicate Calm(s: string)
    decreases |s|
  {
    if s == [] then true
    else if !IsSpace(s[0]) then Calm(s[1..])
    else
      var run := TakeSpaces(s);
      NewlineCount(run) < 3 && Calm(s[|run|..])
  }

  lemma {:induction false} TakeSpacesOf(w: string, t: string)
    requires AllSpace(w) && (t == [] || !IsSpace(t[0]))
    ensures TakeSpaces(w + t) == w
    decreases |w|
  {
    if w == [] {
      assert w + t == t;
    } else {
      assert (w + t)[0] == w[0] && (w + t)[1..] == w[1..] + t;
      TakeSpacesOf(w[1..], t);
      assert w == [w[0]] + w[1..];
    }
  }

  /** After normalisation no whitespace run holds three or more line feeds. */
  lemma {:induction false} NormalizeIsCalm(s: string)
    ensures Calm(Normalize(s))
    decreases |s|
  {
    if s == [] {
    } else if !IsSpace(s[0]) {
      NormalizeIsCalm(s[1..]);
      assert ([s[0]] + Normalize(s[1..]))[1..] == Normalize(s[1..]);
    } else {
      var run := TakeSpaces(s);
      var rest := s[|run|..];
      var c := CollapseRun(run);
      var r := c + Normalize(rest);
      TakeSpacesOf(c, Normalize(rest));
      assert r[|c|..] == Normalize(rest);
      NormalizeIsCalm(rest);
    }
  }

  /** A description with no such run is left as it is. */
  lemma {:induction false} CalmIsFixed(s: string)
    requires Calm(s)
    ensures Normalize(s) == s
    decreases |s|
  {
    if s == [] {
    } else if !IsSpace(s[0]) {
      CalmIsFixed(s[1..]);
      assert s == [s[0]] + s[1..];
    } else {
      var run := TakeSpaces(s);
      var rest := s[|run|..];
      assert NewlineCount(run) < 3 && Calm(rest);
      assert CollapseRun(run) == run;
      CalmIsFixed(rest);
      assert Normalize(s) == run + Normalize(rest);
      assert s == run + rest;
    }
  }

  /** Normalising twice is normalising once. */
  lemma {:induction false} NormalizeIdempotent(s: string)
    ensures Normalize(Normalize(s)) == Normalize(s)
  {
    NormalizeIsCalm(s);
    CalmIsFixed(Normalize(s));
  }

  /** The non-whitespace characters of `s`, in order. */
  function Visible(s: string): string {
    if s == [] then [] else (if IsSpace(s[0]) then [] else [s[0]]) + Visible(s[1..])
  }

  lemma {:induction false} VisibleAppend(a: string, b: string)
    ensures Visible(a + b) == Visible(a) + Visible(b)
    decreases |a|
  {
    if a == [] {
      assert a + b == b;
    } else {
      assert (a + b)[0] == a[0] && (a + b)[1..] == a[1..] + b;
      VisibleAppend(a[1..], b);
    }
  }

  lemma {:induction false} VisibleOfSpaces(s: string)
    requires AllSpace(s)
    ensures Visible(s) == []
    decreases |s|
  {
    if s != [] {
      VisibleOfSpaces(s[1..]);
    }
  }

  /** Normalisation only ever rewrites whitespace: the visible text is unchanged. */
  lemma {:induction false} NormalizeKeepsVisible(s: string)
    ensures Visible(Normalize(s)) == Visible(s)
    decreases |s|
  {
    if s == [] {
    } else if !IsSpace(s[0]) {
      var tail := Normalize(s[1..]);
      assert Normalize(s) == [s[0]] + tail;
      NormalizeKeepsVisible(s[1..]);
      VisibleAppend([s[0]], tail);
      assert Visible([s[0]]) == [s[0]] + Visible([]);
      assert Visible(s) == [s[0]] + Visible(s[1..]);
    } else {
      var run := TakeSpaces(s);
      var rest := s[|run|..];
      var c := CollapseRun(run);
      assert Normalize(s) == c + Normalize(rest);
      NormalizeKeepsVisible(rest);
      VisibleAppend(c, Normalize(rest));
      VisibleOfSpaces(c);
      assert s == run + rest;
      VisibleAppend(run, rest);
      VisibleOfSpaces(run);
    }
  }

  /** What the dialog shows for one policy. */
  datatype View = View(
    rank: Option<int>,
    totalVotes: int,
    title: string,
    categoryName: string,
    username: string,
    votedBanner: bool,
    description: string,
    externalLink: string,
    voteControls: bool)

  /**
   * The dialog's content as intended: nothing without a policy; the "You voted" banner
   * only for a logged-in user whose cached vote status is exactly `true`;
   * the vote controls never, since their block is switched off.
   */
  function Render(policy: Option<Policy>, isLoggedIn: bool, voteStatus: Option<bool>): (v: Option<View>)
    ensures v.None? <==> policy.None?
    ensures v.Some? ==> (v.value.votedBanner <==> isLoggedIn && voteStatus == Some(true))
    ensures v.Some? ==> v.value.externalLink == POLICYVOTER_BASE + policy.value.policyId
    ensures v.Some? ==> v.value.description == Normalize(policy.value.description) && Calm(v.value.description)
    ensures v.Some? ==> !v.value.voteControls
    ensures v.Some? ==> v.value.rank == policy.value.rank && v.value.totalVotes == policy.value.totalVotes
  {
    match policy
    case None => None
    case Some(p) =>
      NormalizeIsCalm(p.description);
      Some(View(
        p.rank,
        p.totalVotes,
        p.title,
        p.category.name,
        p.creator.username,
        isLoggedIn && voteStatus == Some(true),
        Normalize(p.description),
        POLICYVOTER_BASE + p.policyId,
        false && isLoggedIn && voteStatus.Some?))
  }

  /**
   * The dialog as written. With a policy it calls `isVoting` from the chain
   * context before it builds any content, so a context without that member
   * throws a `TypeError` instead of rendering; without a policy it returns
   * nothing before that call.
   */
  function RenderAsWritten(policy: Option<Policy>, isLoggedIn: bool, voteStatus: Option<bool>, context: set<string>)
    : (r: Result<Option<View>>)
    ensures policy.None? ==> r == Ok(None)
    ensures policy.Some? ==> (r.Err? <==> "isVoting" !in context)
    ensures r.Err? ==> r.error == IS_VOTING_TYPE_ERROR
    ensures r.Ok? ==> r.value == Render(policy, isLoggedIn, voteStatus)
  {
    if policy.None? then Ok(None)
    else if "isVoting" !in context then Err(IS_VOTING_TYPE_ERROR)
    else Ok(Render(policy, isLoggedIn, voteStatus))
  }

  /**
   * The chain provider's context has no `isVoting`, so the dialog as written
   * throws for every policy a row click selects, where the intended dialog
   * shows its title and normalised description.
   */
  lemma SelectedPolicyThrows(p: Policy, isLoggedIn: bool, voteStatus: Option<bool>)
    ensures RenderAsWritten(Some(p), isLoggedIn, voteStatus, ChainProvider.CONTEXT_MEMBERS) == Err(IS_VOTING_TYPE_ERROR)
    ensures var v := Render(Some(p), isLoggedIn, voteStatus);
      v.Some? && v.value.title == p.title && v.value.description == Normalize(p.description)
  {
    assert "isVoting" !in ChainProvider.CONTEXT_MEMBERS;
  }
}
