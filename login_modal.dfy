/**
 * The login dialog: the mnemonic being typed, its local error, the
 * 12-word check and the two handlers.
 *
 * `login` is the session store's `Login`, which reports every failure
 * through the wallet state and never rejects; the dialog records the string
 * it passed in `loginRequests`.
 */
module LoginModal {
  import opened Wrappers
  import opened Text

  const WORD_COUNT_ERROR := "Please enter exactly 12 words"
  const REQUIRED_WORDS := 12

  /** The longest prefix of `s` without whitespace. */
  function TakeWord(s: string): (w: string)
    ensures |w| <= |s| && w == s[..|w|] && NoSpace(w)
    ensures |w| == |s| || IsSpace(s[|w|])
  {
    if s == [] || IsSpace(s[0]) then [] else [s[0]] + TakeWord(s[1..])
  }

  /** `s.split(/\s+/)`: the pieces between maximal whitespace runs; `""` gives `[""]`. */
  function Split(s: string): (parts: seq<string>)
    ensures |parts| >= 1
    decreases |s|
  {
    var w := TakeWord(s);
    if |w| == |s| then [w]
    else
      var rest := s[|w|..];
      assert rest != [] && IsSpace(rest[0]);
      assert TrimStart(rest) == TrimStart(rest[1..]);
      assert |TrimStart(rest[1..])| <= |rest| - 1;
      [w] + Split(TrimStart(rest))
  }

  /** No piece of a split holds whitespace. */
  lemma {:induction false} SplitPiecesHaveNoSpace(s: string)
    ensures forall i :: 0 <= i < |Split(s)| ==> NoSpace(Split(s)[i])
    decreases |s|
  {
    var w := TakeWord(s);
    if |w| < |s| {
      var rest := s[|w|..];
      assert TrimStart(rest) == TrimStart(rest[1..]);
      SplitPiecesHaveNoSpace(TrimStart(rest));
      assert Split(s) == [w] + Split(TrimStart(rest));
    }
  }

  /** `mnemonic.trim().split(/\s+/).length`. */
  function WordCount(mnemonic: string): nat {
    |Split(Trim(mnemonic))|
  }

  /** Words laid out with one separator between each two. */
  function JoinWith(words: seq<string>, seps: seq<string>): (s: string)
    requires |words| == |seps| + 1
    requires forall i :: 0 <= i < |words| ==> words[i] != ""
    ensures |s| > 0 && s[0] == words[0][0] && s[|s| - 1] == words[|words| - 1][|words[|words| - 1]| - 1]
    decreases |seps|
  {
    if seps == [] then words[0]
    else words[0] + seps[0] + JoinWith(words[1..], seps[1..])
  }

  lemma {:induction false} TakeWordOf(w: string, t: string)
    requires NoSpace(w) && (t == [] || IsSpace(t[0]))
    ensures TakeWord(w + t) == w
    decreases |w|
  {
    if w == [] {
      assert w + t == t;
    } else {
      assert (w + t)[0] == w[0] && (w + t)[1..] == w[1..] + t;
      TakeWordOf(w[1..], t);
      assert w == [w[0]] + w[1..];
    }
  }

  /** One word, one separator, and the rest beginning with a word. */
  lemma {:induction false} SplitUnfold(w: string, sep: string, rest: string)
    requires w != "" && NoSpace(w) && sep != "" && AllSpace(sep) && rest != "" && !IsSpace(rest[0])
    ensures Split(w + sep + rest) == [w] + Split(rest)
  {
    var s := w + sep + rest;
    assert s == w + (sep + rest);
    TakeWordOf(w, sep + rest);
    assert s[|w|..] == sep + rest;
    TrimStartPadding(sep, rest);
  }

  lemma HeadTail(xs: seq<string>)
    requires xs != []
    ensures [xs[0]] + xs[1..] == xs
  {
  }

  /** Splitting gives back the words, whatever whitespace runs separate them. */
  lemma {:induction false} SplitJoin(words: seq<string>, seps: seq<string>)
    requires |words| == |seps| + 1
    requires forall i :: 0 <= i < |words| ==> words[i] != "" && NoSpace(words[i])
    requires forall i :: 0 <= i < |seps| ==> seps[i] != "" && AllSpace(seps[i])
    ensures Split(JoinWith(words, seps)) == words
    decreases |seps|
  {
    if seps == [] {
      TakeWordOf(words[0], []);
      assert words[0] + [] == words[0];
      assert words == [words[0]];
    } else {
      var ws, ss := words[1..], seps[1..];
      assert forall i :: 0 <= i < |ws| ==> ws[i] == words[i + 1];
      assert forall i :: 0 <= i < |ss| ==> ss[i] == seps[i + 1];
      var rest := JoinWith(ws, ss);
      assert rest[0] == words[1][0] && !IsSpace(words[1][0]);
      assert JoinWith(words, seps) == words[0] + seps[0] + rest;
      SplitUnfold(words[0], seps[0], rest);
      SplitJoin(ws, ss);
      HeadTail(words);
    }
  }

  lemma NoEdgeSpaceTrimsToSelf(s: string)
    requires s != [] && !IsSpace(s[0]) && !IsSpace(s[|s| - 1])
    ensures Trim(s) == s
  {
  }

  /**
   * The word count ignores leading and trailing whitespace and counts each
   * whitespace run as one separator.
   */
  lemma {:induction false} WordCountOfJoin(pre: string, words: seq<string>, seps: seq<string>, post: string)
    requires AllSpace(pre) && AllSpace(post)
    requires |words| == |seps| + 1
    requires forall i :: 0 <= i < |words| ==> words[i] != "" && NoSpace(words[i])
    requires forall i :: 0 <= i < |seps| ==> seps[i] != "" && AllSpace(seps[i])
    ensures WordCount(pre + JoinWith(words, seps) + post) == |words|
  {
    var s := JoinWith(words, seps);
    TrimIgnoresPadding(pre, s, post);
    NoEdgeSpaceTrimsToSelf(s);
    SplitJoin(words, seps);
  }

  /** Whitespace alone, the empty string included, counts as one word. */
  lemma {:induction false} BlankIsOneWord(s: string)
    requires AllSpace(s)
    ensures WordCount(s) == 1
  {
    SpaceOnlyTrimsToEmpty(s);
    assert Trim(s) == TrimEnd([]) == [];
  }

  /** `mnemonic.trim().split(/\s+/)`: as many words as `WordCount` gives, none holding whitespace. */
  method SplitPhrase(mnemonic: string) returns (words: seq<string>)
    ensures |words| == WordCount(mnemonic)
    ensures forall i :: 0 <= i < |words| ==> NoSpace(words[i])
  {
    words := Split(Trim(mnemonic));
    SplitPiecesHaveNoSpace(Trim(mnemonic));
  }

  class LoginDialog {
    var mnemonic: string
    var localError: Option<string>
    var closeCalls: nat
    var loginRequests: seq<string>

    constructor()
      ensures mnemonic == "" && localError == None && closeCalls == 0 && loginRequests == []
    {
      mnemonic := "";
      localError := None;
      closeCalls := 0;
      loginRequests := [];
    }

    /**
     * `handleSubmit`: anything but twelve words is refused with a message
     * and no login; twelve words are passed to `login` as typed, after which
     * the field is cleared and the dialog closed.
     */
    method HandleSubmit()
      modifies this`mnemonic, this`localError, this`closeCalls, this`loginRequests
      ensures WordCount(old(mnemonic)) != REQUIRED_WORDS ==>
        localError == Some(WORD_COUNT_ERROR) && mnemonic == old(mnemonic) &&
        loginRequests == old(loginRequests) && closeCalls == old(closeCalls)
      ensures WordCount(old(mnemonic)) == REQUIRED_WORDS ==>
        localError == None && mnemonic == "" &&
        loginRequests == old(loginRequests) + [old(mnemonic)] && closeCalls == old(closeCalls) + 1
    {
      localError := None;
      var words := SplitPhrase(mnemonic);
      if |words| != REQUIRED_WORDS {
        localError := Some(WORD_COUNT_ERROR);
      } else {
        loginRequests := loginRequests + [mnemonic];
        mnemonic := "";
        closeCalls := closeCalls + 1;
      }
    }

    /** `handleClose`: clears the field and the local error, then closes. */
    method HandleClose()
      modifies this`mnemonic, this`localError, this`closeCalls
      ensures mnemonic == "" && localError == None && closeCalls == old(closeCalls) + 1
    {
      mnemonic := "";
      localError := None;
      closeCalls := closeCalls + 1;
    }

    /** The message shown: the local error, falling back to the wallet's; nothing when neither is truthy. */
    function DisplayedError(walletError: Option<string>): (shown: Option<string>)
      reads this
      ensures shown.Some? ==> shown.value != "" && (shown == localError || shown == walletError)
      ensures shown.None? <==> (localError.None? || localError.value == "") && (walletError.None? || walletError.value == "")
      ensures localError.Some? && localError.value != "" ==> shown == localError
    {
      if localError.Some? && localError.value != "" then localError
      else if walletError.Some? && walletError.value != "" then walletError
      else None
    }

    /** The submit button is disabled while logging in or when the field holds only whitespace. */
    function SubmitDisabled(isLoading: bool): (disabled: bool)
      reads this
      ensures !isLoading && WordCount(mnemonic) == REQUIRED_WORDS ==> !disabled
      ensures disabled <==> isLoading || Trim(mnemonic) == ""
    {
      SubmitNonBlankHasText(mnemonic);
      isLoading || Trim(mnemonic) == ""
    }
  }

  /** Twelve words make the trimmed field non-empty, so a valid phrase can always be submitted. */
  lemma SubmitNonBlankHasText(m: string)
    ensures WordCount(m) == REQUIRED_WORDS ==> Trim(m) != ""
  {
  }

  /** A typed phrase of twelve words, however spaced, reaches `login` unchanged. */
  method SubmitTwelveWords(dialog: LoginDialog, pre: string, words: seq<string>, seps: seq<string>, post: string)
    requires AllSpace(pre) && AllSpace(post) && |words| == 12 && |seps| == 11
    requires forall i :: 0 <= i < |words| ==> words[i] != "" && NoSpace(words[i])
    requires forall i :: 0 <= i < |seps| ==> seps[i] != "" && AllSpace(seps[i])
    modifies dialog
    ensures dialog.loginRequests == old(dialog.loginRequests) + [pre + JoinWith(words, seps) + post]
    ensures dialog.mnemonic == "" && dialog.closeCalls == old(dialog.closeCalls) + 1
  {
    dialog.mnemonic := pre + JoinWith(words, seps) + post;
    WordCountOfJoin(pre, words, seps, post);
    dialog.HandleSubmit();
  }
}
