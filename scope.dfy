/** `AuthProvider::cleanup_scope`: the normalisation applied to a provider's
    scope string before it is stored. The input is split on single spaces,
    empty pieces are dropped, each remaining piece is trimmed, and the pieces
    are joined with '+'. The emptiness test runs BEFORE the trim, so a piece
    made only of other whitespace (a tab, say) survives as an empty token. */
module Scope {
  import opened Strings

  /** The `filter_map` step: an empty piece is dropped, any other is trimmed. */
  function KeepTrimmed(pieces: seq<string>): (r: seq<string>)
    ensures |r| <= |pieces|
    ensures (forall k | 0 <= k < |pieces| :: pieces[k] != "") ==> |r| == |pieces|
  {
    if pieces == [] then []
    else (if pieces[0] != "" then [Trim(pieces[0])] else []) + KeepTrimmed(pieces[1..])
  }

  /** `cleanup_scope`. The result never contains a space. */
  function CleanupScope(scope: string): (r: string)
    ensures ' ' !in r
  {
    var pieces := Split(scope, ' ');
    SplitPiecesSeparatorFree(scope, ' ');
    KeepTrimmedSeparatorFree(pieces, ' ');
    JoinWithSeparatorFree(KeepTrimmed(pieces), "+", ' ');
    JoinWith(KeepTrimmed(pieces), "+")
  }

  // ---------------------------------------------------------------------
  // An independent reading of the tokens: the maximal runs of non-space
  // characters, found by skipping spaces and taking the longest run.
  // ---------------------------------------------------------------------

  /** `s` without its leading spaces. */
  function SkipSpaces(s: string): (t: string)
    ensures |t| <= |s| && t == s[|s| - |t|..]
    ensures t == [] || t[0] != ' '
  {
    if s != [] && s[0] == ' ' then SkipSpaces(s[1..]) else s
  }

  /** The longest prefix of `s` that contains no space. */
  function Run(s: string): (w: string)
    ensures |w| <= |s| && w == s[..|w|] && ' ' !in w
    ensures |w| == |s| || s[|w|] == ' '
    ensures s != [] && s[0] != ' ' ==> w != []
  {
    if s == [] || s[0] == ' ' then "" else [s[0]] + Run(s[1..])
  }

  /** The space-separated words of `s`, in order. */
  function Words(s: string): (ws: seq<string>)
    decreases |s|
  {
    var t := SkipSpaces(s);
    if t == [] then []
    else
      var w := Run(t);
      [w] + Words(t[|w|..])
  }

  function NonEmpty(pieces: seq<string>): seq<string> {
    if pieces == [] then []
    else (if pieces[0] != "" then [pieces[0]] else []) + NonEmpty(pieces[1..])
  }

  function TrimAll(ts: seq<string>): (r: seq<string>)
    ensures |r| == |ts|
    ensures forall k | 0 <= k < |ts| :: r[k] == Trim(ts[k])
  {
    if ts == [] then [] else [Trim(ts[0])] + TrimAll(ts[1..])
  }

  // ---------------------------------------------------------------------
  // Properties of cleanup_scope
  // ---------------------------------------------------------------------

  /** Every normalised scope is the '+'-join of the trimmed words of the input:
      each non-empty space-separated token is kept, trimmed, in its original
      order, and nothing else is kept. */
  lemma CleanupScopeIsJoinOfTrimmedWords(scope: string)
    ensures CleanupScope(scope) == JoinWith(TrimAll(Words(scope)), "+")
  {
    KeepTrimmedIsTrimAllNonEmpty(Split(scope, ' '));
    NonEmptySplitIsWords(scope);
  }

  /** Normalising a normalised scope changes nothing. */
  lemma CleanupScopeIdempotent(scope: string)
    ensures CleanupScope(CleanupScope(scope)) == CleanupScope(scope)
  {
    var r := CleanupScope(scope);
    var tokens := KeepTrimmed(Split(scope, ' '));
    KeepTrimmedAreTrimmed(Split(scope, ' '));
    JoinTrimmedIsTrimmed(tokens);
    SplitSeparatorFree(r, ' ');
    if r != "" {
      TrimOfTrimmed(r);
      assert KeepTrimmed([r]) == [Trim(r)];
    } else {
      assert KeepTrimmed([r]) == [];
    }
  }

  /** A piece of other whitespace between two spaces survives as an empty
      token: "a \t b" normalises to "a++b", not to "a+b". */
  lemma CleanupScopeKeepsWhitespaceToken()
    ensures CleanupScope("a \t b") == "a++b"
  {
    SplitSeparatorFree("b", ' ');
    assert " b"[1..] == "b";
    assert Split(" b", ' ') == ["", "b"];
    assert "\t b"[1..] == " b";
    assert Split("\t b", ' ') == [['\t'] + ""] + ["b"];
    assert ['\t'] + "" == "\t";
    assert Split("\t b", ' ') == ["\t", "b"];
    assert " \t b"[1..] == "\t b";
    assert Split(" \t b", ' ') == [""] + ["\t", "b"];
    assert "a \t b"[1..] == " \t b";
    assert Split("a \t b", ' ') == [['a'] + ""] + ["\t", "b"];
    assert ['a'] + "" == "a";
    assert Trim("a") == "a";
    assert Trim("b") == "b";
    assert TrimStart("\t") == "";
    assert Trim("\t") == "";
    assert KeepTrimmed(["a", "\t", "b"]) == ["a", "", "b"];
  }

  // ---------------------------------------------------------------------
  // Helper facts
  // ---------------------------------------------------------------------

  lemma {:induction false} KeepTrimmedSeparatorFree(pieces: seq<string>, c: char)
    requires forall k | 0 <= k < |pieces| :: c !in pieces[k]
    ensures forall k | 0 <= k < |KeepTrimmed(pieces)| :: c !in KeepTrimmed(pieces)[k]
  {
    if pieces != [] {
      TrimKeepsNoNewChars(pieces[0], c);
      KeepTrimmedSeparatorFree(pieces[1..], c);
    }
  }

  lemma {:induction false} JoinWithSeparatorFree(ts: seq<string>, sep: string, c: char)
    requires forall k | 0 <= k < |ts| :: c !in ts[k]
    requires c !in sep
    ensures c !in JoinWith(ts, sep)
  {
    if |ts| > 1 {
      JoinWithSeparatorFree(ts[1..], sep, c);
    }
  }

  lemma {:induction false} KeepTrimmedIsTrimAllNonEmpty(pieces: seq<string>)
    ensures KeepTrimmed(pieces) == TrimAll(NonEmpty(pieces))
  {
    if pieces != [] {
      KeepTrimmedIsTrimAllNonEmpty(pieces[1..]);
      if pieces[0] != "" {
        assert TrimAll([pieces[0]] + NonEmpty(pieces[1..])) == [Trim(pieces[0])] + TrimAll(NonEmpty(pieces[1..]));
      }
    }
  }

  lemma {:induction false} KeepTrimmedAreTrimmed(pieces: seq<string>)
    ensures forall k | 0 <= k < |KeepTrimmed(pieces)| :: IsTrimmed(KeepTrimmed(pieces)[k])
  {
    if pieces != [] {
      TrimIsTrimmedSlice(pieces[0]);
      KeepTrimmedAreTrimmed(pieces[1..]);
    }
  }

  /** Joining trimmed tokens with '+' gives a string whose ends are not
      whitespace (an empty first or last token leaves a '+' at that end). */
  lemma {:induction false} JoinTrimmedIsTrimmed(ts: seq<string>)
    requires forall k | 0 <= k < |ts| :: IsTrimmed(ts[k])
    ensures IsTrimmed(JoinWith(ts, "+"))
  {
    if |ts| > 1 {
      JoinTrimmedIsTrimmed(ts[1..]);
      var rest := JoinWith(ts[1..], "+");
      var j := ts[0] + "+" + rest;
      assert JoinWith(ts, "+") == j;
      assert j[0] == if ts[0] == [] then '+' else ts[0][0];
      assert j[|j| - 1] == if rest == [] then '+' else rest[|rest| - 1];
    }
  }

  /** Splitting a space-free non-empty prefix onto the rest glues it to the
      first piece of the rest. */
  lemma {:induction false} SplitGluesPrefix(w: string, rest: string)
    requires ' ' !in w
    ensures Split(w + rest, ' ') == [w + Split(rest, ' ')[0]] + Split(rest, ' ')[1..]
  {
    if w != [] {
      assert (w + rest)[1..] == w[1..] + rest;
      assert ' ' !in w[1..];
      SplitGluesPrefix(w[1..], rest);
      assert [w[0]] + (w[1..] + Split(rest, ' ')[0]) == w + Split(rest, ' ')[0];
    } else {
      assert w + rest == rest;
      assert w + Split(rest, ' ')[0] == Split(rest, ' ')[0];
      assert Split(rest, ' ') == [Split(rest, ' ')[0]] + Split(rest, ' ')[1..];
    }
  }

  /** Dropping the empty pieces of the split leaves exactly the words. */
  lemma {:induction false} NonEmptySplitIsWords(s: string)
    ensures NonEmpty(Split(s, ' ')) == Words(s)
    decreases |s|
  {
    if s == [] {
    } else if s[0] == ' ' {
      NonEmptySplitIsWords(s[1..]);
      assert SkipSpaces(s) == SkipSpaces(s[1..]);
      assert Split(s, ' ') == [""] + Split(s[1..], ' ');
      assert NonEmpty([""] + Split(s[1..], ' ')) == NonEmpty(Split(s[1..], ' '));
    } else {
      var w := Run(s);
      var rest := s[|w|..];
      assert s == w + rest;
      SplitGluesPrefix(w, rest);
      SplitFirstPiece(rest, ' ');
      var pr := Split(rest, ' ');
      assert pr[0] == "";
      assert pr == [""] + pr[1..];
      assert NonEmpty([""] + pr[1..]) == NonEmpty(pr[1..]);
      assert w + pr[0] == w;
      assert Split(s, ' ') == [w] + pr[1..];
      assert NonEmpty([w] + pr[1..]) == [w] + NonEmpty(pr[1..]);
      NonEmptySplitIsWords(rest);
    }
  }
}
