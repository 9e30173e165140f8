/**
 * The session controller's top-5 leaderboard (App.tsx): storing a
 * submitted score, and deciding at game over whether the player may enter
 * a name at all.
 */
module Leaderboard {
  import opened GameTypes

  datatype Entry = Entry(name: string, score: int, level: int, date: string)

  const BOARD_SIZE: nat := 5
  const NAME_LENGTH: nat := 10

  // ---------------------------------------------------------------------
  // `String.prototype.trim`
  // ---------------------------------------------------------------------

  /** The white-space and line-terminator characters `trim` strips. */
  predicate IsWhitespace(c: char)
  {
    c == ' ' || c == '\t' || c == '\n' || c == '\r' || c == '\U{B}' || c == '\U{C}'
    || c == '\U{A0}' || c == '\U{FEFF}' || c == '\U{1680}' || ('\U{2000}' <= c <= '\U{200A}')
    || c == '\U{2028}' || c == '\U{2029}' || c == '\U{202F}' || c == '\U{205F}' || c == '\U{3000}'
  }

  function TrimStart(s: string): (r: string)
    ensures |r| <= |s| && r == s[|s| - |r|..]
    ensures r != [] ==> !IsWhitespace(r[0])
    ensures forall k :: 0 <= k < |s| - |r| ==> IsWhitespace(s[k])
  {
    if s != [] && IsWhitespace(s[0]) then
      var r := TrimStart(s[1..]);
      assert s[1..][|s| - 1 - |r|..] == s[|s| - |r|..];
      r
    else s
  }

  function TrimEnd(s: string): (r: string)
    ensures |r| <= |s| && r == s[..|r|]
    ensures r != [] ==> !IsWhitespace(r[|r| - 1])
    ensures forall k :: |r| <= k < |s| ==> IsWhitespace(s[k])
  {
    if s != [] && IsWhitespace(s[|s| - 1]) then
      var r := TrimEnd(s[..|s| - 1]);
      assert s[..|s| - 1][..|r|] == s[..|r|];
      r
    else s
  }

  /** `r` is `s` from offset `i` on, with only white space cut before and after it. */
  predicate CutsOnlyWhitespace(s: string, i: int, r: string)
  {
    0 <= i <= |s| - |r| && r == s[i..i + |r|]
    && (forall k :: 0 <= k < i ==> IsWhitespace(s[k]))
    && (forall k :: i + |r| <= k < |s| ==> IsWhitespace(s[k]))
  }

  /**
   * `trim()`: a contiguous slice of `s` that neither starts nor ends with
   * white space, and what it cuts from either end is all white space.
   */
  function Trim(s: string): (r: string)
    ensures r != [] ==> !IsWhitespace(r[0]) && !IsWhitespace(r[|r| - 1])
    ensures r == [] <==> forall k :: 0 <= k < |s| ==> IsWhitespace(s[k])
    ensures exists i :: CutsOnlyWhitespace(s, i, r)
  {
    var t := TrimStart(s);
    var r := TrimEnd(t);
    TrimSlice(s, t, r);
    assert r != [] ==> r[0] == t[0];
    assert (forall k :: 0 <= k < |s| ==> IsWhitespace(s[k])) ==> t == [] by {
      if t != [] {
        assert t[0] == s[|s| - |t|];
      }
    }
    assert r == [] ==> t == [] by {
      if t != [] {
        assert !IsWhitespace(t[0]);
      }
    }
    r
  }

  /** Cutting white space from the start of `s`, then from the end of what remains, cuts only white space from `s`. */
  lemma TrimSlice(s: string, t: string, r: string)
    requires |t| <= |s| && t == s[|s| - |t|..] && forall k :: 0 <= k < |s| - |t| ==> IsWhitespace(s[k])
    requires |r| <= |t| && r == t[..|r|] && forall k :: |r| <= k < |t| ==> IsWhitespace(t[k])
    ensures CutsOnlyWhitespace(s, |s| - |t|, r)
  {
    var i := |s| - |t|;
    forall k | i + |r| <= k < |s|
      ensures IsWhitespace(s[k])
    {
      assert s[k] == t[k - i];
    }
  }

  /** The stored name: the trimmed name cut to at most ten characters. */
  function StoredName(playerName: string): (n: string)
    ensures |n| <= NAME_LENGTH && |n| <= |Trim(playerName)|
    ensures n == Trim(playerName)[..|n|]
    ensures |n| == if |Trim(playerName)| < NAME_LENGTH then |Trim(playerName)| else NAME_LENGTH
  {
    var t := Trim(playerName);
    if |t| <= NAME_LENGTH then t else t[..NAME_LENGTH]
  }

  // ---------------------------------------------------------------------
  // `sort((a, b) => b.score - a.score)`, a stable sort
  // ---------------------------------------------------------------------

  /** Non-increasing by score. */
  predicate Sorted(b: seq<Entry>)
  {
    forall i, j :: 0 <= i < j < |b| ==> b[i].score >= b[j].score
  }

  /** Where a stable sort places `e` after the entries of `b`: after every entry scoring at least as much. */
  function InsertPos(b: seq<Entry>, e: Entry): (k: nat)
    ensures k <= |b|
  {
    if b == [] then 0
    else if b[|b| - 1].score >= e.score then |b|
    else InsertPos(b[..|b| - 1], e)
  }

  /** `e` placed into the sorted board `b` as the stable sort places an entry that comes last. */
  function Insert(b: seq<Entry>, e: Entry): (r: seq<Entry>)
    ensures r == b[..InsertPos(b, e)] + [e] + b[InsertPos(b, e)..]
  {
    if b == [] then [e]
    else if b[|b| - 1].score >= e.score then b + [e]
    else
      var init := b[..|b| - 1];
      var k := InsertPos(init, e);
      assert b[..k] == init[..k];
      assert b[k..] == init[k..] + [b[|b| - 1]];
      Insert(init, e) + [b[|b| - 1]]
  }

  /** A stable insertion sort, non-increasing by score. */
  function Sort(s: seq<Entry>): (r: seq<Entry>)
    ensures |r| == |s|
  {
    if s == [] then [] else Insert(Sort(s[..|s| - 1]), s[|s| - 1])
  }

  lemma InsertPosFacts(b: seq<Entry>, e: Entry)
    requires Sorted(b)
    ensures forall i :: 0 <= i < InsertPos(b, e) ==> b[i].score >= e.score
    ensures forall i :: InsertPos(b, e) <= i < |b| ==> b[i].score < e.score
  {
    if b != [] && b[|b| - 1].score < e.score {
      InsertPosFacts(b[..|b| - 1], e);
    }
  }

  /** Inserting into a sorted board keeps it sorted and adds exactly `e`. */
  lemma InsertSorted(b: seq<Entry>, e: Entry)
    requires Sorted(b)
    ensures Sorted(Insert(b, e))
  {
    var k := InsertPos(b, e);
    InsertPosFacts(b, e);
    var r := Insert(b, e);
    assert |r| == |b| + 1;
    assert forall i :: 0 <= i < k ==> r[i] == b[i];
    assert r[k] == e;
    assert forall i :: k < i < |r| ==> r[i] == b[i - 1];
    forall i, j | 0 <= i < j < |r| ensures r[i].score >= r[j].score {
      if j < k {
        assert r[i] == b[i] && r[j] == b[j];
      } else if j == k {
        assert r[i] == b[i] && r[j] == e;
      } else if i < k {
        assert r[i] == b[i] && r[j] == b[j - 1];
      } else if i == k {
        assert r[i] == e && r[j] == b[j - 1];
      } else {
        assert r[i] == b[i - 1] && r[j] == b[j - 1];
      }
    }
    InsertMultiset(b, e);
  }

  lemma InsertMultiset(b: seq<Entry>, e: Entry)
    ensures multiset(Insert(b, e)) == multiset(b) + multiset{e}
  {
    var k := InsertPos(b, e);
    assert b == b[..k] + b[k..];
  }

  /** The sort orders by score and is a permutation of its input. */
  lemma SortSortedPermutation(s: seq<Entry>)
    ensures Sorted(Sort(s))
    ensures multiset(Sort(s)) == multiset(s)
  {
    SortSorted(s);
    SortPermutation(s);
  }

  lemma {:induction false} SortSorted(s: seq<Entry>)
    ensures Sorted(Sort(s))
  {
    if s != [] {
      SortSorted(s[..|s| - 1]);
      InsertSorted(Sort(s[..|s| - 1]), s[|s| - 1]);
    }
  }

  lemma {:induction false} SortPermutation(s: seq<Entry>)
    ensures multiset(Sort(s)) == multiset(s)
  {
    if s != [] {
      var init, last := s[..|s| - 1], s[|s| - 1];
      assert s == init + [last];
      SortPermutation(init);
      InsertMultiset(Sort(init), last);
    }
  }

  /** Sorting an already sorted board returns it unchanged, entry for entry. */
  lemma {:induction false} SortOfSorted(s: seq<Entry>)
    requires Sorted(s)
    ensures Sort(s) == s
  {
    if s != [] {
      var init, last := s[..|s| - 1], s[|s| - 1];
      assert Sorted(init) by {
        forall i, j | 0 <= i < j < |init|
          ensures init[i].score >= init[j].score
        {
          assert init[i] == s[i] && init[j] == s[j];
        }
      }
      SortOfSorted(init);
      assert init == [] || init[|init| - 1].score >= last.score;
      InsertAfterLower(init, last);
      assert init + [last] == s;
    }
  }

  /** An entry scoring no more than the last of the board goes to the end. */
  lemma InsertAfterLower(b: seq<Entry>, e: Entry)
    requires b == [] || b[|b| - 1].score >= e.score
    ensures Insert(b, e) == b + [e]
  {
  }

  // ---------------------------------------------------------------------
  // submitScore (App.tsx:114-132)
  // ---------------------------------------------------------------------

  datatype Submission = Submission(board: seq<Entry>, accepted: bool)

  /** The entry that `submitScore` builds. */
  function NewEntry(playerName: string, score: int, level: int, date: string): Entry
  {
    Entry(StoredName(playerName), score, level, date)
  }

  /**
   * `submitScore`: nothing happens for a blank name; otherwise the new
   * entry joins the board, the board is sorted by score, non-increasing,
   * and cut to its first five entries.
   */
  function SubmitScore(board: seq<Entry>, playerName: string, score: int, level: int, date: string): (r: Submission)
    ensures Trim(playerName) == [] ==> r == Submission(board, false)
    ensures Trim(playerName) != [] ==> r.accepted
    ensures Trim(playerName) != [] ==> Sorted(r.board)
    ensures Trim(playerName) != [] ==> |r.board| == if |board| + 1 < BOARD_SIZE then |board| + 1 else BOARD_SIZE
    ensures Trim(playerName) != [] ==> multiset(r.board) <= multiset(board + [NewEntry(playerName, score, level, date)])
  {
    if Trim(playerName) == [] then Submission(board, false)
    else
      var all := board + [NewEntry(playerName, score, level, date)];
      var sorted := Sort(all);
      SortSortedPermutation(all);
      var top := if |sorted| <= BOARD_SIZE then sorted else sorted[..BOARD_SIZE];
      SortedPrefix(sorted, |top|);
      Submission(top, true)
  }

  /** A prefix of a sorted board is sorted, and holds no entry the board does not. */
  lemma SortedPrefix(q: seq<Entry>, n: nat)
    requires Sorted(q) && n <= |q|
    ensures Sorted(q[..n]) && multiset(q[..n]) <= multiset(q)
  {
    assert q == q[..n] + q[n..];
  }

  /** An entry the cut drops scores no more than any entry the board keeps. */
  lemma SubmitKeepsBest(board: seq<Entry>, playerName: string, score: int, level: int, date: string, x: Entry)
    requires Trim(playerName) != []
    requires multiset(SubmitScore(board, playerName, score, level, date).board)[x]
           < multiset(board + [NewEntry(playerName, score, level, date)])[x]
    ensures forall y :: y in SubmitScore(board, playerName, score, level, date).board ==> y.score >= x.score
  {
    var all := board + [NewEntry(playerName, score, level, date)];
    var sorted := Sort(all);
    SortSortedPermutation(all);
    var top := if |sorted| <= BOARD_SIZE then sorted else sorted[..BOARD_SIZE];
    assert SubmitScore(board, playerName, score, level, date).board == top;
    SortedPrefixDominates(sorted, |top|, x);
  }

  lemma SortedPrefixDominates(q: seq<Entry>, n: nat, x: Entry)
    requires Sorted(q) && n <= |q|
    requires multiset(q[..n])[x] < multiset(q)[x]
    ensures forall y :: y in q[..n] ==> y.score >= x.score
  {
    var rest := q[n..];
    assert q == q[..n] + rest;
    assert x in rest;
    var j :| 0 <= j < |rest| && rest[j] == x;
    forall y | y in q[..n] ensures y.score >= x.score {
      var i :| 0 <= i < n && q[..n][i] == y;
      assert q[i] == y && q[n + j] == x;
    }
  }

  // ---------------------------------------------------------------------
  // handleGameOver's eligibility test (App.tsx:102-109)
  // ---------------------------------------------------------------------

  /**
   * The name input is offered only on a true game over, when the board has
   * room or the final score beats its last entry.
   */
  function HighScoreEligible(lives: int, board: seq<Entry>, finalScore: int): (ok: bool)
    ensures ok <==> lives <= 0 && (|board| < BOARD_SIZE || finalScore > board[|board| - 1].score)
  {
    if lives <= 0 then
      var lowestTopScore := if |board| < BOARD_SIZE then 0 else board[|board| - 1].score;
      finalScore > lowestTopScore || |board| < BOARD_SIZE
    else false
  }

  /** A player who is offered the input and gives a name does get onto a well-formed board. */
  lemma EligibleScoreEntersBoard(lives: int, board: seq<Entry>, playerName: string, score: int, level: int, date: string)
    requires Sorted(board) && |board| <= BOARD_SIZE
    requires HighScoreEligible(lives, board, score)
    requires Trim(playerName) != []
    ensures NewEntry(playerName, score, level, date) in SubmitScore(board, playerName, score, level, date).board
  {
    var e := NewEntry(playerName, score, level, date);
    var all := board + [e];
    assert all[..|all| - 1] == board;
    SortOfSorted(board);
    assert Sort(all) == Insert(board, e);
    var k := InsertPos(board, e);
    InsertPosFacts(board, e);
    assert k < BOARD_SIZE by {
      if |board| == BOARD_SIZE {
        assert board[|board| - 1].score < e.score;
      }
    }
    assert Insert(board, e)[k] == e;
  }

  /** A score that does not beat the last of five entries leaves a sorted board unchanged. */
  lemma IneligibleScoreLeavesBoard(board: seq<Entry>, playerName: string, score: int, level: int, date: string)
    requires Sorted(board) && |board| == BOARD_SIZE
    requires score <= board[|board| - 1].score
    requires Trim(playerName) != []
    ensures SubmitScore(board, playerName, score, level, date).board == board
  {
    var e := NewEntry(playerName, score, level, date);
    var all := board + [e];
    assert all[..|all| - 1] == board;
    SortOfSorted(board);
    assert Sort(all) == board + [e];
    assert (board + [e])[..BOARD_SIZE] == board;
  }
}
