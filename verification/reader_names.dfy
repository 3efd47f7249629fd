/**
 * C strings and the reader multi-string that SCardListReaders returns: each name
 * ends with a NUL, and an empty name (a second NUL) ends the list. Positions are
 * indices into one buffer, as the C code's moving `char *` is.
 */
module ReaderNames {
  import opened CardDomain

  /** The index of the first NUL at or after position i, or |s| when there is none. */
  function NulFrom(s: seq<char>, i: nat): (e: nat)
    requires i <= |s|
    ensures i <= e <= |s|
    ensures e < |s| ==> s[e] == NUL
    decreases |s| - i
  {
    if i == |s| || s[i] == NUL then i else NulFrom(s, i + 1)
  }

  /** The scan from i passes no NUL before it stops. */
  lemma {:induction false} NulFromScans(s: seq<char>, i: nat)
    requires i <= |s|
    ensures forall k | i <= k < NulFrom(s, i) :: s[k] != NUL
    decreases |s| - i
  {
    if i < |s| && s[i] != NUL {
      NulFromScans(s, i + 1);
    }
  }

  /** The scan from i stops at the first NUL at or after i. */
  lemma {:induction false} NulFromAt(s: seq<char>, i: nat, e: nat)
    requires i <= e < |s| && s[e] == NUL
    requires forall k | i <= k < e :: s[k] != NUL
    ensures NulFrom(s, i) == e
    decreases e - i
  {
    if i < e {
      NulFromAt(s, i + 1, e);
    }
  }

  /** strlen: how many characters come before the first NUL (all of them when there is none). */
  function StrLen(s: seq<char>): nat
  {
    NulFrom(s, 0)
  }

  /** strlen of the string that starts at position p. */
  lemma StrLenAt(s: seq<char>, p: nat)
    requires p <= |s|
    ensures StrLen(s[p..]) == NulFrom(s, p) - p
  {
    var e := NulFrom(s, p);
    var n := StrLen(s[p..]);
    NulFromScans(s, p);
    NulFromScans(s[p..], 0);
    assert forall k | 0 <= k < |s| - p :: s[p + k] == s[p..][k];
    if e < |s| {
      NulFromAt(s[p..], 0, e - p);
    } else {
      assert n == |s[p..]|;
    }
  }

  /** The C string a character buffer holds: everything before its first NUL. */
  function CString(s: seq<char>): seq<char>
  {
    s[..StrLen(s)]
  }

  predicate ValidName(name: string)
  {
    |name| > 0 && NUL !in name
  }

  predicate ValidNames(names: seq<string>)
  {
    forall i | 0 <= i < |names| :: ValidName(names[i])
  }

  /**
   * The walk over a reader buffer from position p: each name runs to the next NUL,
   * and the walk stops at an empty name (or at the end of the buffer).
   */
  function SplitFrom(buf: seq<char>, p: nat): seq<string>
    requires p <= |buf|
    decreases |buf| - p
  {
    if p == |buf| || buf[p] == NUL then []
    else
      var e := NulFrom(buf, p);
      [buf[p..e]] + (if e == |buf| then [] else SplitFrom(buf, e + 1))
  }

  function Split(buf: seq<char>): seq<string>
  {
    SplitFrom(buf, 0)
  }

  /** The walk from p meets the terminating empty name inside the buffer, so it never reads past the end. */
  predicate TerminatedFrom(buf: seq<char>, p: nat)
    requires p <= |buf|
    decreases |buf| - p
  {
    p < |buf| && (buf[p] == NUL || (NulFrom(buf, p) < |buf| && TerminatedFrom(buf, NulFrom(buf, p) + 1)))
  }

  predicate Terminated(buf: seq<char>)
  {
    TerminatedFrom(buf, 0)
  }

  /** Every name followed by its NUL, then the NUL of the empty name that ends the list. */
  function Join(names: seq<string>): seq<char>
  {
    if names == [] then [NUL] else names[0] + [NUL] + Join(names[1..])
  }

  /** `name` and then a NUL are stored at position `start`. */
  predicate NameAt(buf: seq<char>, start: nat, name: string)
  {
    ValidName(name) && start + |name| < |buf| && buf[start..start + |name|] == name && buf[start + |name|] == NUL
  }

  /** Where each name of the walk from p starts. */
  ghost function Starts(buf: seq<char>, p: nat): seq<nat>
    requires p <= |buf| && TerminatedFrom(buf, p)
    decreases |buf| - p
  {
    if buf[p] == NUL then [] else [p] + Starts(buf, NulFrom(buf, p) + 1)
  }

  /** The names lie at their starts, each starting just past the NUL of the one before. */
  predicate Layout(buf: seq<char>, starts: seq<nat>, names: seq<string>)
  {
    && |starts| == |names|
    && (forall i | 0 <= i < |names| :: NameAt(buf, starts[i], names[i]))
    && (forall i | 0 <= i < |names| - 1 :: starts[i + 1] == starts[i] + |names[i]| + 1)
  }

  lemma {:induction false} LayoutFrom(buf: seq<char>, p: nat)
    requires p <= |buf| && TerminatedFrom(buf, p)
    ensures Layout(buf, Starts(buf, p), SplitFrom(buf, p))
    ensures SplitFrom(buf, p) != [] ==> Starts(buf, p)[0] == p
    decreases |buf| - p
  {
    if buf[p] != NUL {
      WalkUnfold(buf, p);
      var e := NulFrom(buf, p);
      LayoutFrom(buf, e + 1);
      var names := SplitFrom(buf, p);
      var starts := Starts(buf, p);
      var rest := SplitFrom(buf, e + 1);
      var restStarts := Starts(buf, e + 1);
      assert names == [buf[p..e]] + rest;
      assert starts == [p] + restStarts;
      assert NameAt(buf, p, names[0]);
      assert forall i | 1 <= i < |names| :: names[i] == rest[i - 1] && starts[i] == restStarts[i - 1];
    }
  }

  /** strlen at the start of a stored name is the name's length. */
  lemma StrLenAtName(buf: seq<char>, start: nat, name: string)
    requires NameAt(buf, start, name)
    ensures StrLen(buf[start..]) == |name|
  {
    StrLenAt(buf, start);
    assert forall k | start <= k < start + |name| :: buf[k] == name[k - start];
    NulFromAt(buf, start, start + |name|);
  }

  /** Where the walk finds an empty name, no names remain. */
  lemma WalkEnds(buf: seq<char>, p: nat)
    requires p < |buf| && buf[p] == NUL
    ensures SplitFrom(buf, p) == []
  {
  }

  /** A joined non-empty list at position p: its first name, that name's NUL, then the others joined. */
  lemma JoinedAt(buf: seq<char>, p: nat, names: seq<string>)
    requires names != []
    requires p + |Join(names)| <= |buf| && buf[p..p + |Join(names)|] == Join(names)
    ensures var e := p + |names[0]|;
      && e < |buf| && buf[p..e] == names[0] && buf[e] == NUL
      && e + 1 + |Join(names[1..])| <= |buf| && buf[e + 1..e + 1 + |Join(names[1..])|] == Join(names[1..])
  {
    var first := names[0];
    var tail := Join(names[1..]);
    var e := p + |first|;
    assert Join(names) == first + [NUL] + tail;
    assert buf[p..e] == Join(names)[..|first|];
    assert buf[e] == Join(names)[|first|];
    assert buf[e + 1..e + 1 + |tail|] == Join(names)[|first| + 1..];
  }

  /** A NUL-free name followed by a NUL at position p is where the walk's next NUL lies. */
  lemma NulAfterName(buf: seq<char>, p: nat, name: string)
    requires ValidName(name) && p + |name| < |buf| && buf[p..p + |name|] == name && buf[p + |name|] == NUL
    ensures buf[p] != NUL && NulFrom(buf, p) == p + |name|
  {
    assert forall k | p <= k < p + |name| :: buf[k] == name[k - p];
    assert buf[p] == name[0];
    NulFromAt(buf, p, p + |name|);
  }

  /**
   * The walk over a buffer that holds a joined list at position p gives the list
   * back, whatever follows the terminator.
   */
  lemma {:induction false} SplitFromJoin(buf: seq<char>, p: nat, names: seq<string>)
    requires ValidNames(names)
    requires p + |Join(names)| <= |buf| && buf[p..p + |Join(names)|] == Join(names)
    ensures SplitFrom(buf, p) == names && TerminatedFrom(buf, p)
    decreases names
  {
    if names == [] {
      assert buf[p] == buf[p..p + 1][0];
    } else {
      JoinedAt(buf, p, names);
      var e := p + |names[0]|;
      NulAfterName(buf, p, names[0]);
      assert ValidNames(names[1..]) by {
        assert forall i | 0 <= i < |names| - 1 :: names[1..][i] == names[i + 1];
      }
      SplitFromJoin(buf, e + 1, names[1..]);
      calc {
        SplitFrom(buf, p);
        [buf[p..e]] + SplitFrom(buf, e + 1);
        [names[0]] + names[1..];
        names;
      }
    }
  }

  /** Splitting a joined list gives the list back, whatever follows the terminator. */
  lemma SplitJoin(names: seq<string>, rest: seq<char>)
    requires ValidNames(names)
    ensures Split(Join(names) + rest) == names
    ensures Terminated(Join(names) + rest)
  {
    var buf := Join(names) + rest;
    assert buf[..|Join(names)|] == Join(names);
    SplitFromJoin(buf, 0, names);
  }

  /** One step of the walk from p, for a terminated walk that has not reached the empty name. */
  lemma WalkUnfold(buf: seq<char>, p: nat)
    requires p <= |buf| && TerminatedFrom(buf, p) && buf[p] != NUL
    ensures NulFrom(buf, p) < |buf| && TerminatedFrom(buf, NulFrom(buf, p) + 1)
    ensures SplitFrom(buf, p) == [buf[p..NulFrom(buf, p)]] + SplitFrom(buf, NulFrom(buf, p) + 1)
    ensures ValidName(buf[p..NulFrom(buf, p)])
  {
    var first := buf[p..NulFrom(buf, p)];
    NulFromScans(buf, p);
    assert forall k | 0 <= k < |first| :: first[k] == buf[p + k];
  }

  /** One step of the counting walk: past a name and its NUL the walk goes on, one name shorter. */
  lemma WalkStep(buf: seq<char>, p: nat) returns (next: nat)
    requires p < |buf| && TerminatedFrom(buf, p) && buf[p] != NUL
    ensures next == p + StrLen(buf[p..]) + 1
    ensures next < |buf| && TerminatedFrom(buf, next)
    ensures |SplitFrom(buf, p)| == 1 + |SplitFrom(buf, next)|
  {
    WalkUnfold(buf, p);
    StrLenAt(buf, p);
    next := NulFrom(buf, p) + 1;
  }

  /** The names of a terminated walk are non-empty and NUL-free. */
  lemma {:induction false} SplitFromValid(buf: seq<char>, p: nat)
    requires p <= |buf| && TerminatedFrom(buf, p)
    ensures ValidNames(SplitFrom(buf, p))
    decreases |buf| - p
  {
    if buf[p] != NUL {
      WalkUnfold(buf, p);
      var e := NulFrom(buf, p);
      SplitFromValid(buf, e + 1);
      var names := SplitFrom(buf, p);
      var rest := SplitFrom(buf, e + 1);
      assert forall i | 1 <= i < |names| :: names[i] == rest[i - 1];
    }
  }

  /** A name ending at a NUL at e, then a text `j`: the buffer from p holds the name, the NUL and `j`. */
  lemma NameThenText(buf: seq<char>, p: nat, e: nat, j: seq<char>)
    requires p <= e < |buf| && buf[e] == NUL
    requires e + 1 + |j| <= |buf| && buf[e + 1..e + 1 + |j|] == j
    ensures buf[p..e + 1 + |j|] == buf[p..e] + [NUL] + j
  {
    assert buf[p..e + 1 + |j|] == buf[p..e] + [buf[e]] + buf[e + 1..e + 1 + |j|];
  }

  /** Joining the names of a terminated walk gives back the text the walk went over. */
  lemma {:induction false} JoinSplitFrom(buf: seq<char>, p: nat)
    requires p <= |buf| && TerminatedFrom(buf, p)
    ensures p + |Join(SplitFrom(buf, p))| <= |buf| && buf[p..p + |Join(SplitFrom(buf, p))|] == Join(SplitFrom(buf, p))
    decreases |buf| - p
  {
    if buf[p] == NUL {
      assert SplitFrom(buf, p) == [];
      assert buf[p..p + 1] == [buf[p]];
    } else {
      WalkUnfold(buf, p);
      var e := NulFrom(buf, p);
      var names := SplitFrom(buf, p);
      var rest := SplitFrom(buf, e + 1);
      JoinSplitFrom(buf, e + 1);
      assert names[0] == buf[p..e] && names[1..] == rest;
      var j := Join(rest);
      assert Join(names) == buf[p..e] + [NUL] + j;
      NameThenText(buf, p, e, j);
    }
  }

  /** The names of a terminated buffer are non-empty and NUL-free, and joined they are the start of the buffer. */
  lemma JoinSplit(buf: seq<char>)
    requires Terminated(buf)
    ensures ValidNames(Split(buf))
    ensures Join(Split(buf)) <= buf
  {
    SplitFromValid(buf, 0);
    JoinSplitFrom(buf, 0);
  }

  /** A buffer that ends with an empty name (a NUL after a NUL, or a lone NUL) is terminated. */
  lemma {:induction false} EndsWithEmptyNameIsTerminated(buf: seq<char>, p: nat)
    requires p < |buf| && buf[|buf| - 1] == NUL
    requires |buf| >= 2 ==> buf[|buf| - 2] == NUL
    ensures TerminatedFrom(buf, p)
    decreases |buf| - p
  {
    if buf[p] != NUL {
      var e := NulFrom(buf, p);
      NulFromScans(buf, p);
      assert e <= |buf| - 2;
      EndsWithEmptyNameIsTerminated(buf, e + 1);
    }
  }
}
