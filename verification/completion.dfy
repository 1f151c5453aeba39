/** Completion of the shell's dot-commands (`ShellCompleter`): the commands
    that begin with the text typed so far, offered as candidates that
    replace the whole line. */
module Completion {
  import opened Strings

  /** A completion candidate: what the editor shows and what it inserts. */
  datatype Pair = Pair(display: string, replacement: string)

  /** The known dot-commands, in the order they are offered. */
  const Commands: seq<string> := [
    ".echo", ".headers", ".help", ".indexes", ".nullvalue",
    ".print", ".prompt", ".quit", ".show", ".tables"
  ]

  /** The commands of `cmds` that begin with `line`, in the order of `cmds`. */
  function Matching(cmds: seq<string>, line: string): seq<string>
    decreases |cmds|
  {
    if cmds == [] then []
    else
      var last := cmds[|cmds| - 1];
      Matching(cmds[..|cmds| - 1], line) + if StartsWith(last, line) then [last] else []
  }

  /** `a` is `b` with some elements left out and the rest kept in order. */
  predicate IsSubsequence(a: seq<string>, b: seq<string>)
    decreases |b|
  {
    if a == [] then true
    else if b == [] then false
    else
      (a[|a| - 1] == b[|b| - 1] && IsSubsequence(a[..|a| - 1], b[..|b| - 1]))
      || IsSubsequence(a, b[..|b| - 1])
  }

  /** No string occurs twice in `s`. */
  predicate Distinct(s: seq<string>) {
    forall i, j :: 0 <= i < j < |s| ==> s[i] != s[j]
  }

  /** `ShellCompleter::complete`: the candidates for `line`, one per
      matching command with display and replacement both the command, and
      the start offset of the text they replace, always 0. */
  method Complete(line: string) returns (start: nat, pairs: seq<Pair>)
    ensures start == 0
    ensures |pairs| == |Matching(Commands, line)|
    ensures forall i :: 0 <= i < |pairs| ==>
              pairs[i].display == Matching(Commands, line)[i] &&
              pairs[i].replacement == Matching(Commands, line)[i]
  {
    pairs := [];
    for k := 0 to |Commands|
      invariant |pairs| == |Matching(Commands[..k], line)|
      invariant forall i :: 0 <= i < |pairs| ==>
                  pairs[i] == Pair(Matching(Commands[..k], line)[i], Matching(Commands[..k], line)[i])
    {
      var command := Commands[k];
      assert Commands[..k + 1][..k] == Commands[..k];
      if StartsWith(command, line) {
        pairs := pairs + [Pair(command, command)];
      }
    }
    assert Commands[..|Commands|] == Commands;
    start := 0;
  }

  /** A command is offered exactly when it is one of `cmds` and begins with `line`. */
  lemma {:induction false} MatchingMembers(cmds: seq<string>, line: string, c: string)
    ensures c in Matching(cmds, line) <==> c in cmds && StartsWith(c, line)
    decreases |cmds|
  {
    if cmds != [] {
      var init := cmds[..|cmds| - 1];
      MatchingMembers(init, line, c);
      assert cmds == init + [cmds[|cmds| - 1]];
    }
  }

  /** The candidates keep the order of the command list. */
  lemma {:induction false} MatchingKeepsOrder(cmds: seq<string>, line: string)
    ensures IsSubsequence(Matching(cmds, line), cmds)
    decreases |cmds|
  {
    if cmds != [] {
      var init := cmds[..|cmds| - 1];
      var last := cmds[|cmds| - 1];
      MatchingKeepsOrder(init, line);
      var m := Matching(cmds, line);
      if StartsWith(last, line) {
        assert m[..|m| - 1] == Matching(init, line);
      } else {
        assert m == Matching(init, line);
        SubsequenceOfLonger(m, cmds);
      }
    }
  }

  lemma SubsequenceOfLonger(a: seq<string>, b: seq<string>)
    requires b != [] && IsSubsequence(a, b[..|b| - 1])
    ensures IsSubsequence(a, b)
  {
  }

  /** Matching never repeats a candidate when the command list has no repeats. */
  lemma {:induction false} MatchingDistinct(cmds: seq<string>, line: string)
    requires Distinct(cmds)
    ensures Distinct(Matching(cmds, line))
    decreases |cmds|
  {
    if cmds != [] {
      var init := cmds[..|cmds| - 1];
      var last := cmds[|cmds| - 1];
      assert Distinct(init);
      MatchingDistinct(init, line);
      if StartsWith(last, line) {
        MatchingMembers(init, line, last);
        assert last !in init;
      }
    }
  }

  /** The ten known commands are distinct, so no candidate is offered twice. */
  lemma CommandsDistinct()
    ensures Distinct(Commands)
    ensures forall line :: Distinct(Matching(Commands, line))
  {
    forall line
      ensures Distinct(Matching(Commands, line))
    {
      MatchingDistinct(Commands, line);
    }
  }

  /** The empty line matches every command, in declaration order. */
  lemma {:induction false} EmptyLineMatchesAll(cmds: seq<string>)
    ensures Matching(cmds, "") == cmds
    decreases |cmds|
  {
    if cmds != [] {
      EmptyLineMatchesAll(cmds[..|cmds| - 1]);
      assert StartsWith(cmds[|cmds| - 1], "");
      assert cmds == cmds[..|cmds| - 1] + [cmds[|cmds| - 1]];
    }
  }

  /** No command begins with ".x". */
  lemma NoCommandStartsWithDotX(i: nat)
    requires i < |Commands|
    ensures !StartsWith(Commands[i], ".x")
  {
    var c := Commands[i];
    assert |c| >= 2 && c[..2][1] != 'x';
  }

  /** The empty line offers all ten commands, in declaration order. */
  lemma EmptyLineOffersAll()
    ensures Matching(Commands, "") == Commands && |Matching(Commands, "")| == 10
  {
    EmptyLineMatchesAll(Commands);
  }

  /** A line that begins no command, such as ".x", offers nothing. */
  lemma NoCandidateForDotX()
    ensures Matching(Commands, ".x") == []
  {
    if Matching(Commands, ".x") != [] {
      var x := Matching(Commands, ".x")[0];
      MatchingMembers(Commands, ".x", x);
      var i :| 0 <= i < |Commands| && Commands[i] == x;
      NoCommandStartsWithDotX(i);
    }
  }

  /** One more command is offered after the others when it matches. */
  lemma MatchingStep(k: nat, line: string, matches: bool)
    requires k < |Commands| && matches == StartsWith(Commands[k], line)
    ensures Matching(Commands[..k + 1], line) ==
              Matching(Commands[..k], line) + if matches then [Commands[k]] else []
  {
    assert Commands[..k + 1][..k] == Commands[..k];
  }

  /** Whether a string begins with a two-character prefix depends on its
      first two characters only. */
  lemma StartsWithTwo(s: string, p: string)
    requires |p| == 2
    ensures StartsWith(s, p) <==> |s| >= 2 && s[0] == p[0] && s[1] == p[1]
  {
    if |s| >= 2 && s[0] == p[0] && s[1] == p[1] {
      assert s[..2] == p;
    }
  }

  /** Among the first five commands, ".h" offers ".headers" and ".help". */
  lemma DotHAmongFirstFive()
    ensures Matching(Commands[..5], ".h") == [".headers", ".help"]
  {
    var h := ".h";
    assert Matching(Commands[..0], h) == [];
    assert Matching(Commands[..1], h) == [] by {
      StartsWithTwo(Commands[0], h);
      MatchingStep(0, h, false);
    }
    assert Matching(Commands[..2], h) == [".headers"] by {
      StartsWithTwo(Commands[1], h);
      MatchingStep(1, h, true);
    }
    assert Matching(Commands[..3], h) == [".headers", ".help"] by {
      StartsWithTwo(Commands[2], h);
      MatchingStep(2, h, true);
    }
    assert Matching(Commands[..4], h) == [".headers", ".help"] by {
      StartsWithTwo(Commands[3], h);
      MatchingStep(3, h, false);
    }
    assert Matching(Commands[..5], h) == [".headers", ".help"] by {
      StartsWithTwo(Commands[4], h);
      MatchingStep(4, h, false);
    }
  }

  /** ".h" offers the two commands beginning with it, in order. */
  lemma DotHOffersHeadersAndHelp()
    ensures Matching(Commands, ".h") == [".headers", ".help"]
  {
    var h := ".h";
    DotHAmongFirstFive();
    assert Matching(Commands[..6], h) == [".headers", ".help"] by {
      StartsWithTwo(Commands[5], h);
      MatchingStep(5, h, false);
    }
    assert Matching(Commands[..7], h) == [".headers", ".help"] by {
      StartsWithTwo(Commands[6], h);
      MatchingStep(6, h, false);
    }
    assert Matching(Commands[..8], h) == [".headers", ".help"] by {
      StartsWithTwo(Commands[7], h);
      MatchingStep(7, h, false);
    }
    assert Matching(Commands[..9], h) == [".headers", ".help"] by {
      StartsWithTwo(Commands[8], h);
      MatchingStep(8, h, false);
    }
    assert Matching(Commands[..10], h) == [".headers", ".help"] by {
      StartsWithTwo(Commands[9], h);
      MatchingStep(9, h, false);
    }
    assert Commands[..10] == Commands;
  }
}
