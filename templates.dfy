// Code templates with `%s` holes, filled by successive first-occurrence
// replacement, as the flow compiler writes each node's class source.

module Templates {
  import opened Wrappers
  import opened Strs

  /** Text that cannot disturb hole filling: it holds no `%` (so it neither is
      nor begins a hole) and no `$` replacement pattern. */
  predicate Clean(a: string)
  {
    '%' !in a && Inert(a)
  }

  predicate AllClean(args: seq<string>)
  {
    forall i :: 0 <= i < |args| ==> Clean(args[i])
  }

  predicate NoHoleChar(segs: seq<string>)
  {
    forall i :: 0 <= i < |segs| ==> '%' !in segs[i]
  }

  /** `t.replace('%s', args[0]).replace('%s', args[1])...`: one replacement per
      argument, left to right. */
  function FormatSpec(t: string, args: seq<string>): string
    decreases |args|
  {
    if |args| == 0 then t else FormatSpec(ReplaceFirst(t, "%s", args[0]), args[1..])
  }

  /** formatTemplate: a loop replacing the first `%s` by each argument in turn. */
  method FormatTemplate(template: string, args: seq<string>) returns (result: string)
    ensures result == FormatSpec(template, args)
    ensures |args| == 0 ==> result == template
  {
    result := template;
    var i := 0;
    while i < |args|
      invariant 0 <= i <= |args|
      invariant FormatSpec(result, args[i..]) == FormatSpec(template, args)
    {
      assert args[i..][1..] == args[i + 1..];
      result := ReplaceFirst(result, "%s", args[i]);
      i := i + 1;
    }
  }

  /** The segments of a template with the arguments between them. */
  function Interleave(segs: seq<string>, args: seq<string>): string
    requires |segs| == |args| + 1
    decreases |args|
  {
    if |args| == 0 then segs[0] else segs[0] + args[0] + Interleave(segs[1..], args[1..])
  }

  /** Filling behind a `%`-free prefix leaves the prefix alone. */
  lemma {:induction false} FormatBehindPrefix(pre: string, x: string, args: seq<string>)
    requires '%' !in pre && AllClean(args)
    ensures FormatSpec(pre + x, args) == pre + FormatSpec(x, args)
    decreases |args|
  {
    if |args| > 0 {
      ReplaceFirstAfterPrefix(pre, x, "%s", args[0]);
      FormatBehindPrefix(pre, ReplaceFirst(x, "%s", args[0]), args[1..]);
    }
  }

  /** A hole at the very start is the first one replaced. */
  lemma ReplaceLeadingHole(rest: string, a: string)
    requires Inert(a)
    ensures ReplaceFirst("%s" + rest, "%s", a) == a + rest
  {
    var t := "%s" + rest;
    assert t[0..2] == "%s";
    assert IndexOf(t, "%s") == Some(0);
    ReplaceFirstSpec(t, "%s", a);
    assert t[2..] == rest;
  }

  /** Filling the holes of `%s`-joined segments with clean arguments interleaves
      the arguments with the segments. */
  lemma {:induction false} FillHoles(segs: seq<string>, args: seq<string>)
    requires |segs| == |args| + 1 && NoHoleChar(segs) && AllClean(args)
    ensures FormatSpec(Join(segs, "%s"), args) == Interleave(segs, args)
    decreases |args|
  {
    if |args| > 0 {
      var j := Join(segs[1..], "%s");
      assert Join(segs, "%s") == segs[0] + ("%s" + j);
      ReplaceFirstAfterPrefix(segs[0], "%s" + j, "%s", args[0]);
      ReplaceLeadingHole(j, args[0]);
      assert ReplaceFirst(Join(segs, "%s"), "%s", args[0]) == (segs[0] + args[0]) + j;
      FormatBehindPrefix(segs[0] + args[0], j, args[1..]);
      FillHoles(segs[1..], args[1..]);
    }
  }

  /** `n` holes joined by new lines, filled with `n` clean arguments, give the
      arguments joined by new lines. */
  lemma {:induction false} FillLineHoles(n: nat, args: seq<string>)
    requires |args| == n && AllClean(args)
    ensures FormatSpec(Join(Repeat("%s", n), "\n"), args) == Join(args, "\n")
    decreases n
  {
    if n == 1 {
      ReplaceLeadingHole("", args[0]);
      assert "%s" + "" == "%s";
      assert args[0] + "" == args[0];
    } else if n > 1 {
      var j := Join(Repeat("%s", n - 1), "\n");
      assert Repeat("%s", n)[1..] == Repeat("%s", n - 1);
      assert Join(Repeat("%s", n), "\n") == "%s" + ("\n" + j);
      ReplaceLeadingHole("\n" + j, args[0]);
      assert args[0] + ("\n" + j) == (args[0] + "\n") + j;
      FormatBehindPrefix(args[0] + "\n", j, args[1..]);
      FillLineHoles(n - 1, args[1..]);
    }
  }

  /** The same, behind a `%`-free first line. */
  lemma FillLineHolesAfter(head: string, n: nat, args: seq<string>)
    requires '%' !in head && n > 0 && |args| == n && AllClean(args)
    ensures FormatSpec(Join([head] + Repeat("%s", n), "\n"), args) == head + "\n" + Join(args, "\n")
  {
    JoinAppend([head], Repeat("%s", n), "\n");
    assert Join([head] + Repeat("%s", n), "\n") == (head + "\n") + Join(Repeat("%s", n), "\n");
    FormatBehindPrefix(head + "\n", Join(Repeat("%s", n), "\n"), args);
    FillLineHoles(n, args);
  }

  /** Text with neither `%` nor `$`: clean, and kept so by concatenation. */
  predicate Plain(a: string)
  {
    '%' !in a && '$' !in a
  }

  predicate AllPlain(xs: seq<string>)
  {
    forall i :: 0 <= i < |xs| ==> Plain(xs[i])
  }

  /** Plain, stated character by character: the form in which a literal is
      checked, a short piece at a time. */
  predicate PlainChars(a: string)
  {
    forall i :: 0 <= i < |a| ==> a[i] != '%' && a[i] != '$'
  }

  lemma PlainCharsCat(a: string, b: string)
    requires PlainChars(a) && PlainChars(b)
    ensures PlainChars(a + b)
  {
    forall i | 0 <= i < |a + b| ensures (a + b)[i] != '%' && (a + b)[i] != '$' {
      if i >= |a| {
        assert (a + b)[i] == b[i - |a|];
      }
    }
  }

  lemma PlainCharsPlain(a: string)
    requires PlainChars(a)
    ensures Plain(a)
  {
    forall k | 0 <= k < |a| ensures a[k] != '%' && a[k] != '$' {
    }
  }

  /** No `%`, character by character. */
  predicate NoPercentChars(a: string)
  {
    forall i :: 0 <= i < |a| ==> a[i] != '%'
  }

  lemma NoPercentCat(a: string, b: string)
    requires NoPercentChars(a) && NoPercentChars(b)
    ensures NoPercentChars(a + b)
  {
    forall i | 0 <= i < |a + b| ensures (a + b)[i] != '%' {
      if i >= |a| {
        assert (a + b)[i] == b[i - |a|];
      }
    }
  }

  lemma NoPercentCharsNoPercent(a: string)
    requires NoPercentChars(a)
    ensures '%' !in a
  {
  }

  lemma PlainIsClean(xs: seq<string>)
    requires AllPlain(xs)
    ensures AllClean(xs) && NoHoleChar(xs)
  {
    forall i | 0 <= i < |xs| ensures Clean(xs[i]) {
      var a := xs[i];
      forall k | 0 <= k < |a| ensures a[k] != '$' {
        assert a[k] in a;
      }
    }
  }

  lemma {:induction false} InterleavePlain(segs: seq<string>, args: seq<string>)
    requires |segs| == |args| + 1 && AllPlain(segs) && AllPlain(args)
    ensures Plain(Interleave(segs, args))
    decreases |args|
  {
    if |args| > 0 {
      InterleavePlain(segs[1..], args[1..]);
    }
  }

  lemma {:induction false} JoinPlain(xs: seq<string>, sep: string)
    requires AllPlain(xs) && Plain(sep)
    ensures Plain(Join(xs, sep))
    decreases |xs|
  {
    if |xs| > 1 {
      JoinPlain(xs[1..], sep);
    }
  }

  /** Replacing behind a `%`-free prefix never touches the prefix, whatever the
      replacement holds. */
  lemma ReplaceKeepsPrefix(pre: string, x: string, a: string)
    requires '%' !in pre
    ensures |ReplaceFirst(pre + x, "%s", a)| >= |pre| && ReplaceFirst(pre + x, "%s", a)[..|pre|] == pre
  {
    IndexOfAfterPrefix(pre, x, "%s");
    var t := pre + x;
    match IndexOf(t, "%s")
    case None =>
    case Some(p) =>
      assert t[..p][..|pre|] == pre;
  }

  /** The `%`-free text before the first hole survives every filling, even
      with arguments that hold `%s` or `$` patterns. */
  lemma {:induction false} FormatKeepsPrefix(pre: string, x: string, args: seq<string>)
    requires '%' !in pre
    ensures |FormatSpec(pre + x, args)| >= |pre| && FormatSpec(pre + x, args)[..|pre|] == pre
    decreases |args|
  {
    if |args| > 0 {
      var r := ReplaceFirst(pre + x, "%s", args[0]);
      ReplaceKeepsPrefix(pre, x, args[0]);
      assert r == pre + r[|pre|..];
      FormatKeepsPrefix(pre, r[|pre|..], args[1..]);
    }
  }

  lemma CaptureFirstStep()
    ensures ReplaceFirst("A%sB%sC", "%s", "%s") == "A%sB%sC"
  {
    assert "A%sB%sC" == "A" + ("%s" + "B%sC");
    ReplaceFirstAfterPrefix("A", "%s" + "B%sC", "%s", "%s");
    ReplaceLeadingHole("B%sC", "%s");
  }

  lemma CaptureSecondStep()
    ensures ReplaceFirst("A%sB%sC", "%s", "x") == "AxB%sC"
  {
    assert "A%sB%sC" == "A" + ("%s" + "B%sC");
    ReplaceFirstAfterPrefix("A", "%s" + "B%sC", "%s", "x");
    ReplaceLeadingHole("B%sC", "x");
  }

  /** An argument that itself holds `%s` captures the next replacement: the
      second argument lands inside the first, and the template's second hole
      survives. */
  lemma CaptureByEarlierArgument()
    ensures FormatSpec("A%sB%sC", ["%s", "x"]) == "AxB%sC"
  {
    CaptureFirstStep();
    CaptureSecondStep();
    var args := ["%s", "x"];
    assert args[1..] == ["x"];
    assert FormatSpec("A%sB%sC", args) == FormatSpec("A%sB%sC", ["x"]);
    assert FormatSpec("A%sB%sC", ["x"]) == FormatSpec("AxB%sC", []);
  }

  /** A `$'` in an argument is expanded to the text after the hole. */
  lemma DollarPatternExpands()
    ensures ReplaceFirst("a%sb", "%s", "$'") == "abb"
  {
    var t := "a%sb";
    assert t[0..2][0] == 'a';
    assert t[0..2] != "%s" && t[1..3] == "%s";
    assert IndexOfFrom(t, "%s", 1) == Some(1);
    assert IndexOf(t, "%s") == Some(1);
    assert t[..1] == "a" && t[3..] == "b";
    assert Substitute("", "%s", "a", "b") == "";
    assert Substitute("$'", "%s", "a", "b") == "b";
  }
}
