/**
 * The fuzzy-matcher compiler (`Recordings._fuzzy_compiler`) as functions:
 * each argument is rewritten by every pattern in order, volatile parts
 * becoming PLACEHOLDER. The regular-expression engine is abstract: a
 * pattern without capture groups is a literal whose `sub` replaces every
 * non-overlapping occurrence, and a pattern with groups is a full-match
 * oracle that reports the group spans.
 */
module Fuzzy {
  import opened Base

  /** `FUZZY_PLACEHOLDER` */
  const PLACEHOLDER: string := "[[FUZZY_VALUE]]"

  /** The span `[start, end)` of one capture group. */
  datatype Span = Span(start: int, end: int)

  /** A successful `fullmatch`: the spans of groups 1..n and `lastindex`. */
  datatype FullMatch = FullMatch(groups: seq<Span>, lastIndex: int)

  /** A compiled fuzzy matcher. */
  datatype Pattern =
    | Literal(text: string)
    | Grouped(fullMatch: string -> Option<FullMatch>)

  /** A match every one of whose groups took part and lies inside the argument. */
  predicate ValidMatch(arg: string, m: FullMatch) {
    && |m.groups| >= 1
    && 1 <= m.lastIndex <= |m.groups|
    && forall k :: 0 <= k < |m.groups| ==> 0 <= m.groups[k].start <= m.groups[k].end <= |arg|
  }

  /** The oracle of a grouped pattern only reports valid matches. */
  ghost predicate WellFormed(p: Pattern) {
    p.Grouped? ==> forall s :: p.fullMatch(s).Some? ==> ValidMatch(s, p.fullMatch(s).value)
  }

  ghost predicate AllWellFormed(ps: seq<Pattern>) {
    forall p :: p in ps ==> WellFormed(p)
  }

  /** `lit` occurs in `s` at position `i`. */
  predicate OccursAt(s: string, lit: string, i: int) {
    0 <= i && i + |lit| <= |s| && s[i..i + |lit|] == lit
  }

  /**
   * `re.sub(lit, PLACEHOLDER, s)` for a literal pattern: leftmost,
   * non-overlapping replacement; the empty pattern matches between every
   * two characters and at both ends.
   */
  function ReplaceAll(s: string, lit: string): (r: string)
    ensures lit == [] ==> |r| == |s| + (|s| + 1) * |PLACEHOLDER|
    ensures lit != [] && |lit| <= |PLACEHOLDER| ==> |s| <= |r|
    decreases |s|
  {
    if lit == [] then
      PLACEHOLDER + (if s == [] then [] else [s[0]] + ReplaceAll(s[1..], lit))
    else if |s| < |lit| then s
    else if s[..|lit|] == lit then PLACEHOLDER + ReplaceAll(s[|lit|..], lit)
    else [s[0]] + ReplaceAll(s[1..], lit)
  }

  /** `sep.join(parts)` */
  function Join(sep: string, parts: seq<string>): (r: string)
    ensures parts == [] ==> r == []
    ensures parts != [] ==> parts[0] <= r
    ensures parts != [] ==> |parts[|parts| - 1]| <= |r| && r[|r| - |parts[|parts| - 1]|..] == parts[|parts| - 1]
  {
    if |parts| == 0 then []
    else if |parts| == 1 then parts[0]
    else parts[0] + sep + Join(sep, parts[1..])
  }

  /** `f_match.groups()`: the text of every group. */
  function GroupTexts(arg: string, m: FullMatch): (texts: seq<string>)
    requires ValidMatch(arg, m)
    ensures |texts| == |m.groups|
    ensures forall k :: 0 <= k < |texts| ==> texts[k] == arg[m.groups[k].start..m.groups[k].end]
  {
    seq(|m.groups|, k requires 0 <= k < |m.groups| => arg[m.groups[k].start..m.groups[k].end])
  }

  /**
   * The rewrite of a fully matched argument: group texts joined by the
   * placeholder, with one more placeholder in front when group 1 does not
   * start at 0 and one at the back when group `lastindex` stops short of the end.
   */
  function GroupedRewrite(arg: string, m: FullMatch): string
    requires ValidMatch(arg, m)
  {
    Wrap(PLACEHOLDER, Join(PLACEHOLDER, GroupTexts(arg, m)),
         m.groups[0].start > 0, m.groups[m.lastIndex - 1].end < |arg|)
  }

  /**
   * `s` with `p` added in front when `lead` and at the back when `trail`:
   * the result starts with `p` or with `s`, and ends with `p` or with `s`.
   */
  function Wrap(p: string, s: string, lead: bool, trail: bool): (r: string)
    ensures lead ==> p <= r
    ensures !lead ==> s <= r
    ensures trail ==> |p| <= |r| && r[|r| - |p|..] == p
    ensures !trail ==> |s| <= |r| && r[|r| - |s|..] == s
  {
    var front := if lead then p + s else s;
    assert lead ==> front[..|p|] == p;
    if trail then assert (front + p)[..|front|] == front; front + p else front
  }

  /** The effect of one pattern on one argument. */
  function ApplyPattern(arg: string, p: Pattern): (r: string)
    requires WellFormed(p)
    ensures p.Grouped? && p.fullMatch(arg).None? ==> r == arg
    ensures p.Literal? && p.text != [] && |arg| < |p.text| ==> r == arg
  {
    match p
    case Literal(text) => ReplaceAll(arg, text)
    case Grouped(fullMatch) =>
      match fullMatch(arg)
      case None => arg
      case Some(m) => GroupedRewrite(arg, m)
  }

  /** The body of the inner loop of `_fuzzy_compiler`: one matcher applied to one argument. */
  method ApplyMatcher(arg: string, p: Pattern) returns (r: string)
    requires WellFormed(p)
    ensures r == ApplyPattern(arg, p)
  {
    match p
    case Literal(text) =>
      r := ReplaceAll(arg, text);
    case Grouped(fullMatch) =>
      var m := fullMatch(arg);
      if m.None? {
        return arg;
      }
      r := Join(PLACEHOLDER, GroupTexts(arg, m.value));
      if m.value.groups[0].start > 0 {
        r := PLACEHOLDER + r;
      }
      if m.value.groups[m.value.lastIndex - 1].end < |arg| {
        r := r + PLACEHOLDER;
      }
  }

  /** One argument after every pattern, in order: later patterns see earlier results. */
  function Normalize(arg: string, ps: seq<Pattern>): string
    requires AllWellFormed(ps)
  {
    if ps == [] then arg else ApplyPattern(Normalize(arg, ps[..|ps| - 1]), ps[|ps| - 1])
  }

  /** The whole argument list, normalised element by element. */
  function NormalizeAll(args: seq<string>, ps: seq<Pattern>): (r: seq<string>)
    requires AllWellFormed(ps)
    ensures |r| == |args|
    ensures forall i :: 0 <= i < |args| ==> r[i] == Normalize(args[i], ps)
  {
    if args == [] then []
    else
      var init := args[..|args| - 1];
      var front := NormalizeAll(init, ps);
      assert forall i :: 0 <= i < |init| ==> init[i] == args[i];
      front + [Normalize(args[|args| - 1], ps)]
  }

  /** No matcher leaves an argument as it is; a single matcher is exactly its own effect. */
  lemma NormalizeOne(arg: string, p: Pattern)
    requires WellFormed(p)
    ensures Normalize(arg, []) == arg
    ensures Normalize(arg, [p]) == ApplyPattern(arg, p)
  {
    assert [p][..0] == [];
  }

  /** With no patterns the compiler is the identity. */
  lemma {:induction false} NormalizeAllNoPatterns(args: seq<string>)
    ensures NormalizeAll(args, []) == args
  {
    if args != [] {
      NormalizeAllNoPatterns(args[..|args| - 1]);
      assert args[..|args| - 1] + [args[|args| - 1]] == args;
    }
  }

  /** Applying `ps1 + ps2` is applying `ps1` and then `ps2`. */
  lemma {:induction false} NormalizeConcat(arg: string, ps1: seq<Pattern>, ps2: seq<Pattern>)
    requires AllWellFormed(ps1) && AllWellFormed(ps2)
    ensures AllWellFormed(ps1 + ps2)
    ensures Normalize(arg, ps1 + ps2) == Normalize(Normalize(arg, ps1), ps2)
  {
    if ps2 == [] {
      assert ps1 + ps2 == ps1;
    } else {
      var init := ps2[..|ps2| - 1];
      NormalizeConcat(arg, ps1, init);
      assert (ps1 + ps2)[..|ps1 + ps2| - 1] == ps1 + init;
    }
  }

  /** Patterns that each leave an argument as it is leave it as it is together. */
  lemma {:induction false} NormalizeFixpoint(arg: string, ps: seq<Pattern>)
    requires AllWellFormed(ps)
    requires forall p :: p in ps ==> ApplyPattern(arg, p) == arg
    ensures Normalize(arg, ps) == arg
  {
    if ps != [] {
      NormalizeFixpoint(arg, ps[..|ps| - 1]);
      assert ps[|ps| - 1] in ps;
    }
  }

  /** `s[1..]` has an occurrence at `i` exactly when `s` has one at `i + 1`. */
  lemma OccursAtTail(s: string, lit: string, i: int)
    requires s != [] && 0 <= i
    ensures OccursAt(s[1..], lit, i) <==> OccursAt(s, lit, i + 1)
  {
    if i + 1 + |lit| <= |s| {
      assert s[1..][i..i + |lit|] == s[i + 1..i + 1 + |lit|];
    }
  }

  /** A zero-group pattern that does not occur in an argument leaves it unchanged. */
  lemma {:induction false} ReplaceAllNoOccurrence(s: string, lit: string)
    requires lit != []
    requires forall i :: !OccursAt(s, lit, i)
    ensures ReplaceAll(s, lit) == s
  {
    if |s| >= |lit| {
      assert !OccursAt(s, lit, 0);
      forall i | true ensures !OccursAt(s[1..], lit, i) {
        if 0 <= i {
          OccursAtTail(s, lit, i);
        }
      }
      ReplaceAllNoOccurrence(s[1..], lit);
      assert [s[0]] + s[1..] == s;
    }
  }

  /** An occurrence at the front becomes one placeholder; the rest is rewritten on its own. */
  lemma ReplaceAllLeading(lit: string, rest: string)
    requires lit != []
    ensures ReplaceAll(lit + rest, lit) == PLACEHOLDER + ReplaceAll(rest, lit)
  {
    assert (lit + rest)[..|lit|] == lit;
    assert (lit + rest)[|lit|..] == rest;
  }

  /** A zero-group pattern equal to the whole argument turns it into exactly one placeholder. */
  lemma ReplaceAllWhole(lit: string)
    requires lit != []
    ensures ReplaceAll(lit, lit) == PLACEHOLDER
  {
    ReplaceAllLeading(lit, []);
    assert lit + [] == lit;
  }

  /**
   * The front of a grouped rewrite: a placeholder when group 1 starts
   * after 0, group 1's text otherwise.
   */
  lemma GroupedRewriteFront(arg: string, m: FullMatch)
    requires ValidMatch(arg, m)
    ensures m.groups[0].start > 0 ==> PLACEHOLDER <= GroupedRewrite(arg, m)
    ensures m.groups[0].start == 0 ==> arg[..m.groups[0].end] <= GroupedRewrite(arg, m)
  {
    var texts := GroupTexts(arg, m);
    var joined := Join(PLACEHOLDER, texts);
    assert m.groups[0].start == 0 ==> texts[0] == arg[..m.groups[0].end];
    assert texts[0] <= joined;
  }

  /** A grouped rewrite ends in a placeholder when group `lastindex` stops short of the end of the argument. */
  lemma GroupedRewriteBackShort(arg: string, m: FullMatch)
    requires ValidMatch(arg, m) && m.groups[m.lastIndex - 1].end < |arg|
    ensures var r := GroupedRewrite(arg, m);
      |PLACEHOLDER| <= |r| && r[|r| - |PLACEHOLDER|..] == PLACEHOLDER
  {
  }

  /** A grouped pattern that does not match the whole argument has no effect on it. */
  lemma GroupedNoMatch(arg: string, p: Pattern)
    requires p.Grouped? && WellFormed(p) && p.fullMatch(arg).None?
    ensures ApplyPattern(arg, p) == arg
  {
  }

  /**
   * A fully matching grouped pattern with one group keeps that group's text,
   * with a placeholder before it iff it starts after 0 and after it iff it ends before the end.
   */
  lemma GroupedSingleGroup(arg: string, p: Pattern, s: int, e: int)
    requires p.Grouped? && WellFormed(p) && p.fullMatch(arg) == Some(FullMatch([Span(s, e)], 1))
    ensures 0 <= s <= e <= |arg|
    ensures ApplyPattern(arg, p) ==
      (if s > 0 then PLACEHOLDER else []) + arg[s..e] + (if e < |arg| then PLACEHOLDER else [])
  {
    var m := FullMatch([Span(s, e)], 1);
    assert ValidMatch(arg, m);
    assert m.groups[0] == Span(s, e);
    assert GroupTexts(arg, m) == [arg[s..e]];
  }

  /** A single group spanning the whole argument leaves it unchanged. */
  lemma GroupedWholeArgument(arg: string, p: Pattern)
    requires p.Grouped? && WellFormed(p) && p.fullMatch(arg) == Some(FullMatch([Span(0, |arg|)], 1))
    ensures ApplyPattern(arg, p) == arg
  {
    GroupedSingleGroup(arg, p, 0, |arg|);
    assert arg[0..|arg|] == arg;
  }

  /** `["kubectl", "--dry-run", "apply"]` with the pattern `--dry-run`. */
  lemma DryRunExample()
    ensures NormalizeAll(["kubectl", "--dry-run", "apply"], [Literal("--dry-run")]) == ["kubectl", PLACEHOLDER, "apply"]
  {
    ReplaceAllWhole("--dry-run");
    assert [Literal("--dry-run")][..0] == [];
  }

  /** `"/home/user/kubeconfig"` with a pattern like `^.+/(kubeconfig)$`, whose one group spans 11..21. */
  lemma KubeconfigExample(p: Pattern)
    requires p.Grouped? && WellFormed(p)
    requires p.fullMatch("/home/user/kubeconfig") == Some(FullMatch([Span(11, 21)], 1))
    ensures NormalizeAll(["/home/user/kubeconfig"], [p]) == [PLACEHOLDER + "kubeconfig"]
  {
    var arg := "/home/user/kubeconfig";
    GroupedSingleGroup(arg, p, 11, 21);
    assert arg[11..21] == "kubeconfig";
    assert |arg| == 21;
    assert [p][..0] == [];
    assert Normalize(arg, [p]) == ApplyPattern(arg, p) == PLACEHOLDER + "kubeconfig";
    var args: seq<string> := [arg];
    assert args[..0] == [];
  }

  /** `"/tmp/test/file.txt"` with the pattern `/tmp/test`: the prefix becomes the placeholder, `/file.txt` stays. */
  lemma PartialReplacementExample()
    ensures ReplaceAll("/tmp/test/file.txt", "/tmp/test") == PLACEHOLDER + "/file.txt"
  {
    var lit, rest := "/tmp/test", "/file.txt";
    assert lit + rest == "/tmp/test/file.txt";
    ReplaceAllLeading(lit, rest);
    assert !OccursAt(rest, lit, 0) by {
      assert rest[1] != lit[1];
    }
    ReplaceAllNoOccurrence(rest, lit);
  }
}
