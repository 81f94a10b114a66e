/** String helpers of the `StringUtils` class: null-or-empty tests, collapsing
    runs of blanks into an underscore, and prefix removal.
    A Java `String` that may be `null` is an `Option<string>`; `None` is `null`.
 */
module StringUtils {
  import opened Wrappers

  type JString = Option<string>

  // ---------------------------------------------------------------------------
  // isSpecified / isNullOrEmpty
  // ---------------------------------------------------------------------------

  /** `isSpecified`: the reference is set and the text has at least one
      character; exactly the strings `isNullOrEmpty` rejects. */
  function IsSpecified(s: JString): (r: bool)
    ensures r <==> !IsNullOrEmpty(s)
  {
    s.Some? && |s.value| > 0
  }

  /** `isNullOrEmpty`: the reference is `null`, or the text is `""`. */
  function IsNullOrEmpty(s: JString): (r: bool)
    ensures r <==> (s == None || s == Some(""))
  {
    match s
    case None => true
    case Some(text) => |text| == 0
  }

  /** The two predicates are complements of each other on every input,
      including `null` and the empty string. */
  lemma {:induction false} NullOrEmptyIsNotSpecified(s: JString)
    ensures IsNullOrEmpty(s) <==> !IsSpecified(s)
    ensures IsNullOrEmpty(s) <==> (s == None || s == Some(""))
  {
  }

  /** The cases the `isSpecified` / `isNullOrEmpty` tests pin. */
  lemma {:induction false} SpecifiedExamples()
    ensures !IsSpecified(Some("")) && !IsSpecified(None) && IsSpecified(Some("abc"))
    ensures IsNullOrEmpty(Some("")) && IsNullOrEmpty(None) && !IsNullOrEmpty(Some("abc"))
  {
  }

  // ---------------------------------------------------------------------------
  // replaceSpaces
  // ---------------------------------------------------------------------------

  /** The character `replaceSpaces` treats as a blank. */
  predicate IsBlank(c: char) {
    c == ' '
  }

  predicate NoBlanks(s: string) {
    forall i :: 0 <= i < |s| ==> !IsBlank(s[i])
  }

  predicate StartsWithBlank(s: string) {
    |s| > 0 && IsBlank(s[0])
  }

  predicate EndsWithBlank(s: string) {
    |s| > 0 && IsBlank(s[|s| - 1])
  }

  /** A non-empty run made of blanks only. */
  predicate IsBlankRun(run: string) {
    |run| > 0 && forall i :: 0 <= i < |run| ==> IsBlank(run[i])
  }

  /** Length of the maximal run of blanks at the front of `s`. */
  function LeadingBlanks(s: string): (n: nat)
    ensures n <= |s|
  {
    if |s| == 0 || !IsBlank(s[0]) then 0 else 1 + LeadingBlanks(s[1..])
  }

  /** The leading run is maximal: all blanks, and followed by a non-blank
      when it stops before the end. */
  lemma {:induction false} LeadingBlanksIsMaximalRun(s: string)
    ensures forall i :: 0 <= i < LeadingBlanks(s) ==> IsBlank(s[i])
    ensures LeadingBlanks(s) < |s| ==> !IsBlank(s[LeadingBlanks(s)])
    decreases |s|
  {
    if |s| > 0 && IsBlank(s[0]) {
      LeadingBlanksIsMaximalRun(s[1..]);
    }
  }

  /** Reference definition of `replaceSpaces`, read off the maximal runs of `s`:
      every maximal run of blanks becomes one `_`, every other character is kept. */
  function CollapseBlankRuns(s: string): (r: string)
    ensures |r| <= |s|
    decreases |s|
  {
    if |s| == 0 then ""
    else if IsBlank(s[0]) then "_" + CollapseBlankRuns(s[LeadingBlanks(s)..])
    else [s[0]] + CollapseBlankRuns(s[1..])
  }

  /** No blank survives collapsing. */
  lemma {:induction false} CollapseLeavesNoBlanks(s: string)
    ensures NoBlanks(CollapseBlankRuns(s))
    decreases |s|
  {
    if |s| > 0 {
      if IsBlank(s[0]) {
        CollapseLeavesNoBlanks(s[LeadingBlanks(s)..]);
      } else {
        CollapseLeavesNoBlanks(s[1..]);
      }
    }
  }

  /** Text without blanks comes back unchanged. */
  lemma {:induction false} CollapseKeepsPlainText(s: string)
    requires NoBlanks(s)
    ensures CollapseBlankRuns(s) == s
    decreases |s|
  {
    if |s| > 0 {
      assert !IsBlank(s[0]);
      assert NoBlanks(s[1..]) by {
        forall i | 0 <= i < |s[1..]| ensures !IsBlank(s[1..][i]) {
          assert s[1..][i] == s[i + 1];
        }
      }
      CollapseKeepsPlainText(s[1..]);
    }
  }

  /** `replaceSpaces`, one character at a time: a blank emits `_` only when
      it opens a run, that is when the previous character was not a blank. */
  method ReplaceSpaces(s: string) returns (r: string)
    ensures r == CollapseBlankRuns(s)
    ensures NoBlanks(r)
  {
    r := "";
    var i := 0;
    while i < |s|
      invariant 0 <= i <= |s|
      invariant r == CollapseBlankRuns(s[..i])
    {
      var c := s[i];
      assert s[..i + 1] == s[..i] + [c];
      CollapseSnoc(s[..i], c);
      if !IsBlank(c) {
        r := r + [c];
      } else if i == 0 || !IsBlank(s[i - 1]) {
        r := r + "_";
      }
      i := i + 1;
    }
    assert s[..|s|] == s;
    CollapseLeavesNoBlanks(s);
  }

  /** Appending one character to the input extends the output by at most one
      character: a blank that continues a run adds nothing, a blank that opens
      a run adds `_`, any other character is copied. */
  lemma {:induction false} CollapseSnoc(p: string, c: char)
    ensures CollapseBlankRuns(p + [c]) ==
      if !IsBlank(c) then CollapseBlankRuns(p) + [c]
      else if EndsWithBlank(p) then CollapseBlankRuns(p)
      else CollapseBlankRuns(p) + "_"
    decreases |p|
  {
    if |p| == 0 {
      SnocOnEmpty(c);
    } else if LeadingBlanks(p) == |p| {
      SnocOnBlankRun(p, c);
    } else if IsBlank(p[0]) {
      var k := LeadingBlanks(p);
      SnocAfterLeadingRun(p, c);
      CollapseSnoc(p[k..], c);
    } else {
      SnocAfterFirst(p, c);
      CollapseSnoc(p[1..], c);
    }
  }

  lemma {:induction false} SnocOnEmpty(c: char)
    ensures CollapseBlankRuns([c]) == if IsBlank(c) then "_" else [c]
  {
    if IsBlank(c) {
      assert LeadingBlanks([c]) == 1;
    }
  }

  /** `p` is one run of blanks. */
  lemma {:induction false} SnocOnBlankRun(p: string, c: char)
    requires |p| > 0 && LeadingBlanks(p) == |p|
    ensures CollapseBlankRuns(p) == "_" && EndsWithBlank(p)
    ensures CollapseBlankRuns(p + [c]) == if IsBlank(c) then "_" else "_" + [c]
  {
    LeadingBlanksIsMaximalRun(p);
    assert p[|p|..] == [];
    var s := p + [c];
    if IsBlank(c) {
      LeadingBlanksAllBlank(s);
      assert s[|s|..] == [];
    } else {
      LeadingBlanksPrefix(p, [c]);
      assert s[|p|..] == [c];
      SnocOnEmpty(c);
    }
  }

  /** `p` opens with a run of blanks that ends inside `p`. */
  lemma {:induction false} SnocAfterLeadingRun(p: string, c: char)
    requires |p| > 0 && IsBlank(p[0]) && LeadingBlanks(p) < |p|
    ensures var k := LeadingBlanks(p);
      && CollapseBlankRuns(p) == "_" + CollapseBlankRuns(p[k..])
      && CollapseBlankRuns(p + [c]) == "_" + CollapseBlankRuns(p[k..] + [c])
      && EndsWithBlank(p[k..]) == EndsWithBlank(p)
  {
    var k := LeadingBlanks(p);
    LeadingBlanksPrefix(p, [c]);
    assert (p + [c])[k..] == p[k..] + [c];
  }

  /** `p` opens with a character that is not a blank. */
  lemma {:induction false} SnocAfterFirst(p: string, c: char)
    requires |p| > 0 && !IsBlank(p[0])
    ensures CollapseBlankRuns(p) == [p[0]] + CollapseBlankRuns(p[1..])
    ensures CollapseBlankRuns(p + [c]) == [p[0]] + CollapseBlankRuns(p[1..] + [c])
    ensures EndsWithBlank(p[1..]) == EndsWithBlank(p)
  {
    assert (p + [c])[1..] == p[1..] + [c];
  }

  lemma {:induction false} LeadingBlanksAllBlank(s: string)
    requires forall i :: 0 <= i < |s| ==> IsBlank(s[i])
    ensures LeadingBlanks(s) == |s|
    decreases |s|
  {
    if |s| > 0 {
      LeadingBlanksAllBlank(s[1..]);
    }
  }

  /** The leading run of `a` is the leading run of `a + b` when it stops inside `a`. */
  lemma {:induction false} LeadingBlanksPrefix(a: string, b: string)
    requires LeadingBlanks(a) < |a| || StartsWithBlank(b) == false
    ensures LeadingBlanks(a + b) == LeadingBlanks(a)
    decreases |a|
  {
    if |a| > 0 && IsBlank(a[0]) {
      assert (a + b)[1..] == a[1..] + b;
      LeadingBlanksPrefix(a[1..], b);
    } else if |a| == 0 {
      assert a + b == b;
    }
  }

  /** Collapsing distributes over a concatenation that does not cut a run of
      blanks in two. */
  lemma {:induction false} CollapseAppend(a: string, b: string)
    requires !(EndsWithBlank(a) && StartsWithBlank(b))
    ensures CollapseBlankRuns(a + b) == CollapseBlankRuns(a) + CollapseBlankRuns(b)
    decreases |b|
  {
    if |b| == 0 {
      assert a + b == a;
    } else {
      var p, c := b[..|b| - 1], b[|b| - 1];
      assert b == p + [c];
      assert a + b == (a + p) + [c];
      if |p| == 0 {
        assert a + p == a;
        CollapseSnoc(a, c);
        SnocOnEmpty(c);
      } else {
        assert StartsWithBlank(p) == StartsWithBlank(b);
        CollapseAppend(a, p);
        SnocShared(a, p, c);
      }
    }
  }

  /** The step of CollapseAppend: `c` extends `a + p` as it extends `p`. */
  lemma {:induction false} SnocShared(a: string, p: string, c: char)
    requires |p| > 0
    requires CollapseBlankRuns(a + p) == CollapseBlankRuns(a) + CollapseBlankRuns(p)
    ensures CollapseBlankRuns((a + p) + [c]) == CollapseBlankRuns(a) + CollapseBlankRuns(p + [c])
  {
    var ca, cp := CollapseBlankRuns(a), CollapseBlankRuns(p);
    CollapseSnoc(a + p, c);
    CollapseSnoc(p, c);
    assert EndsWithBlank(a + p) == EndsWithBlank(p);
    var tail: string := if !IsBlank(c) then [c] else if EndsWithBlank(p) then "" else "_";
    assert CollapseBlankRuns(p + [c]) == cp + tail;
    assert CollapseBlankRuns((a + p) + [c]) == (ca + cp) + tail;
    assert (ca + cp) + tail == ca + (cp + tail);
  }

  /** A run of blanks of any positive length becomes exactly one `_`. */
  lemma {:induction false} CollapseWholeRun(run: string)
    requires IsBlankRun(run)
    ensures CollapseBlankRuns(run) == "_"
  {
    LeadingBlanksAllBlank(run);
    assert run[|run|..] == "";
  }

  /** Each maximal run of blanks, whatever its length and wherever it sits,
      is replaced by a single `_`; the text on either side is collapsed on its own. */
  lemma {:induction false} CollapseMaximalRun(a: string, run: string, b: string)
    requires IsBlankRun(run)
    requires !EndsWithBlank(a) && !StartsWithBlank(b)
    ensures CollapseBlankRuns(a + run + b) ==
      CollapseBlankRuns(a) + "_" + CollapseBlankRuns(b)
  {
    CollapseAppend(a, run);
    assert EndsWithBlank(a + run);
    CollapseAppend(a + run, b);
    CollapseWholeRun(run);
  }

  /** Characters that are neither blank nor `_`, in order. */
  function Visible(s: string): (r: string)
    ensures |r| <= |s|
  {
    if |s| == 0 then ""
    else
      var last := s[|s| - 1];
      Visible(s[..|s| - 1]) + (if IsBlank(last) || last == '_' then "" else [last])
  }

  /** Number of `_` characters in `s`. */
  function Underscores(s: string): nat {
    if |s| == 0 then 0
    else Underscores(s[..|s| - 1]) + (if s[|s| - 1] == '_' then 1 else 0)
  }

  /** Number of maximal runs of blanks in `s`. */
  function BlankRuns(s: string): nat {
    if |s| == 0 then 0
    else
      var p := s[..|s| - 1];
      BlankRuns(p) + (if IsBlank(s[|s| - 1]) && !EndsWithBlank(p) then 1 else 0)
  }

  /** Nothing but blanks is touched: the other characters survive in their
      original order, and the output holds every `_` of the input plus exactly
      one new `_` per run of blanks (pre-existing `_` are not merged away). */
  lemma {:induction false} CollapseKeepsText(s: string)
    ensures Visible(CollapseBlankRuns(s)) == Visible(s)
    ensures Underscores(CollapseBlankRuns(s)) == Underscores(s) + BlankRuns(s)
    decreases |s|
  {
    if |s| > 0 {
      var p, c := s[..|s| - 1], s[|s| - 1];
      assert s == p + [c];
      CollapseKeepsText(p);
      KeepsTextStep(p, c);
    }
  }

  /** The step of CollapseKeepsText: what one more input character adds. */
  lemma {:induction false} KeepsTextStep(p: string, c: char)
    ensures var q, q' := CollapseBlankRuns(p), CollapseBlankRuns(p + [c]);
      && Visible(q') == Visible(q) + (if IsBlank(c) || c == '_' then "" else [c])
      && Underscores(q') == Underscores(q) + (if c == '_' || (IsBlank(c) && !EndsWithBlank(p)) then 1 else 0)
  {
    CollapseSnoc(p, c);
    var q := CollapseBlankRuns(p);
    if !IsBlank(c) {
      assert (q + [c])[..|q + [c]| - 1] == q;
    } else if !EndsWithBlank(p) {
      assert (q + "_")[..|q + "_"| - 1] == q;
    }
  }

  /* The examples below are the test's inputs with the letters `a`, `b`, `c`
     generalised to any non-blank characters. Keeping variables in the input
     also keeps the verifier from evaluating CollapseBlankRuns on a literal,
     which is far more expensive than the proof by runs. */

  /** One step of the examples: `a`, then a run of blanks, then `b`. */
  lemma {:induction false} CollapseStep(s: string, a: string, run: string, b: string, cb: string)
    requires s == a + run + b
    requires IsBlankRun(run) && NoBlanks(a) && !StartsWithBlank(b)
    requires CollapseBlankRuns(b) == cb
    ensures CollapseBlankRuns(s) == a + "_" + cb
  {
    CollapseKeepsPlainText(a);
    CollapseMaximalRun(a, run, b);
  }

  /** `b c  `, the end of both examples with runs at the ends. */
  lemma {:induction false} CollapseTail(b: char, c: char)
    requires !IsBlank(b) && !IsBlank(c)
    ensures CollapseBlankRuns([b, ' ', c, ' ', ' ']) == [b, '_', c, '_']
  {
    var t := [b, ' ', c, ' ', ' '];
    CollapseStep(t[2..], [c], "  ", [], []);
    CollapseStep(t, [b], " ", t[2..], [c, '_']);
  }

  lemma {:induction false} CollapseWordPair(b: char, c: char)
    requires !IsBlank(b) && !IsBlank(c)
    ensures CollapseBlankRuns([b, ' ', c]) == [b, '_', c]
  {
    CollapseKeepsPlainText([c]);
    assert [b, ' ', c] == [b] + " " + [c];
    CollapseStep([b, ' ', c], [b], " ", [c], [c]);
  }

  /** Single blanks between words become one `_` each. */
  lemma {:induction false} ReplaceSpacesSingleBlanks(a: char, b: char, c: char)
    requires !IsBlank(a) && !IsBlank(b) && !IsBlank(c)
    ensures CollapseBlankRuns([a, ' ', b, ' ', c]) == [a, '_', b, '_', c]
  {
    CollapseWordPair(b, c);
    assert [a, ' ', b, ' ', c] == [a] + " " + [b, ' ', c];
    CollapseStep([a, ' ', b, ' ', c], [a], " ", [b, ' ', c], [b, '_', c]);
  }

  /** A run of six blanks between words becomes one `_` as well. */
  lemma {:induction false} ReplaceSpacesLongRun(a: char, b: char, c: char)
    requires !IsBlank(a) && !IsBlank(b) && !IsBlank(c)
    ensures CollapseBlankRuns([a] + "      " + [b, ' ', c]) == [a, '_', b, '_', c]
  {
    CollapseWordPair(b, c);
    CollapseStep([a] + "      " + [b, ' ', c], [a], "      ", [b, ' ', c], [b, '_', c]);
  }

  lemma {:induction false} CollapseLongRunThenTail(a: char, b: char, c: char)
    requires !IsBlank(a) && !IsBlank(b) && !IsBlank(c)
    ensures CollapseBlankRuns([a] + "      " + [b, ' ', c, ' ', ' ']) == [a, '_', b, '_', c, '_']
  {
    var tail := [b, ' ', c, ' ', ' '];
    CollapseTail(b, c);
    CollapseStep([a] + "      " + tail, [a], "      ", tail, [b, '_', c, '_']);
  }

  /** Runs at either end become one `_` each. */
  lemma {:induction false} ReplaceSpacesOuterRuns(a: char, b: char, c: char)
    requires !IsBlank(a) && !IsBlank(b) && !IsBlank(c)
    ensures CollapseBlankRuns(" " + [a] + "      " + [b, ' ', c, ' ', ' ']) == ['_', a, '_', b, '_', c, '_']
  {
    var w := [a] + "      " + [b, ' ', c, ' ', ' '];
    CollapseLongRunThenTail(a, b, c);
    assert " " + [a] + "      " + [b, ' ', c, ' ', ' '] == [] + " " + w;
    CollapseStep([] + " " + w, [], " ", w, [a, '_', b, '_', c, '_']);
  }

  lemma {:induction false} CollapseUnderscoreThenTail(b: char, c: char)
    requires !IsBlank(b) && !IsBlank(c)
    ensures CollapseBlankRuns("_   " + [b, ' ', c, ' ', ' ']) == ['_', '_', b, '_', c, '_']
  {
    var tail := [b, ' ', c, ' ', ' '];
    CollapseTail(b, c);
    CollapseStep("_   " + tail, "_", "   ", tail, [b, '_', c, '_']);
  }

  lemma {:induction false} CollapseWordThenUnderscore(a: char, b: char, c: char)
    requires !IsBlank(a) && !IsBlank(b) && !IsBlank(c)
    ensures CollapseBlankRuns([a] + "  " + "_   " + [b, ' ', c, ' ', ' ']) == [a, '_', '_', '_', b, '_', c, '_']
  {
    var u := "_   " + [b, ' ', c, ' ', ' '];
    CollapseUnderscoreThenTail(b, c);
    assert [a] + "  " + "_   " + [b, ' ', c, ' ', ' '] == [a] + "  " + u;
    CollapseStep([a] + "  " + u, [a], "  ", u, ['_', '_', b, '_', c, '_']);
  }

  /** An `_` already in the text stays, next to the `_` of each neighbouring run. */
  lemma {:induction false} ReplaceSpacesKeepsUnderscores(a: char, b: char, c: char)
    requires !IsBlank(a) && !IsBlank(b) && !IsBlank(c)
    ensures CollapseBlankRuns(" " + [a] + "  _   " + [b, ' ', c, ' ', ' ']) == ['_', a, '_', '_', '_', b, '_', c, '_']
  {
    var w := [a] + "  " + "_   " + [b, ' ', c, ' ', ' '];
    CollapseWordThenUnderscore(a, b, c);
    assert " " + [a] + "  _   " + [b, ' ', c, ' ', ' '] == [] + " " + w;
    CollapseStep([] + " " + w, [], " ", w, [a, '_', '_', '_', b, '_', c, '_']);
  }

  // ---------------------------------------------------------------------------
  // removePrefix
  // ---------------------------------------------------------------------------

  /** `removePrefix(s, prefix)`: `s` without `prefix` when `s` starts with it,
      `s` unchanged otherwise (an occurrence further inside `s` does not count). */
  function RemovePrefix(s: string, prefix: string): (r: string)
    ensures prefix <= s ==> prefix + r == s
    ensures !(prefix <= s) ==> r == s
  {
    if prefix <= s then s[|prefix|..] else s
  }

  /** Removing the prefix that was just prepended gives back the original text. */
  lemma {:induction false} RemovePrefixRoundTrip(prefix: string, t: string)
    ensures RemovePrefix(prefix + t, prefix) == t
  {
    assert prefix <= prefix + t;
  }

  /** The cases the `removePrefix` test pins: the prefix is stripped from the
      front, and a text that does not start with it, even one that contains
      it further in, comes back unchanged. */
  lemma {:induction false} RemovePrefixExamples(prefix: string, a: string, b: string, c: string)
    requires prefix == "colfusion."
    requires a == "colfusion.hibernate.default_catalog"
    requires b == "hibernate.default_catalog"
    requires c == "hibernate.default_catalog.colfusion.test"
    ensures RemovePrefix(a, prefix) == b
    ensures RemovePrefix(b, prefix) == b
    ensures RemovePrefix(c, prefix) == c
  {
    assert a == prefix + b;
    RemovePrefixRoundTrip(prefix, b);
    assert b[0] != prefix[0] && c[0] != prefix[0];
  }
}
